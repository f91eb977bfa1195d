/**
 The probe sequence of the Robin Hood hash set.

 A map has `cap` slots, a power of two and at least eight, in lines of four. Probe 1 is the home
 slot; within a line the sequence rotates, and after every fourth probe p it jumps ahead by p
 slots, so that the lines are visited at triangular distances from the home line.
 */
module RhsProbe {
  import opened Internal

  const LINE: nat := 4 // descriptors per cache line

  /** From probe p to probe p + 1. */
  function Next(cap: nat, o: nat, p: nat): nat {
    if cap == 0 then 0
    else if p % LINE != 0 then o / LINE * LINE + (o + 1) % LINE else (o + p) % cap
  }

  /** From probe p + 1 back to probe p. */
  function Prev(cap: nat, o: nat, p: nat): nat {
    if cap == 0 then 0
    else if p % LINE != 0 then o / LINE * LINE + (o - 1) % LINE else (o - p) % cap
  }

  /** The slot of probe j >= 1 of the sequence that starts at slot h. */
  function Slot(cap: nat, h: nat, j: nat): nat {
    if j <= 1 then h else Next(cap, Slot(cap, h, j - 1), j - 1)
  }

  /** The home slot of the sequence whose p-th probe is slot o. */
  function Home(cap: nat, o: nat, p: nat): nat
    decreases p
  {
    if p <= 1 then o else Home(cap, Prev(cap, o, p - 1), p - 1)
  }

  lemma CapacityLines(cap: nat) returns (k: nat)
    requires Capacity(cap)
    ensures cap == LINE * Pow2(k) && cap >= 8
  {
    var m: nat :| m >= 3 && cap == Pow2(m);
    k := m - 2;
    assert Pow2(m) == 2 * Pow2(m - 1) && Pow2(m - 1) == 2 * Pow2(m - 2);
    assert Pow2(m - 2) == 2 * Pow2(m - 3);
  }

  // ---- Going forward and back ------------------------------------------------------------

  lemma AroundLine(o: nat)
    ensures var n := o / LINE * LINE + (o + 1) % LINE;
            n / LINE == o / LINE && n / LINE * LINE + (n - 1) % LINE == o
  {
    var q, r := o / LINE, o % LINE;
    assert o == LINE * q + r;
    assert (o + 1) % LINE == if r == 3 then 0 else r + 1;
  }

  lemma PrevUndoesNext(cap: nat, o: nat, p: nat)
    requires cap > 0 && cap % LINE == 0 && o < cap
    ensures Next(cap, o, p) < cap && Prev(cap, Next(cap, o, p), p) == o
  {
    if p % LINE != 0 {
      AroundLine(o);
      assert Next(cap, o, p) < cap;
    } else {
      var q := (o + p) / cap;
      assert (o + p) % cap - p == cap * (-q) + o;
      DivModUnique((o + p) % cap - p, cap, -q, o);
    }
  }

  lemma BackInLine(cap: nat, o: nat)
    requires cap % LINE == 0 && o < cap
    ensures var n := o / LINE * LINE + (o - 1) % LINE; n < cap && n / LINE * LINE + (n + 1) % LINE == o
  {
    var q, r := o / LINE, o % LINE;
    assert o == LINE * q + r;
    assert (o - 1) % LINE == if r == 0 then 3 else r - 1;
  }

  lemma NextUndoesPrev(cap: nat, o: nat, p: nat)
    requires cap > 0 && cap % LINE == 0 && o < cap
    ensures Prev(cap, o, p) < cap && Next(cap, Prev(cap, o, p), p) == o
  {
    if p % LINE != 0 {
      BackInLine(cap, o);
    } else {
      var q := (o - p) / cap;
      assert (o - p) % cap + p == cap * (-q) + o;
      DivModUnique((o - p) % cap + p, cap, -q, o);
    }
  }

  lemma {:induction false} SlotInRange(cap: nat, h: nat, j: nat)
    requires cap > 0 && cap % LINE == 0 && h < cap
    ensures Slot(cap, h, j) < cap
  {
    if j > 1 {
      SlotInRange(cap, h, j - 1);
      PrevUndoesNext(cap, Slot(cap, h, j - 1), j - 1);
    }
  }

  /** Slot and probe number determine the home. */
  lemma {:induction false} HomeOfSlot(cap: nat, h: nat, p: nat)
    requires cap > 0 && cap % LINE == 0 && h < cap && p >= 1
    ensures Home(cap, Slot(cap, h, p), p) == h
  {
    if p > 1 {
      SlotInRange(cap, h, p - 1);
      PrevUndoesNext(cap, Slot(cap, h, p - 1), p - 1);
      HomeOfSlot(cap, h, p - 1);
    }
  }

  lemma {:induction false} SlotOfHome(cap: nat, o: nat, p: nat)
    requires cap > 0 && cap % LINE == 0 && o < cap && p >= 1
    ensures Home(cap, o, p) < cap && Slot(cap, Home(cap, o, p), p) == o
    decreases p
  {
    if p > 1 {
      NextUndoesPrev(cap, o, p - 1);
      SlotOfHome(cap, Prev(cap, o, p - 1), p - 1);
    }
  }

  // ---- The closed form -------------------------------------------------------------------

  function Tri(q: nat): nat { if q == 0 then 0 else Tri(q - 1) + q }

  /** Probe LINE * q + r + 1 lies in the line Tri(q) lines after the home line, rotated. */
  lemma {:induction false} SlotForm(lines: nat, h: nat, q: nat, r: nat)
    requires lines > 0 && h < LINE * lines && r < LINE
    ensures Slot(LINE * lines, h, LINE * q + r + 1) == Form(lines, h, q, r)
    decreases q, r
  {
    if r > 0 {
      SlotForm(lines, h, q, r - 1);
      FormStep(lines, h, q, r);
    } else if q > 0 {
      SlotForm(lines, h, q - 1, 3);
      FormJump(lines, h, q);
    } else {
      DivModUnique(h / LINE, lines, 0, h / LINE);
    }
  }

  function Form(lines: nat, h: nat, q: nat, r: nat): nat
    requires lines > 0
  {
    LINE * ((h / LINE + Tri(q)) % lines) + (h + 3 * q + r) % LINE
  }

  lemma FormStep(lines: nat, h: nat, q: nat, r: nat)
    requires lines > 0 && 0 < r < LINE
    ensures Next(LINE * lines, Form(lines, h, q, r - 1), LINE * q + r) == Form(lines, h, q, r)
  {
    LineStep((h / LINE + Tri(q)) % lines, (h + 3 * q + r - 1) % LINE, LINE * q + r, LINE * lines);
    Rotate(h + 3 * q + r - 1);
  }

  lemma Rotate(x: nat)
    ensures (x % LINE + 1) % LINE == (x + 1) % LINE
  {
  }

  lemma FormJump(lines: nat, h: nat, q: nat)
    requires lines > 0 && q > 0
    ensures Next(LINE * lines, Form(lines, h, q - 1, 3), LINE * q) == Form(lines, h, q, 0)
  {
    assert (LINE * q) % LINE == 0;
    LineJump(lines, h / LINE + Tri(q - 1), q, (h + 3 * q) % LINE);
  }

  lemma LineStep(line: nat, b: nat, p: nat, cap: nat)
    requires b < LINE && p % LINE != 0 && cap > 0
    ensures Next(cap, LINE * line + b, p) == LINE * line + (b + 1) % LINE
  {
  }

  lemma LineJump(lines: nat, a: nat, q: nat, b: nat)
    requires lines > 0 && b < LINE
    ensures (LINE * (a % lines) + b + LINE * q) % (LINE * lines) == LINE * ((a + q) % lines) + b
  {
    var c, d := a / lines, (a % lines + q) / lines;
    var r := (a % lines + q) % lines;
    assert a % lines + q == lines * d + r;
    assert LINE * (a % lines) + b + LINE * q == (LINE * lines) * d + (LINE * r + b);
    DivModUnique(LINE * (a % lines) + b + LINE * q, LINE * lines, d, LINE * r + b);
    assert a + q == lines * (c + d) + r;
    DivModUnique(a + q, lines, c + d, r);
  }

  // ---- Every slot once ---------------------------------------------------------------------

  lemma {:induction false} TriDouble(q: nat)
    ensures 2 * Tri(q) == q * (q + 1)
  {
    if q > 0 { TriDouble(q - 1); }
  }

  /** A power of two that divides the product with an odd number divides the other factor. */
  lemma {:induction false} OddFactor(k: nat, odd: nat, x: nat, c: nat) returns (z: nat)
    requires odd % 2 == 1 && odd * x == Pow2(k) * c
    ensures x == Pow2(k) * z
  {
    if k == 0 {
      z := x;
    } else {
      var y := HalveProduct(odd, x, Pow2(k - 1) * c);
      z := OddFactor(k - 1, odd, y, c);
    }
  }

  lemma HalveProduct(odd: nat, x: nat, half: nat) returns (y: nat)
    requires odd % 2 == 1 && odd * x == 2 * half
    ensures x == 2 * y && odd * y == half
  {
    var o := odd / 2;
    var z := half - o * x;
    Distribute(o, x);
    assert odd == 2 * o + 1;
    assert x == 2 * z;
    y := z;
    TwiceProduct(odd, y);
  }

  lemma Distribute(o: nat, x: nat)
    ensures (2 * o + 1) * x == 2 * (o * x) + x
  {
  }

  lemma TwiceProduct(a: nat, b: nat)
    ensures a * (2 * b) == 2 * (a * b)
  {
  }

  /** Triangular numbers below a power of two are distinct modulo it. */
  lemma TriDistinct(k: nat, a: nat, b: nat)
    requires b < a < Pow2(k)
    ensures Tri(a) % Pow2(k) != Tri(b) % Pow2(k)
  {
    if Tri(a) % Pow2(k) == Tri(b) % Pow2(k) {
      var c := ModDiff(Pow2(k), Tri(a), Tri(b));
      TriGap(k, a, b, c);
    }
  }

  lemma ModDiff(p: nat, x: int, y: int) returns (c: int)
    requires p > 0 && x % p == y % p
    ensures x - y == p * c
  {
    c := x / p - y / p;
  }

  lemma TriGap(k: nat, a: nat, b: nat, c: int)
    requires b < a < Pow2(k)
    ensures Tri(a) - Tri(b) != Pow2(k) * c
  {
    if Tri(a) - Tri(b) == Pow2(k) * c {
      TriDouble(a);
      TriDouble(b);
      assert (a - b) * (a + b + 1) == a * (a + 1) - b * (b + 1);
      GapProduct(k, a - b, a + b + 1, c);
    }
  }

  lemma GapProduct(k: nat, d: nat, s: nat, c: int)
    requires 0 < d < Pow2(k) && 0 < s < Pow2(k + 1) && (d + s) % 2 == 1
    ensures d * s != 2 * (Pow2(k) * c)
  {
    if d * s == 2 * (Pow2(k) * c) {
      TwiceFactor(Pow2(k), c);
      OddEvenProduct(k + 1, Pow2(k + 1), d, s, c);
    }
  }

  lemma TwiceFactor(p: nat, c: int)
    ensures 2 * (p * c) == (2 * p) * c
  {
  }

  lemma OddEvenProduct(k: nat, p: nat, d: nat, s: nat, c: int)
    requires p == Pow2(k) && 0 < d < p && 0 < s < p && (d + s) % 2 == 1
    ensures d * s != p * c
  {
    if d * s == p * c {
      PositiveFactor(p, c, d, s);
      if d % 2 == 1 {
        var z := OddFactor(k, d, s, c);
        NotMultiple(p, s, z);
      } else {
        Commute(d, s);
        var z := OddFactor(k, s, d, c);
        NotMultiple(p, d, z);
      }
    }
  }

  lemma Commute(a: int, b: int)
    ensures a * b == b * a
  {
  }

  lemma PositiveFactor(p: nat, c: int, d: nat, s: nat)
    requires d > 0 && s > 0 && d * s == p * c
    ensures c > 0
  {
    MulGap(d, 0, s);
    if c < 0 { MulGap(p, c, 0); }
  }

  lemma NotMultiple(p: nat, x: nat, z: nat)
    requires 0 < x < p
    ensures x != p * z
  {
    if z > 0 { MulGap(p, 0, z); }
  }

  lemma ModSum(p: nat, x: nat, a: nat, b: nat)
    requires p > 0 && (x + a) % p == (x + b) % p
    ensures a % p == b % p
  {
    var c := (x + a) / p - (x + b) / p;
    assert a - b == p * c;
    var q, r := b / p, b % p;
    assert a == p * (q + c) + r;
    DivModUnique(a, p, q + c, r);
  }

  /** Two probes among the first `cap` of a sequence visit different slots. */
  lemma SlotsDistinct(cap: nat, h: nat, i: nat, j: nat)
    requires Capacity(cap) && h < cap && 1 <= i < j <= cap
    ensures Slot(cap, h, i) != Slot(cap, h, j)
  {
    var k := CapacityLines(cap);
    var q, r := (i - 1) / LINE, (i - 1) % LINE;
    var q', r' := (j - 1) / LINE, (j - 1) % LINE;
    SlotForm(Pow2(k), h, q, r);
    SlotForm(Pow2(k), h, q', r');
    FormDistinct(k, h, q, r, q', r');
  }

  lemma FormDistinct(k: nat, h: nat, q: nat, r: nat, q': nat, r': nat)
    requires r < LINE && r' < LINE && q < Pow2(k) && q' < Pow2(k)
    requires q < q' || (q == q' && r < r')
    ensures Form(Pow2(k), h, q, r) != Form(Pow2(k), h, q', r')
  {
    var p, x := Pow2(k), h / LINE;
    var a, a' := (x + Tri(q)) % p, (x + Tri(q')) % p;
    if q < q' {
      TriDistinct(k, q', q);
      if a == a' { ModSum(p, x, Tri(q), Tri(q')); }
      OtherLine(a, (h + 3 * q + r) % LINE, a', (h + 3 * q' + r') % LINE);
    } else {
      OtherPlace(h + 3 * q, r, r');
    }
  }

  lemma OtherLine(a: nat, b: nat, a': nat, b': nat)
    requires a != a' && b < LINE && b' < LINE
    ensures LINE * a + b != LINE * a' + b'
  {
  }

  lemma OtherPlace(x: nat, r: nat, r': nat)
    requires r < r' < LINE
    ensures (x + r) % LINE != (x + r') % LINE
  {
  }

  /** The slots visited by the first n probes. */
  ghost function Trail(cap: nat, h: nat, n: nat): set<nat>
    requires cap > 0
  {
    set j | 1 <= j <= n :: Slot(cap, h, j)
  }

  lemma {:induction false} TrailSize(cap: nat, h: nat, n: nat)
    requires Capacity(cap) && h < cap && n <= cap
    ensures |Trail(cap, h, n)| == n
  {
    if n == 0 {
      assert Trail(cap, h, 0) == {};
    } else {
      TrailSize(cap, h, n - 1);
      assert Trail(cap, h, n) == Trail(cap, h, n - 1) + {Slot(cap, h, n)};
      if Slot(cap, h, n) in Trail(cap, h, n - 1) {
        var j :| 1 <= j <= n - 1 && Slot(cap, h, j) == Slot(cap, h, n);
        SlotsDistinct(cap, h, j, n);
      }
    }
  }

  ghost function Below(n: nat): (r: set<nat>)
    ensures |r| == n && forall x: nat :: x in r <==> x < n
  {
    if n == 0 then {} else Below(n - 1) + {n - 1}
  }

  /** The first `cap` probes visit every slot, and by SlotsDistinct only once. */
  lemma EverySlotVisited(cap: nat, h: nat, s: nat) returns (j: nat)
    requires Capacity(cap) && h < cap && s < cap
    ensures 1 <= j <= cap && Slot(cap, h, j) == s
  {
    var lines := LinesOf(cap);
    forall x | x in Trail(cap, h, cap) ensures x in Below(cap) {
      var i :| 1 <= i <= cap && Slot(cap, h, i) == x;
      SlotInRange(cap, h, i);
    }
    TrailSize(cap, h, cap);
    SubsetSize(Trail(cap, h, cap), Below(cap));
    assert s in Trail(cap, h, cap);
    j :| 1 <= j <= cap && Slot(cap, h, j) == s;
  }

  // ---- Recovering the home ------------------------------------------------------------------

  /** Undo the jump to this line, then the rotation in the line before. */
  function LineBefore(cap: nat, offset: nat, probes: nat): nat
    requires cap > 0 && probes > 0
  {
    var o := (offset - (probes - 1) / LINE * LINE) % cap;
    o / LINE * LINE + (o - (LINE - 1)) % LINE
  }

  /** The home slot, computed line by line. */
  method GetFirstOffset(cap: nat, start: nat, n: nat) returns (h: nat)
    requires Capacity(cap) && start < cap && n >= 1
    ensures h == Home(cap, start, n) && h < cap
  {
    ghost var home := Home(cap, start, n);
    ghost var lines := LinesOf(cap);
    SlotOfHome(cap, start, n);
    var offset, probes := start, n;
    while probes > LINE
      invariant 1 <= probes && offset < cap && offset == Slot(cap, home, probes)
    {
      LineBack(lines, home, probes);
      SlotInRange(cap, home, probes - LINE);
      offset := LineBefore(cap, offset, probes);
      probes := probes - LINE;
    }
    FirstLine(lines, home, probes);
    h := offset / LINE * LINE + (offset - (probes - 1)) % LINE;
  }

  lemma LinesOf(cap: nat) returns (lines: nat)
    requires Capacity(cap)
    ensures lines > 0 && cap == LINE * lines && cap % LINE == 0
  {
    var k := CapacityLines(cap);
    lines := Pow2(k);
  }

  /** From the r-th probe of one line to the r-th probe of the line before. */
  lemma LineBack(lines: nat, h: nat, probes: nat)
    requires lines > 0 && h < LINE * lines && probes > LINE
    ensures LineBefore(LINE * lines, Slot(LINE * lines, h, probes), probes) ==
            Slot(LINE * lines, h, probes - LINE)
  {
    var q, r := (probes - 1) / LINE, (probes - 1) % LINE;
    SlotForm(lines, h, q, r);
    SlotForm(lines, h, q - 1, r);
    FormBack(lines, h, q, r);
  }

  lemma FormBack(lines: nat, h: nat, q: nat, r: nat)
    requires lines > 0 && r < LINE && q > 0
    ensures var o := (Form(lines, h, q, r) - LINE * q) % (LINE * lines);
            o / LINE * LINE + (o - (LINE - 1)) % LINE == Form(lines, h, q - 1, r)
  {
    var a := h / LINE + Tri(q - 1);
    var b := (h + 3 * q + r) % LINE;
    assert Form(lines, h, q, r) == LINE * ((a + q) % lines) + b;
    LineUnjump(lines, a, q, b);
    RotateLine(a % lines, h + 3 * q + r);
    assert h + 3 * q + r - 3 == h + 3 * (q - 1) + r;
  }

  lemma RotateLine(line: nat, x: nat)
    requires x >= 3
    ensures var o := LINE * line + x % LINE;
            o / LINE * LINE + (o - (LINE - 1)) % LINE == LINE * line + (x - 3) % LINE
  {
    RotateBack(x, LINE * line);
  }

  lemma RotateBack(x: nat, base: nat)
    requires base % LINE == 0 && x >= 3
    ensures (base + x % LINE - (LINE - 1)) % LINE == (x - 3) % LINE
  {
  }

  lemma LineUnjump(lines: nat, a: nat, q: nat, b: nat)
    requires lines > 0 && b < LINE
    ensures (LINE * ((a + q) % lines) + b - LINE * q) % (LINE * lines) == LINE * (a % lines) + b
  {
    var c, r := (a + q) / lines, (a + q) % lines;
    var d, r' := a / lines, a % lines;
    assert a + q == lines * c + r && a == lines * d + r';
    assert LINE * r + b - LINE * q == (LINE * lines) * (d - c) + (LINE * r' + b);
    DivModUnique(LINE * r + b - LINE * q, LINE * lines, d - c, LINE * r' + b);
  }

  lemma FirstLine(lines: nat, h: nat, probes: nat)
    requires lines > 0 && h < LINE * lines && 1 <= probes <= LINE
    ensures var o := Slot(LINE * lines, h, probes);
            o / LINE * LINE + (o - (probes - 1)) % LINE == h
  {
    SlotForm(lines, h, 0, probes - 1);
    DivModUnique(h / LINE, lines, 0, h / LINE);
    RotateHome(h, probes - 1);
  }

  lemma RotateHome(h: nat, r: nat)
    requires r < LINE
    ensures var o := LINE * (h / LINE) + (h + r) % LINE;
            o / LINE * LINE + (o - r) % LINE == h
  {
  }
}
