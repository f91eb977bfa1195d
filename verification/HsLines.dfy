/**
 Where the probe sequence of the SPMC hash set goes: the line jump as the code computes it on machine words,
 the lines it reaches, and the room that this gives to insertions.
 */
module HsLines {
  import opened Internal
  import opened HsViews
  import opened HsProbe

  // ---- Words ------------------------------------------------------------------------------------------------

  /** Bitwise disjunction of the numbers that words stand for. */
  function Or(x: nat, y: nat): nat
    decreases x + y
  {
    if x == 0 then y else if y == 0 then x
    else 2 * Or(x / 2, y / 2) + if x % 2 == 1 || y % 2 == 1 then 1 else 0
  }

  /** Arithmetic on words of w bits wraps around. */
  function Word(w: nat, x: nat): nat { x % Pow2(w) }

  function ShiftRight(x: nat, k: nat): nat { if k == 0 then x else ShiftRight(x / 2, k - 1) }

  /** (r & ~7) << 1 | (r & 7) */
  function StrideWord(w: nat, r: nat): nat
    requires w >= 3
  {
    PowLarge(w);
    Or(Word(w, 2 * And(r, Pow2(w) - 8)), And(r, 7))
  }

  /** (offset + (probes >> 3) + (stride | 8)) & (cap - 1), with r = (h >> step) >> level. */
  function NextWord(w: nat, cap: nat, step: nat, offset: nat, h: nat, level: nat, probes: nat): nat
    requires w >= 3 && cap > 0
  {
    var r := ShiftRight(ShiftRight(h, step), level);
    And(Word(w, Word(w, offset + ShiftRight(probes, 3)) + Or(StrideWord(w, r), 8)), cap - 1)
  }

  lemma PowLarge(w: nat)
    requires w >= 3
    ensures Pow2(w) == 8 * Pow2(w - 3) && Pow2(w) >= 8
  {
    assert Pow2(w) == 2 * Pow2(w - 1) && Pow2(w - 1) == 2 * Pow2(w - 2) && Pow2(w - 2) == 2 * Pow2(w - 3);
  }

  lemma {:induction false} AndMask(x: nat, k: nat)
    ensures Pow2(k) > 0 && And(x, Pow2(k) - 1) == x % Pow2(k)
  {
    if k > 0 {
      AndMask(x / 2, k - 1);
      HalfRemainder(x, Pow2(k - 1));
      AndOdd(x, Pow2(k - 1) - 1);
    } else {
      AndZero(x);
    }
  }

  lemma AndDouble(x: nat, z: nat)
    ensures And(x, 2 * z) == 2 * And(x / 2, z)
  {
    assert 2 * z / 2 == z && 2 * z % 2 == 0;
  }

  /** Masking out the three lowest bits. */
  lemma AndHigh(x: nat, w: nat)
    requires w >= 3 && x < Pow2(w)
    ensures Pow2(w) >= 8 && And(x, Pow2(w) - 8) == x / 8 * 8
  {
    PowLarge(w);
    var z := Pow2(w - 3) - 1;
    AndDouble(x, 4 * z);
    AndDouble(x / 2, 2 * z);
    AndDouble(x / 2 / 2, z);
    assert x / 2 / 2 / 2 == x / 8;
    AndMask(x / 8, w - 3);
    assert x / 8 < Pow2(w - 3);
    SmallMod(x / 8, Pow2(w - 3));
  }

  lemma SmallMod(x: nat, m: nat)
    requires x < m
    ensures x % m == x
  {
  }

  lemma OrBit(x: nat, y: nat, a: nat, b: nat)
    requires a < 2 && b < 2
    ensures Or(2 * x + a, 2 * y + b) == 2 * Or(x, y) + if a == 1 || b == 1 then 1 else 0
  {
    assert (2 * x + a) / 2 == x && (2 * y + b) / 2 == y;
  }

  function Doubled(n: nat, x: nat): nat { if n == 0 then x else 2 * Doubled(n - 1, x) }

  /** Numbers without a bit in common are added. */
  lemma {:induction false} OrLow(n: nat, x: nat, y: nat)
    requires y < Doubled(n, 1)
    ensures Or(Doubled(n, x), y) == Doubled(n, x) + y
  {
    if n > 0 {
      OrLow(n - 1, x, y / 2);
      OrBit(Doubled(n - 1, x), y / 2, 0, y % 2);
    }
  }

  /** Setting bit n where it is clear. */
  lemma {:induction false} OrOne(n: nat, x: nat, y: nat)
    requires y < Doubled(n, 1)
    ensures Or(Doubled(n, 2 * x) + y, Doubled(n, 1)) == Doubled(n, 2 * x) + y + Doubled(n, 1)
  {
    if n > 0 {
      OrOne(n - 1, x, y / 2);
      OrBit(Doubled(n - 1, 2 * x) + y / 2, Doubled(n - 1, 1), y % 2, 0);
    } else {
      OrBit(x, 0, 0, 1);
    }
  }

  lemma Doublings(x: nat)
    ensures Doubled(3, x) == 8 * x && Doubled(4, x) == 16 * x
  {
    assert Doubled(1, x) == 2 * Doubled(0, x) && Doubled(2, x) == 2 * Doubled(1, x);
    assert Doubled(3, x) == 2 * Doubled(2, x);
  }

  /** The two disjunctions of the code. */
  lemma OrSmall(q: nat, x: nat)
    requires x < 8
    ensures Or(Or(16 * q, x), 8) == 16 * q + x + 8
  {
    Doublings(1);
    Doublings(q);
    Doublings(2 * q);
    OrLow(4, q, x);
    OrOne(3, q, x);
  }

  lemma {:induction false} ShiftIsQuotient(x: nat, k: nat)
    ensures ShiftRight(x, k) == x / Pow2(k) && ShiftRight(x, k) <= x
  {
    if k > 0 {
      ShiftIsQuotient(x / 2, k - 1);
      HalfQuotient(x, Pow2(k - 1));
    }
  }

  lemma HalfQuotient(x: nat, m: nat)
    requires m > 0
    ensures x / (2 * m) == x / 2 / m
  {
    var q, r := x / 2 / m, x / 2 % m;
    assert x / 2 == m * q + r;
    assert x == 2 * m * q + (2 * r + x % 2) by { assert 2 * (m * q) == 2 * m * q; }
    DivModUnique(x, 2 * m, q, 2 * r + x % 2);
  }

  /** A remainder by a multiple, taken again. */
  lemma ModMod(x: nat, a: nat, b: nat)
    requires a > 0 && b > 0
    ensures a * b > 0 && x % (a * b) % a == x % a
  {
    var q, r := x / (a * b), x % (a * b);
    var q', r' := r / a, r % a;
    assert a * b > 0 by { if b > 1 { MulGap(a, 0, b); } }
    assert x == a * b * q + r && r == a * q' + r';
    assert x == a * (b * q + q') + r' by { assert a * (b * q + q') == a * b * q + a * q'; }
    DivModUnique(x, a, b * q + q', r');
  }

  lemma {:induction false} PowFactor(k: nat, w: nat)
    requires k <= w
    ensures Pow2(k) > 0 && Pow2(w - k) > 0 && Pow2(w) == Pow2(k) * Pow2(w - k)
  {
    if k > 0 {
      PowFactor(k - 1, w - 1);
      assert Pow2(w) == 2 * Pow2(w - 1) && Pow2(k) == 2 * Pow2(k - 1);
      assert 2 * (Pow2(k - 1) * Pow2(w - k)) == 2 * Pow2(k - 1) * Pow2(w - k);
    }
  }

  /** Wrapping around a word does not matter to the position in the map. */
  lemma WordMod(w: nat, k: nat, x: nat)
    requires k <= w
    ensures Pow2(k) > 0 && Word(w, x) % Pow2(k) == x % Pow2(k)
  {
    PowFactor(k, w);
    ModMod(x, Pow2(k), Pow2(w - k));
  }

  lemma ModAdd(x: nat, y: nat, m: nat)
    requires m > 0
    ensures (x + y) % m == (x % m + y) % m
  {
    var q, r := x / m, (x % m + y) % m;
    var q' := (x % m + y) / m;
    assert x == m * q + x % m && x % m + y == m * q' + r;
    assert x + y == m * (q + q') + r by { assert m * (q + q') == m * q + m * q'; }
    DivModUnique(x + y, m, q + q', r);
  }

  /** The stride of the code, but for what a wide hash shifts out of the word. */
  lemma StrideShape(w: nat, r: nat)
    requires w >= 4 && r < Pow2(w)
    ensures Or(StrideWord(w, r), 8) == Word(w, r / 8 * 16) + r % 8 + 8
  {
    AndHigh(r, w);
    assert Pow2(0) == 1 && Pow2(1) == 2 && Pow2(2) == 4 && Pow2(3) == 8;
    AndMask(r, 3);
    PowFactor(4, w);
    assert Pow2(4) == 16;
    var q := r / 8 % Pow2(w - 4);
    ScaleMod(r / 8, 16, Pow2(w - 4));
    assert Word(w, 2 * And(r, Pow2(w) - 8)) == 16 * q;
    OrSmall(q, r % 8);
  }

  lemma ScaleMod(x: nat, a: nat, m: nat)
    requires a > 0 && m > 0
    ensures a * m > 0 && x * a % (a * m) == a * (x % m)
  {
    var q, r := x / m, x % m;
    assert x == m * q + r;
    assert x * a == a * m * q + a * r by { assert (m * q + r) * a == a * m * q + a * r; }
    assert a * r < a * m by { MulGap(a, r, m); }
    DivModUnique(x * a, a * m, q, a * r);
  }

  /** The jump without wrap-around, on numbers. */
  lemma JumpOnNumbers(cap: nat, h: nat, level: nat, r: nat)
    requires cap > 0 && Pow2(level) > 0 && r == h / (2 * cap) / Pow2(level)
    ensures Offset(cap, h, level + 1) ==
            (Offset(cap, h, level) + (level + 1) + (r / 8 * 16 + r % 8 + 8)) % cap
  {
    assert 8 * (level + 1) / 8 == level + 1;
    assert Stride(cap, h, level) == r / 8 * 16 + r % 8;
  }

  lemma EightProbes(n: nat)
    ensures ShiftRight(8 * n, 3) == n
  {
    assert 8 * n / 2 == 4 * n && 4 * n / 2 == 2 * n && 2 * n / 2 == n;
    assert ShiftRight(4 * n, 2) == ShiftRight(2 * n, 1) == ShiftRight(n, 0);
  }

  lemma MaskedSum(w: nat, k: nat, x: nat, r: nat)
    requires k <= w
    ensures And(Word(w, Word(w, x) + (Word(w, r / 8 * 16) + r % 8 + 8)), Pow2(k) - 1) ==
            (x + (r / 8 * 16 + r % 8 + 8)) % Pow2(k)
  {
    AndMask(Word(w, Word(w, x) + (Word(w, r / 8 * 16) + r % 8 + 8)), k);
    JumpMod(w, k, x, r);
  }

  lemma JumpOnWords(w: nat, k: nat, o: nat, h: nat, level: nat, r: nat)
    requires 3 <= k < w && h < Pow2(w) && r == ShiftRight(ShiftRight(h, k + 1), level)
    ensures Pow2(k) > 0
    ensures NextWord(w, Pow2(k), k + 1, o, h, level, 8 * (level + 1)) ==
            (o + (level + 1) + (r / 8 * 16 + r % 8 + 8)) % Pow2(k)
  {
    ShiftIsQuotient(h, k + 1);
    ShiftIsQuotient(ShiftRight(h, k + 1), level);
    StrideShape(w, r);
    EightProbes(level + 1);
    MaskedSum(w, k, o + (level + 1), r);
  }

  /** On machine words of any width, the line after a full one is where the code's word expression says. */
  lemma NextLineOnWords(w: nat, k: nat, h: nat, level: nat)
    requires 3 <= k < w && h < Pow2(w)
    ensures Pow2(k) > 0
    ensures Offset(Pow2(k), h, level + 1) ==
            NextWord(w, Pow2(k), k + 1, Offset(Pow2(k), h, level), h, level, 8 * (level + 1))
  {
    assert Pow2(k + 1) == 2 * Pow2(k);
    ShiftIsQuotient(h, k + 1);
    ShiftIsQuotient(ShiftRight(h, k + 1), level);
    var r := ShiftRight(ShiftRight(h, k + 1), level);
    JumpOnNumbers(Pow2(k), h, level, r);
    JumpOnWords(w, k, Offset(Pow2(k), h, level), h, level, r);
  }

  lemma JumpMod(w: nat, k: nat, x: nat, r: nat)
    requires k <= w
    ensures Pow2(k) > 0
    ensures Word(w, Word(w, x) + (Word(w, r / 8 * 16) + r % 8 + 8)) % Pow2(k) ==
            (x + (r / 8 * 16 + r % 8 + 8)) % Pow2(k)
  {
    var m, y, z := Pow2(k), r / 8 * 16, r % 8 + 8;
    WordMod(w, k, Word(w, x) + (Word(w, y) + z));
    WordMod(w, k, x);
    WordMod(w, k, y);
    ModAdd(Word(w, x), Word(w, y) + z, m);
    ModAdd(x, Word(w, y) + z, m);
    ModAdd(Word(w, y), z + x, m);
    ModAdd(y, z + x, m);
  }

  // ---- Lines ------------------------------------------------------------------------------------------------

  /** How far level l is from the home slot, before the remainder is taken: eight slots and one more at each
      level, and the strides. */
  function Reach(cap: nat, h: nat, l: nat): nat
    requires cap > 0
  {
    if l == 0 then 0 else Reach(cap, h, l - 1) + 8 + l + Stride(cap, h, l - 1)
  }

  lemma OffsetStep(cap: nat, h: nat, l: nat)
    requires cap > 0 && l > 0
    ensures Offset(cap, h, l) == (Offset(cap, h, l - 1) + (8 + l + Stride(cap, h, l - 1))) % cap
  {
    assert 8 * l / 8 == l;
  }

  lemma AddedOn(cap: nat, x: nat, o: nat, d: nat, o': nat)
    requires cap > 0 && o == x % cap && o' == (o + d) % cap
    ensures o' == (x + d) % cap
  {
    ModAdd(x, d, cap);
  }

  lemma {:induction false} OffsetClosed(cap: nat, h: nat, l: nat)
    requires cap > 0
    ensures Offset(cap, h, l) == (h + Reach(cap, h, l)) % cap
  {
    if l > 0 {
      OffsetClosed(cap, h, l - 1);
      OffsetStep(cap, h, l);
      var d := 8 + l + Stride(cap, h, l - 1);
      AddedOn(cap, h + Reach(cap, h, l - 1), Offset(cap, h, l - 1), d, Offset(cap, h, l));
    }
  }

  /** From level l to level m. */
  lemma OffsetLater(cap: nat, h: nat, l: nat, m: nat)
    requires cap > 0 && Reach(cap, h, l) <= Reach(cap, h, m)
    ensures Offset(cap, h, m) == (Offset(cap, h, l) + (Reach(cap, h, m) - Reach(cap, h, l))) % cap
  {
    OffsetClosed(cap, h, l);
    OffsetClosed(cap, h, m);
    ModAdd(h + Reach(cap, h, l), Reach(cap, h, m) - Reach(cap, h, l), cap);
  }

  lemma {:induction false} ReachGrows(cap: nat, h: nat, l: nat, m: nat)
    requires cap > 0 && l < m
    ensures Reach(cap, h, l) + 9 <= Reach(cap, h, m)
  {
    if l < m - 1 { ReachGrows(cap, h, l, m - 1); }
  }

  /** Moving d slots on in a map of whole lines. */
  lemma LineLater(cap: nat, lines: nat, o: nat, d: nat)
    requires cap == 8 * lines && o < cap
    ensures (o + d) % cap / 8 == o / 8 <==> (o % 8 + d) % cap < 8
  {
    var a, b := o / 8, o % 8;
    assert o == 8 * a + b && a < lines;
    ModAdd(b + d, 8 * a, cap);
    LineAfter(cap, lines, a, (b + d) % cap);
  }

  lemma LineAfter(cap: nat, lines: nat, a: nat, y: nat)
    requires cap == 8 * lines && a < lines && y < cap
    ensures (8 * a + y) % cap / 8 == a <==> y < 8
  {
    if 8 * a + y < cap {
      SmallMod(8 * a + y, cap);
    } else {
      DivModUnique(8 * a + y, cap, 1, 8 * a + y - cap);
    }
  }

  /** Levels l and m are on the same line exactly if the distance between them, from the place within the
      line, is less than a line once the whole turns are taken off. */
  lemma SameLine(k: nat, h: nat, l: nat, m: nat)
    requires k >= 3 && l <= m
    ensures Reach(Pow2(k), h, l) <= Reach(Pow2(k), h, m)
    ensures var cap := Pow2(k);
            Offset(cap, h, l) / 8 == Offset(cap, h, m) / 8 <==>
            (Offset(cap, h, l) % 8 + (Reach(cap, h, m) - Reach(cap, h, l))) % cap < 8
  {
    var cap := Pow2(k);
    if l < m { ReachGrows(cap, h, l, m); }
    var lines := EightLines(k);
    OffsetLater(cap, h, l, m);
    LineLater(cap, lines, Offset(cap, h, l), Reach(cap, h, m) - Reach(cap, h, l));
  }

  /** A hash below twice the capacity has no strides: from the home slot the levels are 9, 19, 30, ... slots on. */
  function Triangle(l: nat): nat { if l == 0 then 0 else Triangle(l - 1) + 8 + l }

  lemma {:induction false} SmallHash(cap: nat, h: nat, l: nat)
    requires cap > 0 && h < 2 * cap
    ensures Reach(cap, h, l) == Triangle(l) && Offset(cap, h, l) == (h + Triangle(l)) % cap
    ensures 2 * Triangle(l) == l * (l + 17)
  {
    OffsetClosed(cap, h, l);
    if l > 0 {
      SmallHash(cap, h, l - 1);
      NoStride(cap, h, l - 1);
      assert l * (l + 17) == (l - 1) * (l - 1 + 17) + 2 * l + 16;
    }
  }

  lemma NoStride(cap: nat, h: nat, level: nat)
    requires cap > 0 && h < 2 * cap
    ensures Stride(cap, h, level) == 0
  {
    DivModUnique(h, 2 * cap, 0, h);
    DivModUnique(0, Pow2(level), 0, 0);
  }

  /** Levels below M are on lines of their own as long as the last of them is less than a turn away. */
  ghost predicate Spreads(cap: nat, h: nat, M: nat)
    requires cap > 0
  {
    M > 0 && Reach(cap, h, M - 1) + 8 <= cap
  }

  lemma OwnLines(k: nat, h: nat, M: nat, l: nat, m: nat)
    requires k >= 3 && Spreads(Pow2(k), h, M) && l < m < M
    ensures Offset(Pow2(k), h, l) / 8 != Offset(Pow2(k), h, m) / 8
  {
    var cap := Pow2(k);
    SameLine(k, h, l, m);
    ReachGrows(cap, h, l, m);
    if m < M - 1 { ReachGrows(cap, h, m, M - 1); }
    var x := Offset(cap, h, l) % 8 + (Reach(cap, h, m) - Reach(cap, h, l));
    SmallMod(x, cap);
  }

  lemma CursorLine(o: nat, i: nat)
    ensures Cursor(o, i) / 8 == o / 8
  {
    DivModUnique(Cursor(o, i), 8, o / 8, (i + o) % 8);
  }

  lemma RemaindersDiffer(x: nat, y: nat)
    requires x < y < x + 8
    ensures x % 8 != y % 8
  {
    assert x == 8 * (x / 8) + x % 8 && y == 8 * (y / 8) + y % 8;
  }

  lemma CursorsDiffer(o: nat, i: nat, j: nat)
    requires i < j < 8
    ensures Cursor(o, i) != Cursor(o, j)
  {
    RemaindersDiffer(i + o, j + o);
  }

  lemma SlotsApart(k: nat, h: nat, M: nat, l: nat, i: nat, m: nat, j: nat)
    requires k >= 3 && Spreads(Pow2(k), h, M) && i < 8 && j < 8 && m < M && (l < m || (l == m && i < j))
    ensures Cursor(Offset(Pow2(k), h, l), i) != Cursor(Offset(Pow2(k), h, m), j)
  {
    if l < m {
      OwnLines(k, h, M, l, m);
      CursorLine(Offset(Pow2(k), h, l), i);
      CursorLine(Offset(Pow2(k), h, m), j);
    } else {
      CursorsDiffer(Offset(Pow2(k), h, l), i, j);
    }
  }

  /** The first 8 * M probes meet slots that are all different. */
  lemma SlotsDistinct(k: nat, h: nat, M: nat, p: nat, q: nat)
    requires k >= 3 && Spreads(Pow2(k), h, M) && 1 <= p < q <= 8 * M
    ensures Slot(Pow2(k), h, p) != Slot(Pow2(k), h, q)
  {
    SlotsApart(k, h, M, (p - 1) / 8, (p - 1) % 8, (q - 1) / 8, (q - 1) % 8);
  }

  // ---- Room for insertions ------------------------------------------------------------------------------------

  /** The slots of the first n probes. */
  ghost function SlotsTo(S: Probes, key: int, n: nat): set<nat> {
    if n == 0 then {} else SlotsTo(S, key, n - 1) + {S.at(key, n)}
  }

  lemma {:induction false} ManySlots(k: nat, hf: int -> nat, S: Probes, key: int, M: nat, n: nat)
    requires k >= 3 && Tracks(S, hf, Pow2(k)) && Spreads(Pow2(k), hf(key), M) && n <= 8 * M
    ensures |SlotsTo(S, key, n)| == n
    ensures forall s :: s in SlotsTo(S, key, n) ==> exists p: nat :: 1 <= p <= n && s == S.at(key, p)
  {
    if n > 0 {
      ManySlots(k, hf, S, key, M, n - 1);
      forall p: nat | 1 <= p < n ensures S.at(key, p) != S.at(key, n) {
        SlotsDistinct(k, hf(key), M, p, n);
        assert S.at(key, p) == Slot(Pow2(k), hf(key), p) && S.at(key, n) == Slot(Pow2(k), hf(key), n);
      }
    }
  }

  /** Distinct full slots hold distinct keys. */
  lemma {:induction false} FullSlots(v: View, key: int, n: nat) returns (K: set<int>)
    requires Good(v) && v.dup.NoDup? && !HasRoomWithin(v.S, v.m, key, n)
    ensures K <= v.D.Keys && |K| == |SlotsTo(v.S, key, n)|
    ensures forall k :: k in K ==> v.S.at(k, v.D[k]) in SlotsTo(v.S, key, n)
  {
    if n == 0 {
      K := {};
    } else {
      var s := v.S.at(key, n);
      K := FullSlots(v, key, n - 1);
      if s !in SlotsTo(v.S, key, n - 1) {
        assert Known(v, s);
        K := K + {v.m.entries[s].item.key};
      } else {
        assert SlotsTo(v.S, key, n) == SlotsTo(v.S, key, n - 1);
      }
    }
  }

  /** More different slots among the first n probes than keys in the set: one of them is free. */
  lemma RoomWhenFew(v: View, key: int, n: nat)
    requires Good(v) && v.dup.NoDup? && |v.D| < |SlotsTo(v.S, key, n)|
    ensures HasRoomWithin(v.S, v.m, key, n)
  {
    if !HasRoomWithin(v.S, v.m, key, n) {
      var K := FullSlots(v, key, n);
      SubsetSize(K, v.D.Keys);
    }
  }

  /** A key whose first M lines are all different finds room among them while there are fewer than 8 * M keys. */
  lemma RoomInLines(v: View, hf: int -> nat, k: nat, key: int, M: nat)
    requires Good(v) && v.dup.NoDup? && k >= 3 && |v.m.entries| == Pow2(k) && Tracks(v.S, hf, Pow2(k))
    requires Spreads(Pow2(k), hf(key), M) && |v.D| < 8 * M
    ensures HasRoomWithin(v.S, v.m, key, 8 * M)
  {
    ManySlots(k, hf, v.S, key, M, 8 * M);
    RoomWhenFew(v, key, 8 * M);
  }

  /** With at least 128 slots, a hash below twice the capacity has its first eight lines to itself. */
  lemma EightLinesSpread(k: nat, h: nat)
    requires k >= 7 && h < 2 * Pow2(k)
    ensures Spreads(Pow2(k), h, 8)
  {
    SmallHash(Pow2(k), h, 7);
    PowGrows(7, k);
    assert Pow2(7) == 2 * Pow2(6) && Pow2(6) == 2 * Pow2(5) && Pow2(5) == 2 * Pow2(4) && Pow2(4) == 2 * Pow2(3);
    assert Pow2(0) == 1 && Pow2(1) == 2 && Pow2(2) == 4 && Pow2(3) == 8;
  }
}
