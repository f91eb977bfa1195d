/**
 The integer helpers of ck_internal.h on 32-bit words, and what they mean for natural numbers.
 */
module Internal {

  /** A stored object: `key` is what hash and comparison see. */
  datatype Item = Item(key: int, tag: int)

  type Items = map<int, Item>

  function Pow2(k: nat): (r: nat)
    ensures r > 0
  {
    if k == 0 then 1 else 2 * Pow2(k - 1)
  }

  /** The natural number a word stands for. */
  function Value(v: bv32): nat {
    if v == 0 then 0 else 2 * Value(v >> 1) + (if v & 1 == 1 then 1 else 0)
  }

  /** Rounds up to a power of two by smearing the top bit of v - 1 downwards. */
  function Power2(v: bv32): bv32 {
    var v := v - 1;
    var v := v | (v >> 1);
    var v := v | (v >> 2);
    var v := v | (v >> 4);
    var v := v | (v >> 8);
    var v := v | (v >> 16);
    v + 1
  }

  /** Binary logarithm of a power of two. */
  function Log(v: bv32): bv32 {
    (if v & 0xAAAAAAAA != 0 then 1 else 0) |
    (if v & 0xFFFF0000 != 0 then 16 else 0) |
    (if v & 0xFF00FF00 != 0 then 8 else 0) |
    (if v & 0xF0F0F0F0 != 0 then 4 else 0) |
    (if v & 0xCCCCCCCC != 0 then 2 else 0)
  }

  /** The word w has no bits from k on, and has bit k - 1. */
  predicate LeastShift(w: bv32, k: bv32) { k < 32 && w >> k == 0 && (k == 0 || w >> (k - 1) != 0) }

  lemma {:induction false} PowerInRange(v: bv32)
    requires 1 <= v <= 0x8000_0000
    ensures LeastShift(v - 1, Log(Power2(v)))
  {
  }

  /** The logarithm of the power of two is the least shift that clears v - 1, exactly from 1 to 2^31. */
  lemma {:induction false} PowerAndLog(v: bv32)
    ensures LeastShift(v - 1, Log(Power2(v))) <==> 1 <= v <= 0x8000_0000
  {
    if 1 <= v <= 0x8000_0000 { PowerInRange(v); } else { PowerWraps(v); }
  }

  /** Beyond 2^31 the power of two wraps around. */
  lemma {:induction false} PowerWraps(v: bv32)
    requires v == 0 || v > 0x8000_0000
    ensures Power2(v) == 0 && Log(Power2(v)) == 0
  {
  }

  /** A word without bits from k on is below 2^k, and one with such bits is not. */
  lemma {:induction false} ValueBound(w: bv32, k: bv32)
    requires k < 32
    ensures w >> k == 0 <==> Value(w) < Pow2(Value(k))
    decreases Value(k)
  {
    if k == 0 {
      ValueHalf(w);
      if w != 0 { ValuePositive(w); }
    } else {
      DropBit(w, k);
      PrevValue(k);
      ValueBound(w >> 1, k - 1);
      ValueHalf(w);
    }
  }

  lemma {:induction false} ValuePositive(w: bv32)
    requires w != 0
    ensures Value(w) > 0
    decreases w
  {
    if w & 1 != 1 {
      assert w >> 1 != 0;
      ValuePositive(w >> 1);
    }
  }

  lemma {:induction false} DropBit(w: bv32, k: bv32)
    requires 0 < k < 32
    ensures w >> k == (w >> 1) >> (k - 1)
  {
  }

  lemma {:induction false} PrevValue(k: bv32)
    requires 0 < k < 32
    ensures k - 1 < 32 && Value(k) == Value(k - 1) + 1
  {
    ValueStep(k - 1);
  }

  lemma {:induction false} Increment(k: bv32)
    requires k != 0xFFFF_FFFF
    ensures k & 1 != 1 ==> (k + 1) >> 1 == k >> 1 && (k + 1) & 1 == 1
    ensures k & 1 == 1 ==> (k + 1) >> 1 == (k >> 1) + 1 && (k + 1) & 1 == 0
    ensures k >> 1 != 0xFFFF_FFFF
  {
  }

  /** Adding one to a word that does not wrap. */
  lemma {:induction false} ValueStep(k: bv32)
    requires k != 0xFFFF_FFFF
    ensures Value(k + 1) == Value(k) + 1
    decreases Value(k)
  {
    Increment(k);
    ValueHalf(k);
    ValueHalf(k + 1);
    if k & 1 == 1 { ValueStep(k >> 1); }
  }

  /** k is the least number of rounds in which n threads can be halved to one. */
  ghost predicate LeastRounds(n: nat, k: nat) { n <= Pow2(k) && (k == 0 || Pow2(k - 1) < n) }

  /** The rounds computed for a barrier of v threads are the least k with 2^k at least v, exactly as long
      as v is at most 2^31; for more threads they are none. */
  lemma {:induction false} RoundsCover(v: bv32)
    ensures LeastRounds(Value(v), Value(Log(Power2(v)))) <==> v <= 0x8000_0000
    ensures v > 0x8000_0000 ==> Value(Log(Power2(v))) == 0
  {
    if 1 <= v <= 0x8000_0000 {
      RoundsLeast(v);
    } else {
      PowerWraps(v);
      if v == 0 { assert Value(v) == 0; } else { AboveOne(v); }
    }
  }

  lemma {:induction false} RoundsLeast(v: bv32)
    requires 1 <= v <= 0x8000_0000
    ensures LeastRounds(Value(v), Value(Log(Power2(v))))
  {
    PowerAndLog(v);
    ValueOfPrev(v);
    LeastCover(v - 1, Log(Power2(v)));
  }

  lemma {:induction false} AboveOne(v: bv32)
    requires v >= 2
    ensures Value(v) >= 2
  {
    ValueHalf(v);
    assert v >> 1 != 0;
    ValuePositive(v >> 1);
  }

  lemma {:induction false} LeastCover(w: bv32, k: bv32)
    requires LeastShift(w, k)
    ensures Value(w) < Pow2(Value(k)) && (Value(k) == 0 || Pow2(Value(k) - 1) <= Value(w))
  {
    ValueBound(w, k);
    if k != 0 {
      PrevValue(k);
      ValueBound(w, k - 1);
    }
  }

  lemma {:induction false} ValueOfPrev(v: bv32)
    requires v != 0
    ensures Value(v) == Value(v - 1) + 1
  {
    assert v - 1 != 0xFFFF_FFFF && (v - 1) + 1 == v;
    ValueStep(v - 1);
  }

  lemma {:induction false} ValueHalf(x: bv32)
    ensures Value(x) == 2 * Value(x >> 1) + (if x & 1 == 1 then 1 else 0)
  {
    if x == 0 { assert x >> 1 == 0; }
  }

  lemma HalfRemainder(i: nat, p: nat)
    requires p > 0
    ensures i % (2 * p) == 2 * ((i / 2) % p) + i % 2
  {
    var q, r := (i / 2) / p, (i / 2) % p;
    assert i / 2 == p * q + r;
    assert i == 2 * (i / 2) + i % 2;
    assert 2 * (p * q) == 2 * p * q;
    DivModUnique(i, 2 * p, q, 2 * r + i % 2);
  }

  /** The bits set in both numbers. */
  function And(x: nat, y: nat): nat {
    if x == 0 then 0 else 2 * And(x / 2, y / 2) + (if x % 2 == 1 && y % 2 == 1 then 1 else 0)
  }

  /** A number has no bit in common with its predecessor only if it is a power of two, and then masking
      with the predecessor takes the remainder. */
  lemma {:induction false} MaskIsRemainder(n: nat, x: nat)
    requires n > 0 && And(n, n - 1) == 0
    ensures And(x, n - 1) == x % n
    decreases n
  {
    if n == 1 {
      AndZero(x);
    } else {
      var m := n / 2;
      EvenPower(n, m);
      MaskIsRemainder(m, x / 2);
      HalfRemainder(x, m);
      AndOdd(x, m - 1);
    }
  }

  lemma {:induction false} EvenPower(n: nat, m: nat)
    requires n > 1 && m == n / 2 && And(n, n - 1) == 0
    ensures n == 2 * m && And(m, m - 1) == 0
  {
    if n == 2 * m + 1 { AndSelf(m); }
  }

  lemma {:induction false} AndOdd(x: nat, y: nat)
    ensures And(x, 2 * y + 1) == 2 * And(x / 2, y) + x % 2
  {
  }

  lemma {:induction false} AndSelf(m: nat)
    ensures And(m, m) == m
  {
    if m > 0 { AndSelf(m / 2); }
  }

  lemma {:induction false} AndZero(x: nat)
    ensures And(x, 0) == 0
  {
    if x > 0 { AndZero(x / 2); }
  }

  lemma MulGap(d: nat, a: int, b: int)
    requires a < b
    ensures d * a + d <= d * b
  {
    var e := b - a - 1;
    assert d * e >= 0;
    assert d * (a + 1 + e) == d * a + d + d * e;
  }

  lemma DivModUnique(x: int, d: nat, q: int, r: nat)
    requires d > 0 && r < d && x == d * q + r
    ensures x / d == q && x % d == r
  {
    var q', r' := x / d, x % d;
    assert x == d * q' + r';
    if q' > q { MulGap(d, q, q'); } else if q' < q { MulGap(d, q', q); }
  }

  // ---- Capacities of hash sets -----------------------------------------------------------------

  /** How many probes an insertion may take before the map grows. */
  function ProbeLimit(cap: nat): nat { if cap / 32 > 64 then cap / 32 else 64 }

  /** Capacities are powers of two of at least eight slots. */
  ghost predicate Capacity(cap: nat) { exists k: nat :: k >= 3 && cap == Pow2(k) }

  /** The capacity of a map for so many entries: the least power of two that is large enough. */
  method MapSize(entries: nat) returns (cap: nat)
    ensures LeastCapacity(entries, cap)
  {
    ghost var k := 3;
    cap := 8;
    assert Pow2(0) == 1 && Pow2(1) == 2 && Pow2(2) == 4 && Pow2(3) == 8;
    Least(entries, 3);
    while cap < entries
      invariant k >= 3 && cap == Pow2(k) && forall c: nat :: Capacity(c) && c >= entries ==> cap <= c
    {
      k := k + 1;
      cap := 2 * cap;
      Least(entries, k);
    }
  }

  /** The smeared word is a single bit. */
  lemma {:induction false} PowerShape(v: bv32)
    requires 1 <= v <= 0x8000_0000
    ensures Log(Power2(v)) < 32 && Power2(v) == 1 << Log(Power2(v))
  {
  }

  lemma {:induction false} ValueOfBit(k: bv32)
    requires k < 32
    ensures Value(1 << k) == Pow2(Value(k))
    decreases Value(k)
  {
    var b: bv32 := 1 << k;
    if k == 0 {
      assert b == 1 && b >> 1 == 0;
      ValueHalf(b);
    } else {
      PrevValue(k);
      BitHalf(k);
      ValueOfBit(k - 1);
      ValueHalf(b);
    }
  }

  lemma {:induction false} BitHalf(k: bv32)
    requires 0 < k < 32
    ensures (1 as bv32 << k) >> 1 == 1 << (k - 1) && (1 as bv32 << k) & 1 != 1
  {
  }

  /** A capacity that Pow2(k - 1) does not reach is at least Pow2(k). */
  lemma Least(entries: nat, k: nat)
    requires k >= 3 && (k == 3 || Pow2(k - 1) < entries)
    ensures forall c: nat :: Capacity(c) && c >= entries ==> Pow2(k) <= c
  {
    forall c: nat | Capacity(c) && c >= entries ensures Pow2(k) <= c {
      var m: nat :| m >= 3 && c == Pow2(m);
      if m < k { PowGrows(m, k - 1); } else { PowGrows(k, m); }
    }
  }

  /** The least capacity for n entries. */
  ghost predicate LeastCapacity(n: nat, cap: nat) {
    Capacity(cap) && cap >= n && forall c: nat :: Capacity(c) && c >= n ==> cap <= c
  }

  lemma CapacityOf(n: nat, k: nat, cap: nat)
    requires LeastRounds(n, k) && LeastCapacity(n, cap)
    ensures cap == if Pow2(k) < 8 then 8 else Pow2(k)
  {
    assert Pow2(0) == 1 && Pow2(1) == 2 && Pow2(2) == 4 && Pow2(3) == 8;
    var m := if k < 3 then 3 else k;
    Least(n, m);
    if k <= 3 { PowGrows(k, 3); } else { PowGrows(3, k); }
    if k < 3 { PowGrows(k, 2); }
    assert Capacity(Pow2(m));
  }

  /** The capacity that the code computes for v entries: rounded up and raised to eight. */
  function WordSize(v: bv32): nat {
    if Value(Power2(v)) < 8 then 8 else Value(Power2(v))
  }

  lemma SizeInRange(v: bv32, cap: nat)
    requires 1 <= v <= 0x8000_0000 && LeastCapacity(Value(v), cap)
    ensures cap == WordSize(v)
  {
    RoundsCover(v);
    PowerShape(v);
    ValueOfBit(Log(Power2(v)));
    CapacityOf(Value(v), Value(Log(Power2(v))), cap);
  }

  lemma SizeOutside(v: bv32, cap: nat)
    requires v > 0x8000_0000 && LeastCapacity(Value(v), cap)
    ensures cap != WordSize(v)
  {
    PowerWraps(v);
    ValueBound(v, 4);
    assert Value(4) == 4;
    assert Pow2(4) == 16;
  }

  /** The least capacity for v entries is what the code computes if and only if v is at most 2^31. */
  lemma SizeIsPower(v: bv32, cap: nat)
    requires LeastCapacity(Value(v), cap)
    ensures cap == WordSize(v) <==> v <= 0x8000_0000
  {
    if v == 0 {
      PowerWraps(v);
      CapacityOf(0, 0, cap);
    } else if v <= 0x8000_0000 {
      SizeInRange(v, cap);
    } else {
      SizeOutside(v, cap);
    }
  }

  lemma SubsetSize<T>(a: set<T>, b: set<T>)
    requires a <= b
    ensures |a| <= |b| && (|a| == |b| ==> a == b)
  {
    assert b == a + (b - a);
    assert |b| == |a| + |b - a|;
  }

  lemma {:induction false} PowGrows(i: nat, j: nat)
    requires i <= j
    ensures Pow2(i) <= Pow2(j)
  {
    if i < j { PowGrows(i, j - 1); }
  }

  lemma SameMap<T>(m: map<int, T>, m': map<int, T>)
    requires forall k :: k in m <==> k in m'
    requires forall k :: k in m ==> m[k] == m'[k]
    ensures m == m'
  {
    forall k ensures k in m.Keys <==> k in m'.Keys {}
    assert m.Keys == m'.Keys;
    forall k | k in m.Keys ensures m[k] == m'[k] {}
    assert m == m';
  }
}
