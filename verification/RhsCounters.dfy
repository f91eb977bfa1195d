/** The loops that maintain the per-slot counters. */
module RhsCounters {
  import opened RhsLayout

  /** Count one more key past the slots from `oldSlot`, or from the home if that is -1, up to but
      not including `end`. Slot `oldSlot` is probe i and slot `end` probe j. */
  method AddWanted(ghost S: Space, hf: int -> nat, a: array<Desc>, end: nat, oldSlot: int, h: nat,
                   ghost i: nat, ghost j: nat)
    requires Tracks(S, hf, a.Length) && h < a.Length && 1 <= i <= j <= a.Length
    requires S.slot(h, j) == end
    requires if oldSlot == -1 then i == 1 else oldSlot == S.slot(h, i)
    modifies a
    ensures Raised(S, old(a[..]), a[..], h, i, j)
  {
    var offset := h;
    var probes := 1;
    var found := oldSlot == -1;
    while offset != end
      invariant 1 <= probes <= j && offset == S.slot(h, probes)
      invariant found <==> oldSlot == -1 || probes > i
      invariant Raised(S, old(a[..]), a[..], h, i, if probes <= i then i else probes)
      decreases j - probes
    {
      ghost var before := a[..];
      if offset == oldSlot {
        found := true;
      }
      if found {
        a[offset] := a[offset].(wanted := a[offset].wanted + 1);
        RaiseOne(S, old(a[..]), before, a[..], h, i, probes);
      }
      offset := ProbeNext(S, hf, a.Length, offset, probes, h);
      probes := probes + 1;
    }
  }

  lemma BetweenUp(S: Space, h: nat, i: nat, p: nat, s: nat)
    requires Fair(S) && h < S.cap && 1 <= i <= p <= S.cap
    ensures Between(S, h, i, p + 1, s) <==> Between(S, h, i, p, s) || s == S.slot(h, p)
    ensures !Between(S, h, i, p, S.slot(h, p))
  {
    if Between(S, h, i, p + 1, s) && s != S.slot(h, p) {
      var m :| i <= m < p + 1 && S.slot(h, m) == s;
      assert m < p;
    }
  }

  lemma RaiseOne(S: Space, ds: seq<Desc>, ds1: seq<Desc>, ds2: seq<Desc>, h: nat, i: nat, p: nat)
    requires Fair(S) && |ds| == S.cap && h < S.cap && 1 <= i <= p <= S.cap
    requires Raised(S, ds, ds1, h, i, p)
    requires var o := S.slot(h, p); ds2 == ds1[o := ds1[o].(wanted := ds1[o].wanted + 1)]
    ensures Raised(S, ds, ds2, h, i, p + 1)
  {
    forall s | 0 <= s < |ds|
      ensures ds2[s] ==
              ds[s].(wanted := ds[s].wanted + (if Between(S, h, i, p + 1, s) then 1 else 0))
    {
      BetweenUp(S, h, i, p, s);
    }
  }

  ghost predicate AllWanted(S: Space, ds: seq<Desc>, h: nat, i: nat, p: nat) {
    forall m :: i <= m < p ==> S.slot(h, m) < |ds| && ds[S.slot(h, m)].wanted > 0
  }

  /** Stop counting the key at slot `start`, which is probe p from home, on the slots before it,
      back to but not including slot `limit`, or to the home if that is -1. Slot `limit` is probe
      i - 1. */
  method RemoveWanted(ghost S: Space, hf: int -> nat, a: array<Desc>, start: nat, limit: int,
                      ghost home: nat, ghost i: nat)
    returns (h: nat)
    requires Tracks(S, hf, a.Length) && start < a.Length && 1 <= i <= a[start].probes <= a.Length
    requires home < a.Length && S.slot(home, a[start].probes) == start
    requires if limit == -1 then i == 1 else i > 1 && limit == S.slot(home, i - 1)
    requires AllWanted(S, a[..], home, i, a[start].probes)
    modifies a
    ensures h == home
    ensures Raised(S, a[..], old(a[..]), home, i, old(a[start].probes))
  {
    ghost var p := a[start].probes;
    var offset := start;
    var probes := a[start].probes;
    var remove := true;
    while probes > 1
      invariant 1 <= probes <= p && offset == S.slot(home, probes)
      invariant remove <==> probes >= i
      invariant Raised(S, a[..], old(a[..]), home, if probes <= i then i else probes, p)
    {
      probes := probes - 1;
      offset := ProbePrev(S, hf, a.Length, offset, probes, home);
      ghost var before := a[..];
      if offset == limit {
        remove := false;
      }
      if remove {
        StillCounted(S, old(a[..]), before, home, i, probes, p);
        a[offset] := a[offset].(wanted := a[offset].wanted - 1);
        LowerOne(S, old(a[..]), before, a[..], home, probes, p);
      }
    }
    h := offset;
  }

  lemma BetweenDown(S: Space, h: nat, q: nat, p: nat, s: nat)
    requires Fair(S) && h < S.cap && 1 <= q < p <= S.cap
    ensures Between(S, h, q, p, s) <==> Between(S, h, q + 1, p, s) || s == S.slot(h, q)
    ensures !Between(S, h, q + 1, p, S.slot(h, q))
  {
    if Between(S, h, q, p, s) && s != S.slot(h, q) {
      var m :| q <= m < p && S.slot(h, m) == s;
      assert q + 1 <= m;
    }
  }

  /** A slot not yet lowered still has its count. */
  lemma StillCounted(S: Space, ds: seq<Desc>, ds1: seq<Desc>, h: nat, i: nat, q: nat, p: nat)
    requires Fair(S) && |ds1| == |ds| == S.cap && h < S.cap && 1 <= i <= q < p <= S.cap
    requires Raised(S, ds1, ds, h, q + 1, p) && AllWanted(S, ds, h, i, p)
    ensures ds1[S.slot(h, q)].wanted > 0
  {
    BetweenDown(S, h, q, p, 0);
  }

  lemma LowerOne(S: Space, ds: seq<Desc>, ds1: seq<Desc>, ds2: seq<Desc>, h: nat, q: nat, p: nat)
    requires Fair(S) && |ds1| == |ds| == S.cap && h < S.cap && 1 <= q < p <= S.cap
    requires Raised(S, ds1, ds, h, q + 1, p)
    requires var o := S.slot(h, q);
             ds1[o].wanted > 0 && ds2 == ds1[o := ds1[o].(wanted := ds1[o].wanted - 1)]
    ensures Raised(S, ds2, ds, h, q, p)
  {
    forall s | 0 <= s < |ds|
      ensures ds[s] ==
              ds2[s].(wanted := ds2[s].wanted + (if Between(S, h, q, p, s) then 1 else 0))
    {
      BetweenDown(S, h, q, p, s);
    }
  }

  // ---- All counters together ---------------------------------------------------------------------

  ghost function SumWanted(ds: seq<Desc>): nat {
    if ds == [] then 0 else SumWanted(ds[..|ds| - 1]) + ds[|ds| - 1].wanted
  }

  lemma {:induction false} SumLess(ds: seq<Desc>, ds': seq<Desc>)
    requires |ds'| == |ds| && forall s :: 0 <= s < |ds| ==> ds'[s].wanted <= ds[s].wanted
    ensures SumWanted(ds') <= SumWanted(ds)
    ensures (exists z :: 0 <= z < |ds| && ds'[z].wanted < ds[z].wanted) ==> SumWanted(ds') < SumWanted(ds)
  {
    if ds != [] {
      SumLess(ds[..|ds| - 1], ds'[..|ds| - 1]);
      if z :| 0 <= z < |ds| && ds'[z].wanted < ds[z].wanted {
        if z < |ds| - 1 { assert ds'[..|ds| - 1][z].wanted < ds[..|ds| - 1][z].wanted; }
      }
    }
  }

  lemma {:induction false} SumBound(ds: seq<Desc>, n: nat)
    requires forall s :: 0 <= s < |ds| ==> ds[s].wanted <= n
    ensures SumWanted(ds) <= |ds| * n
  {
    if ds != [] {
      SumBound(ds[..|ds| - 1], n);
      assert |ds| * n == (|ds| - 1) * n + n;
    }
  }
}
