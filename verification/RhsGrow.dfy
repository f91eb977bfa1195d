/** Rebuilding a map in a larger array. */
module RhsGrow {
  import opened Internal
  import opened RhsProbe
  import opened RhsLayout
  import opened RhsCounters
  import opened RhsSearch
  import opened RhsDisplace
  import opened RhsDelete

  /** An entry that is not stored is carried along its sequence to probe p, past full slots on which
      it is counted. */
  ghost predicate Carry(S: Space, ds: seq<Desc>, G: Layout, max: nat, c: Item, p: nat) {
    Behind(S, ds, G, max, c, p) && Wanted(S, ds, G[c.key := Spot(c, p)])
  }

  ghost predicate Behind(S: Space, ds: seq<Desc>, G: Layout, max: nat, c: Item, p: nat) {
    && c.key !in G && 1 <= p <= S.cap
    && Struct(S, ds, G, -1) && Indexed(S, ds, G, {}) && Bounded(S, ds, G, max) && FullTo(S, ds, c.key, p - 1)
  }

  /** ds' has the carried entry stored in slot s at probe p; bounds may have been raised to max. */
  ghost predicate Stored(ds: seq<Desc>, ds': seq<Desc>, s: nat, c: Item, p: nat, max: nat) {
    && s < |ds| && Marked(ds[s := ds[s].(entry := Full(c))], ds', s, p, max)
  }

  lemma StoredFrame(S: Space, ds: seq<Desc>, ds': seq<Desc>, G: Layout, s: nat, c: Item, p: nat, max': nat)
    requires s < |ds| && Struct(S, Put(ds, s, c, p), G, -1) && Indexed(S, Put(ds, s, c, p), G, {})
    requires Stored(ds, ds', s, c, p, max')
    ensures Struct(S, ds', G, -1) && Indexed(S, ds', G, {})
  {
    StructFrame(S, Put(ds, s, c, p), ds', G, -1);
    IndexedFrame(S, Put(ds, s, c, p), ds', G);
  }

  lemma StoredBounded(S: Space, ds: seq<Desc>, ds': seq<Desc>, G: Layout, max: nat, max': nat, s: nat, c: Item, p: nat)
    requires Fair(S) && Bounded(S, ds, G, max) && Stored(ds, ds', s, c, p, max') && max <= max' <= S.cap
    requires p <= max' && S.home(c.key) < |ds| && Within(ds'[S.home(c.key)], p)
    ensures Bounded(S, ds', G[c.key := Spot(c, p)], max')
  {
  }

  lemma PlaceStruct(S: Space, ds: seq<Desc>, ds': seq<Desc>, G: Layout, max: nat, max': nat, c: Item, p: nat)
    requires Behind(S, ds, G, max, c, p) && max <= max' <= S.cap && p <= max'
    requires var s := At(S, c.key, p); ds[s].entry.Empty? && Stored(ds, ds', s, c, p, max')
    requires Within(ds'[S.home(c.key)], p)
    ensures var G' := G[c.key := Spot(c, p)];
            Struct(S, ds', G', -1) && Indexed(S, ds', G', {}) && Bounded(S, ds', G', max')
  {
    var s := At(S, c.key, p);
    MoveStruct(S, ds, G, -1, c, p);
    MoveIndexed(S, ds, G, -1, {}, c, p);
    StoredFrame(S, ds, ds', G[c.key := Spot(c, p)], s, c, p, max');
    StoredBounded(S, ds, ds', G, max, max', s, c, p);
  }

  /** The carried entry is stored in an empty slot. */
  lemma Place(S: Space, ds: seq<Desc>, ds': seq<Desc>, G: Layout, max: nat, max': nat, c: Item, p: nat)
    requires Carry(S, ds, G, max, c, p) && max <= max' <= S.cap && p <= max'
    requires var s := At(S, c.key, p); ds[s].entry.Empty? && Stored(ds, ds', s, c, p, max')
    requires Within(ds'[S.home(c.key)], p)
    ensures Good(S, ds', G[c.key := Spot(c, p)], max')
  {
    PlaceStruct(S, ds, ds', G, max, max', c, p);
  }

  lemma TakeOutIndexed(S: Space, ds: seq<Desc>, G: Layout, k: int, max: nat)
    requires Indexed(S, ds, G, {}) && Bounded(S, ds, G, max)
    ensures Indexed(S, ds, G - {k}, {}) && Bounded(S, ds, G - {k}, max)
  {
  }

  lemma SwapStruct(S: Space, ds: seq<Desc>, G: Layout, max: nat, c: Item, p: nat, d: int)
    requires Struct(S, ds, G, -1) && Indexed(S, ds, G, {}) && Bounded(S, ds, G, max)
    requires 1 <= p <= S.cap && FullTo(S, ds, c.key, p - 1)
    requires c.key !in G && d in G && At(S, d, G[d].idx) == At(S, c.key, p)
    ensures var ds1, G1 := Put(ds, At(S, c.key, p), c, p), (G - {d})[c.key := Spot(c, p)];
            Struct(S, ds1, G1, -1) && Indexed(S, ds1, G1, {})
    ensures Bounded(S, ds, G - {d}, max)
  {
    TakeOutStruct(S, ds, G, d);
    TakeOutIndexed(S, ds, G, d, max);
    MoveStruct(S, ds, G - {d}, At(S, c.key, p), c, p);
    MoveIndexed(S, ds, G - {d}, At(S, c.key, p), {}, c, p);
  }

  lemma SwapBehind(S: Space, ds: seq<Desc>, ds': seq<Desc>, G: Layout, max: nat, max': nat, c: Item, p: nat, d: Item)
    requires Behind(S, ds, G, max, c, p) && max <= max' <= S.cap && p <= max'
    requires d.key in G && G[d.key].item == d && G[d.key].idx >= 1 && At(S, d.key, G[d.key].idx) == At(S, c.key, p)
    requires FullTo(S, ds, d.key, G[d.key].idx) && G[d.key].idx <= S.cap
    requires Stored(ds, ds', At(S, c.key, p), c, p, max') && Within(ds'[S.home(c.key)], p)
    ensures Behind(S, ds', (G - {d.key})[c.key := Spot(c, p)], max', d, G[d.key].idx)
  {
    var s := At(S, c.key, p);
    SwapStruct(S, ds, G, max, c, p, d.key);
    StoredFrame(S, ds, ds', (G - {d.key})[c.key := Spot(c, p)], s, c, p, max');
    StoredBounded(S, ds, ds', G - {d.key}, max, max', s, c, p);
    StoredFull(S, ds, ds', s, c, p, max', d.key, G[d.key].idx);
  }

  lemma Occupant(S: Space, ds: seq<Desc>, G: Layout, s: nat)
    requires Struct(S, ds, G, -1) && Indexed(S, ds, G, {}) && s < |ds| && ds[s].entry.Full?
    ensures var d := ds[s].entry.item;
            && d.key in G && G[d.key] == Spot(d, ds[s].probes) && At(S, d.key, ds[s].probes) == s
            && 1 <= ds[s].probes <= S.cap && FullTo(S, ds, d.key, ds[s].probes)
  {
    var k := ds[s].entry.item.key;
    assert HeldAt(S, ds, G, s);
    assert PlacedAt(S, ds, k, G[k]);
  }

  /** The carried entry takes the slot of one closer to its home, which is carried on from there. */
  lemma Swap(S: Space, ds: seq<Desc>, ds': seq<Desc>, G: Layout, max: nat, max': nat, c: Item, p: nat, d: Item)
    requires Carry(S, ds, G, max, c, p) && max <= max' <= S.cap && p <= max'
    requires var s := At(S, c.key, p); ds[s].entry == Full(d) && Stored(ds, ds', s, c, p, max')
    requires Within(ds'[S.home(c.key)], p)
    ensures var s := At(S, c.key, p);
            && ds[s].probes >= 1 && d.key in G && G[d.key].item == d && At(S, d.key, ds[s].probes) == s
            && Carry(S, ds', (G - {d.key})[c.key := Spot(c, p)], max', d, ds[s].probes)
  {
    var s := At(S, c.key, p);
    Occupant(S, ds, G, s);
    SwapBehind(S, ds, ds', G, max, max', c, p, d);
    SwapLayout(G, c, p, d);
  }

  lemma SwapLayout(G: Layout, c: Item, p: nat, d: Item)
    requires c.key !in G && d.key in G && G[d.key].item == d
    ensures (G - {d.key})[c.key := Spot(c, p)][d.key := Spot(d, G[d.key].idx)] == G[c.key := Spot(c, p)]
  {
  }

  lemma StoredFull(S: Space, ds: seq<Desc>, ds': seq<Desc>, s: nat, c: Item, p: nat, max': nat, k: int, n: nat)
    requires Stored(ds, ds', s, c, p, max') && FullTo(S, ds, k, n)
    ensures FullTo(S, ds', k, n)
  {
    forall j | 1 <= j <= n ensures IsFull(ds', At(S, k, j)) {
      assert IsFull(ds, At(S, k, j));
    }
  }

  lemma PassCount(S: Space, ds: seq<Desc>, ds': seq<Desc>, G: Layout, c: Item, p: nat)
    requires Fair(S) && |ds| == S.cap && 1 <= p < S.cap && Wanted(S, ds, G[c.key := Spot(c, p)])
    requires var s := At(S, c.key, p); ds' == ds[s := ds[s].(wanted := ds[s].wanted + 1)]
    ensures Wanted(S, ds', G[c.key := Spot(c, p + 1)])
  {
    var M := G[c.key := Spot(c, p)];
    RaiseOne(S, ds, ds, ds', S.home(c.key), p, p);
    CountedAfterRaise(S, ds, ds', M, c.key, Spot(c, p + 1), p);
    assert M[c.key := Spot(c, p + 1)] == G[c.key := Spot(c, p + 1)];
  }

  lemma PassBehind(S: Space, ds: seq<Desc>, ds': seq<Desc>, G: Layout, max: nat, c: Item, p: nat)
    requires Behind(S, ds, G, max, c, p) && |G| < S.cap && IsFull(ds, At(S, c.key, p))
    requires SameEntries(ds, ds')
    requires forall s :: 0 <= s < |ds| ==> ds'[s].probes == ds[s].probes && ds'[s].bound == ds[s].bound
    ensures Behind(S, ds', G, max, c, p + 1) && p <= |G|
  {
    FullMore(S, ds, c.key, p - 1);
    FullPrefix(S, ds, G, c.key, p);
    StructFrame(S, ds, ds', G, -1);
    IndexedFrame(S, ds, ds', G);
    KeepsFull(S, ds, ds', c.key, p);
  }

  /** The carried entry goes past a full slot. */
  lemma Pass(S: Space, ds: seq<Desc>, ds': seq<Desc>, G: Layout, max: nat, c: Item, p: nat)
    requires Carry(S, ds, G, max, c, p) && |G| < S.cap
    requires var s := At(S, c.key, p);
             ds[s].entry.Full? && ds' == ds[s := ds[s].(wanted := ds[s].wanted + 1)]
    ensures Carry(S, ds', G, max, c, p + 1) && p <= |G|
  {
    PassBehind(S, ds, ds', G, max, c, p);
    PassCount(S, ds, ds', G, c, p);
  }

  lemma CountBound(S: Space, ds: seq<Desc>, M: Layout)
    requires Wanted(S, ds, M)
    ensures SumWanted(ds) <= |ds| * |M|
  {
    forall s | 0 <= s < |ds| ensures ds[s].wanted <= |M| {
      SubsetSize(Passers(S, M, s), M.Keys);
    }
    SumBound(ds, |M|);
  }

  // ---- Robin Hood order ---------------------------------------------------------------------------

  /** The probes of the key before probe n meet entries at least as far from their homes. */
  ghost predicate Yields(S: Space, ds: seq<Desc>, k: int, n: nat) {
    forall j: nat {:trigger At(S, k, j)} :: 1 <= j < n ==> At(S, k, j) < |ds| && ds[At(S, k, j)].probes >= j
  }

  /** No key passes an entry that is closer to its home than the key is there. */
  ghost predicate Ranked(S: Space, ds: seq<Desc>, G: Layout) {
    forall k {:trigger G[k]} :: k in G ==> Yields(S, ds, k, G[k].idx)
  }

  /** ... nor does the carried entry. */
  ghost predicate RankedWith(S: Space, ds: seq<Desc>, G: Layout, c: Item, p: nat) {
    Ranked(S, ds, G) && Yields(S, ds, c.key, p)
  }

  lemma YieldsStored(S: Space, ds: seq<Desc>, ds': seq<Desc>, s: nat, c: Item, p: nat, max': nat, k: int, n: nat)
    requires Yields(S, ds, k, n) && Stored(ds, ds', s, c, p, max')
    requires p >= ds[s].probes || forall j: nat :: 1 <= j < n ==> At(S, k, j) != s
    ensures Yields(S, ds', k, n)
  {
  }

  /** Nobody passes the empty slot that the carried entry is stored in. */
  lemma PlaceRanked(S: Space, ds: seq<Desc>, ds': seq<Desc>, G: Layout, max: nat, max': nat, c: Item, p: nat)
    requires Carry(S, ds, G, max, c, p) && RankedWith(S, ds, G, c, p)
    requires var s := At(S, c.key, p); ds[s].entry.Empty? && Stored(ds, ds', s, c, p, max')
    ensures Ranked(S, ds', G[c.key := Spot(c, p)])
  {
    var s, G' := At(S, c.key, p), G[c.key := Spot(c, p)];
    forall k | k in G' ensures Yields(S, ds', k, G'[k].idx) {
      if k != c.key { assert PlacedAt(S, ds, k, G[k]); }
      YieldsStored(S, ds, ds', s, c, p, max', k, G'[k].idx);
    }
  }

  /** The slot of an entry closer to its home is taken by one that is farther from it. */
  lemma SwapRanked(S: Space, ds: seq<Desc>, ds': seq<Desc>, G: Layout, max: nat, max': nat, c: Item, p: nat, d: Item)
    requires Carry(S, ds, G, max, c, p) && RankedWith(S, ds, G, c, p) && d.key in G
    requires var s := At(S, c.key, p); ds[s].probes < p && Stored(ds, ds', s, c, p, max')
    ensures Ranked(S, ds', (G - {d.key})[c.key := Spot(c, p)]) && Yields(S, ds', d.key, G[d.key].idx)
  {
    var s, G' := At(S, c.key, p), (G - {d.key})[c.key := Spot(c, p)];
    forall k | k in G' ensures Yields(S, ds', k, G'[k].idx) {
      YieldsStored(S, ds, ds', s, c, p, max', k, G'[k].idx);
    }
    YieldsStored(S, ds, ds', s, c, p, max', d.key, G[d.key].idx);
  }

  lemma PassRanked(S: Space, ds: seq<Desc>, ds': seq<Desc>, G: Layout, c: Item, p: nat)
    requires p >= 1 && RankedWith(S, ds, G, c, p) && At(S, c.key, p) < |ds| && ds[At(S, c.key, p)].probes >= p
    requires |ds'| == |ds| && forall s :: 0 <= s < |ds| ==> ds'[s].probes == ds[s].probes
    ensures RankedWith(S, ds', G, c, p + 1)
  {
    forall k | k in G ensures Yields(S, ds', k, G[k].idx) { assert Yields(S, ds, k, G[k].idx); }
  }

  // ---- The code ---------------------------------------------------------------------------------

  /** The layout holds these items. */
  ghost predicate Holds(G: Layout, I: Items) {
    (forall k :: k in G <==> k in I) && forall k :: k in G ==> G[k].item == I[k]
  }

  /** The layout holds all of these items but the carried one. */
  ghost predicate HoldsBut(G: Layout, I: Items, c: Item) {
    && c.key in I && I[c.key] == c
    && (forall k :: k in G <==> k in I && k != c.key)
    && forall k :: k in G ==> G[k].item == I[k]
  }

  lemma HoldsButSize(G: Layout, I: Items, c: Item)
    requires HoldsBut(G, I, c)
    ensures |G| == |I| - 1
  {
    forall k ensures k in G.Keys <==> k in I.Keys - {c.key} {}
    assert G.Keys == I.Keys - {c.key};
  }

  lemma SwapHolds(G: Layout, I: Items, c: Item, p: nat, d: Item)
    requires HoldsBut(G, I, c) && d.key in G && G[d.key].item == d
    ensures HoldsBut((G - {d.key})[c.key := Spot(c, p)], I, d)
  {
  }

  method Store(b: array<Desc>, max: nat, offset: nat, c: Item, p: nat, h: nat) returns (max': nat)
    requires offset < b.Length && h < b.Length
    requires forall s :: 0 <= s < b.Length ==> b[s].bound <= WORD_MAX && b[s].bound <= max
    modifies b
    ensures max' == (if p > max then p else max)
    ensures Stored(old(b[..]), b[..], offset, c, p, max') && Within(b[h], p)
  {
    b[offset] := b[offset].(entry := Full(c), probes := p);
    max' := BoundSet(b, max, h, p);
  }

  lemma StoredSum(ds: seq<Desc>, ds': seq<Desc>, s: nat, c: Item, p: nat, max': nat)
    requires Stored(ds, ds', s, c, p, max')
    ensures SumWanted(ds') == SumWanted(ds)
  {
    SumLess(ds, ds');
    SumLess(ds', ds);
  }

  lemma PassSum(ds: seq<Desc>, ds': seq<Desc>, s: nat)
    requires s < |ds| && ds' == ds[s := ds[s].(wanted := ds[s].wanted + 1)]
    ensures SumWanted(ds') > SumWanted(ds)
  {
    assert ds[s].wanted < ds'[s].wanted;
    SumLess(ds', ds);
  }

  lemma SlackPositive(S: Space, ds: seq<Desc>, G: Layout, max: nat, c: Item, p: nat, I: Items)
    requires Carry(S, ds, G, max, c, p) && HoldsBut(G, I, c)
    ensures SumWanted(ds) <= |ds| * |I|
  {
    var M := G[c.key := Spot(c, p)];
    forall k ensures k in M.Keys <==> k in I.Keys {}
    assert M.Keys == I.Keys;
    CountBound(S, ds, M);
  }

  /** Everything that holds while an entry is carried. */
  ghost predicate Carrying(S: Space, ds: seq<Desc>, G: Layout, max: nat, limit: nat, c: Item, p: nat, I: Items) {
    && Carry(S, ds, G, max, c, p) && HoldsBut(G, I, c) && |I| <= S.cap && max <= limit && p - 1 <= limit && p <= |I|
  }

  /** The empty slot takes the entry in hand. */
  method PlaceHere(ghost S: Space, b: array<Desc>, ghost limit: nat, max: nat, c: Item, p: nat, offset: nat, h: nat,
                   ghost G: Layout, ghost I: Items)
    returns (max': nat, ghost G': Layout)
    requires Carrying(S, b[..], G, max, limit, c, p, I) && p <= limit
    requires offset == At(S, c.key, p) && h == S.home(c.key) && b[offset].entry.Empty?
    requires RankedWith(S, b[..], G, c, p)
    modifies b
    ensures max <= max' <= limit && Good(S, b[..], G', max') && Holds(G', I) && Ranked(S, b[..], G')
  {
    ghost var ds := b[..];
    max' := Store(b, max, offset, c, p, h);
    Place(S, ds, b[..], G, max, max', c, p);
    PlaceRanked(S, ds, b[..], G, max, max', c, p);
    G' := G[c.key := Spot(c, p)];
  }

  /** The entry in hand is exchanged for the one in the slot, which is closer to its home. */
  method SwapHere(ghost S: Space, b: array<Desc>, ghost limit: nat, max: nat, c: Item, p: nat, offset: nat, h: nat,
                  ghost G: Layout, ghost I: Items)
    returns (max': nat, c': Item, p': nat, ghost G': Layout)
    requires Carrying(S, b[..], G, max, limit, c, p, I) && p <= limit
    requires offset == At(S, c.key, p) && h == S.home(c.key)
    requires b[offset].entry.Full? && b[offset].probes < p && RankedWith(S, b[..], G, c, p)
    modifies b
    ensures max <= max' <= limit && 1 <= p' < p && Carrying(S, b[..], G', max', limit, c', p', I)
    ensures RankedWith(S, b[..], G', c', p')
    ensures offset == At(S, c'.key, p') && SumWanted(b[..]) == old(SumWanted(b[..]))
  {
    ghost var ds := b[..];
    Occupant(S, ds, G, offset);
    c', p' := b[offset].entry.item, b[offset].probes;
    max' := Store(b, max, offset, c, p, h);
    Swap(S, ds, b[..], G, max, max', c, p, c');
    SwapRanked(S, ds, b[..], G, max, max', c, p, c');
    SwapHolds(G, I, c, p, c');
    StoredSum(ds, b[..], offset, c, p, max');
    G' := (G - {c'.key})[c.key := Spot(c, p)];
  }

  /** The entry in hand is counted on the slot and goes past it. */
  method PassHere(ghost S: Space, b: array<Desc>, ghost limit: nat, ghost max: nat, ghost c: Item, ghost p: nat,
                  offset: nat, ghost G: Layout, ghost I: Items)
    requires Carrying(S, b[..], G, max, limit, c, p, I) && p <= limit
    requires offset == At(S, c.key, p) && b[offset].entry.Full?
    requires RankedWith(S, b[..], G, c, p) && b[offset].probes >= p
    modifies b
    ensures Carrying(S, b[..], G, max, limit, c, p + 1, I) && SumWanted(b[..]) > old(SumWanted(b[..]))
    ensures RankedWith(S, b[..], G, c, p + 1)
  {
    ghost var ds := b[..];
    b[offset] := b[offset].(wanted := b[offset].wanted + 1);
    HoldsButSize(G, I, c);
    Pass(S, ds, b[..], G, max, c, p);
    PassRanked(S, ds, b[..], G, c, p);
    PassSum(ds, b[..], offset);
  }

  /** One round of the loop: the carried entry is placed, changes places or passes on. */
  method StepHere(ghost S: Space, hf: int -> nat, b: array<Desc>, ghost limit: nat, max: nat, c: Item, p: nat,
                  offset: nat, h: nat, ghost G: Layout, ghost I: Items)
    returns (done: bool, max': nat, c': Item, p': nat, offset': nat, h': nat, ghost G': Layout)
    requires Tracks(S, hf, b.Length) && Carrying(S, b[..], G, max, limit, c, p, I) && p <= limit
    requires offset == At(S, c.key, p) && h == S.home(c.key) && RankedWith(S, b[..], G, c, p)
    modifies b
    ensures max <= max' <= limit && (done ==> Good(S, b[..], G', max') && Holds(G', I) && Ranked(S, b[..], G'))
    ensures !done ==> Carrying(S, b[..], G', max', limit, c', p', I) && RankedWith(S, b[..], G', c', p')
    ensures !done ==> offset' == At(S, c'.key, p') && h' == S.home(c'.key)
    ensures !done ==> SumWanted(b[..]) > old(SumWanted(b[..])) || (SumWanted(b[..]) == old(SumWanted(b[..])) && p' < p)
  {
    done, max', c', p', offset', h', G' := false, max, c, p, offset, h, G;
    if b[offset].entry.Empty? {
      max', G' := PlaceHere(S, b, limit, max, c, p, offset, h, G, I);
      done := true;
    } else if b[offset].probes < p {
      max', c', p', G' := SwapHere(S, b, limit, max, c, p, offset, h, G, I);
      h' := HomeSlot(S, hf, b.Length, c'.key);
    } else {
      PassHere(S, b, limit, max, c, p, offset, G, I);
      offset' := ProbeNext(S, hf, b.Length, offset, p, h);
      p' := p + 1;
    }
  }

  /** Inserts an entry into the new array; entries met on the way may be carried on in its place.
      Fails only when the probe limit is hit. */
  method Reinsert(ghost S: Space, hf: int -> nat, b: array<Desc>, limit: nat, max0: nat, item: Item, ghost G0: Layout,
                  ghost I: Items)
    returns (ok: bool, max: nat, ghost G: Layout)
    requires Tracks(S, hf, b.Length) && Good(S, b[..], G0, max0) && max0 <= limit
    requires HoldsBut(G0, I, item) && |I| <= b.Length && Ranked(S, b[..], G0)
    modifies b
    ensures max0 <= max <= limit
    ensures !ok ==> limit < |I|
    ensures ok ==> Good(S, b[..], G, max) && Holds(G, I) && Ranked(S, b[..], G)
  {
    var c: Item, probe: nat := item, 1;
    var h := HomeSlot(S, hf, b.Length, c.key);
    var offset: nat := h;
    max, G := max0, G0;
    FirstCarry(S, b[..], G, max, c);
    HoldsButSize(G, I, c);
    ghost var most := b.Length * |I|;
    while probe <= limit
      invariant Carrying(S, b[..], G, max, limit, c, probe, I) && max0 <= max
      invariant RankedWith(S, b[..], G, c, probe)
      invariant offset == At(S, c.key, probe) && h == S.home(c.key)
      decreases most - SumWanted(b[..]), probe
    {
      SlackPositive(S, b[..], G, max, c, probe, I);
      ok, max, c, probe, offset, h, G := StepHere(S, hf, b, limit, max, c, probe, offset, h, G, I);
      if ok {
        return;
      }
    }
    return false, max, G;
  }

  lemma FirstCarry(S: Space, ds: seq<Desc>, G: Layout, max: nat, c: Item)
    requires Good(S, ds, G, max) && c.key !in G
    ensures Carry(S, ds, G, max, c, 1) && At(S, c.key, 1) == S.home(c.key)
  {
    forall s: nat | s < |ds| ensures ds[s].wanted == |Passers(S, G[c.key := Spot(c, 1)], s)| {
      assert Passers(S, G[c.key := Spot(c, 1)], s) == Passers(S, G, s);
    }
  }
}
