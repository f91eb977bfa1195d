/** Robin Hood displacement: a chain of entries each moves to a later probe of its own sequence. */
module RhsDisplace {
  import opened Internal
  import opened RhsProbe
  import opened RhsLayout
  import opened RhsCounters
  import opened RhsSearch

  // ---- What the steps leave alone --------------------------------------------------------------

  ghost predicate SameEntries(ds: seq<Desc>, ds': seq<Desc>) {
    |ds'| == |ds| && forall s :: 0 <= s < |ds| ==> ds'[s].entry == ds[s].entry
  }

  /** Full slots stay full and bounds do not drop. */
  ghost predicate Keeps(ds: seq<Desc>, ds': seq<Desc>) {
    && |ds'| == |ds|
    && (forall s :: 0 <= s < |ds| && ds[s].entry.Full? ==> ds'[s].entry.Full?)
    && (forall s :: 0 <= s < |ds| ==> ds[s].bound <= ds'[s].bound <= WORD_MAX)
  }

  ghost predicate SameItems(G: Layout, G': Layout) {
    (forall k :: k in G' <==> k in G) && forall k :: k in G ==> G'[k].item == G[k].item
  }

  lemma SameItemsTrans(G: Layout, G1: Layout, G2: Layout)
    requires SameItems(G, G1) && SameItems(G1, G2)
    ensures SameItems(G, G2)
  {
  }

  lemma KeepsFull(S: Space, ds: seq<Desc>, ds': seq<Desc>, k: int, n: nat)
    requires Keeps(ds, ds') && FullTo(S, ds, k, n)
    ensures FullTo(S, ds', k, n)
  {
    forall j | 1 <= j <= n ensures IsFull(ds', At(S, k, j)) {
      assert IsFull(ds, At(S, k, j));
    }
  }

  lemma StructFrame(S: Space, ds: seq<Desc>, ds': seq<Desc>, G: Layout, z: int)
    requires Struct(S, ds, G, z) && SameEntries(ds, ds')
    ensures Struct(S, ds', G, z)
  {
    forall k | k in G ensures PlacedAt(S, ds', k, G[k]) && At(S, k, G[k].idx) != z {
      assert PlacedAt(S, ds, k, G[k]);
      forall j | 1 <= j <= G[k].idx ensures IsFull(ds', At(S, k, j)) {
        assert IsFull(ds, At(S, k, j));
      }
    }
    forall s: nat | s < |ds'| && s != z && ds'[s].entry.Full? ensures HeldAt(S, ds', G, s) {
      assert HeldAt(S, ds, G, s);
    }
  }

  lemma BoundedFrame(S: Space, ds: seq<Desc>, ds': seq<Desc>, G: Layout, max: nat, max': nat)
    requires Bounded(S, ds, G, max) && |ds'| == |ds| && max <= max' <= S.cap
    requires forall s :: 0 <= s < |ds| ==> ds[s].bound <= ds'[s].bound <= WORD_MAX && ds'[s].bound <= max'
    ensures Bounded(S, ds', G, max')
  {
  }

  // ---- The chain -------------------------------------------------------------------------------

  /** The entry of slot `from` is to move to slot `to`, whose recorded probe number is already the
      one it will have there. */
  ghost predicate Link(S: Space, ds: seq<Desc>, G: Layout, max: nat, from: nat, to: nat) {
    && from < |ds| && to < |ds| && ds[from].entry.Full? && ds[to].entry.Full?
    && var k, n := ds[from].entry.item.key, ds[to].probes;
    && k in G && At(S, k, G[k].idx) == from
    && G[k].idx < n <= max && n <= S.cap && At(S, k, n) == to && FullTo(S, ds, k, n)
    && S.home(k) < |ds| && Within(ds[S.home(k)], n)
  }

  ghost predicate LinkAt(S: Space, ds: seq<Desc>, G: Layout, max: nat, c: seq<nat>, i: nat) {
    i + 1 < |c| && Link(S, ds, G, max, c[i], c[i + 1])
  }

  ghost predicate Chain(S: Space, ds: seq<Desc>, G: Layout, max: nat, c: seq<nat>) {
    && (forall i :: 0 <= i < |c| ==> c[i] < |ds|)
    && (forall i, j :: 0 <= i < j < |c| ==> c[i] != c[j])
    && (forall i :: 0 <= i < |c| - 1 ==> LinkAt(S, ds, G, max, c, i))
  }

  /** The slots whose recorded probe number runs ahead of the layout. */
  ghost function Ahead(c: seq<nat>): set<nat> { set i | 1 <= i < |c| :: c[i] }

  lemma LinkFrame(S: Space, ds: seq<Desc>, ds': seq<Desc>, G: Layout, max: nat, max': nat, from: nat, to: nat)
    requires Link(S, ds, G, max, from, to) && Keeps(ds, ds') && max <= max'
    requires ds'[from].entry == ds[from].entry && ds'[to].probes == ds[to].probes
    ensures Link(S, ds', G, max', from, to)
  {
    KeepsFull(S, ds, ds', ds[from].entry.item.key, ds[to].probes);
  }

  lemma ChainFrame(S: Space, ds: seq<Desc>, ds': seq<Desc>, G: Layout, max: nat, max': nat, c: seq<nat>)
    requires Chain(S, ds, G, max, c) && Keeps(ds, ds') && max <= max'
    requires forall i :: 0 <= i < |c| ==>
               ds'[c[i]].entry == ds[c[i]].entry && ds'[c[i]].probes == ds[c[i]].probes
    ensures Chain(S, ds', G, max', c)
  {
    forall i | 0 <= i < |c| - 1 ensures LinkAt(S, ds', G, max', c, i) {
      assert LinkAt(S, ds, G, max, c, i);
      LinkFrame(S, ds, ds', G, max, max', c[i], c[i + 1]);
    }
  }

  /** A chain has no more slots than the map. */
  lemma ChainSize(S: Space, ds: seq<Desc>, G: Layout, max: nat, c: seq<nat>)
    requires Chain(S, ds, G, max, c)
    ensures |c| <= |ds|
  {
    var below := Below(|ds|);
    var slots := set i | 0 <= i < |c| :: c[i];
    DistinctSize(c);
    SubsetSize(slots, below);
  }

  lemma {:induction false} DistinctSize(c: seq<nat>)
    requires forall i, j :: 0 <= i < j < |c| ==> c[i] != c[j]
    ensures |set i | 0 <= i < |c| :: c[i]| == |c|
  {
    var all := set i | 0 <= i < |c| :: c[i];
    if |c| == 0 {
      assert all == {};
    } else {
      var m := |c| - 1;
      DistinctSize(c[..m]);
      var front := set i | 0 <= i < m :: c[..m][i];
      assert c[m] !in front;
      assert all == front + {c[m]} by {
        forall i | 0 <= i < m ensures c[i] in front { assert c[..m][i] == c[i]; }
      }
    }
  }

  /** While the chain is being found no entry has moved. */
  ghost predicate Forward(S: Space, ds: seq<Desc>, G: Layout, max: nat, c: seq<nat>) {
    && Struct(S, ds, G, -1) && Indexed(S, ds, G, Ahead(c)) && Bounded(S, ds, G, max) && Wanted(S, ds, G)
    && |c| > 0 && Chain(S, ds, G, max, c) && ds[c[|c| - 1]].entry.Full?
  }

  /** While the chain is being unwound its last slot is the hole. */
  ghost predicate Backward(S: Space, ds: seq<Desc>, G: Layout, max: nat, c: seq<nat>) {
    && |c| > 0 && Struct(S, ds, G, c[|c| - 1]) && Indexed(S, ds, G, Ahead(c)) && Bounded(S, ds, G, max)
    && Wanted(S, ds, G) && Chain(S, ds, G, max, c)
  }

  /** ds' records probe number n at slot t and has raised some bounds, up to max. */
  ghost predicate Marked(ds: seq<Desc>, ds': seq<Desc>, t: int, n: nat, max: nat) {
    && |ds'| == |ds|
    && forall s :: 0 <= s < |ds| ==>
         && ds'[s].entry == ds[s].entry && ds'[s].wanted == ds[s].wanted
         && ds'[s].probes == (if s == t then n else ds[s].probes)
         && ds[s].bound <= ds'[s].bound <= WORD_MAX && ds'[s].bound <= max
  }

  lemma MarkedStruct(S: Space, ds: seq<Desc>, ds': seq<Desc>, G: Layout, max: nat, t: int, n: nat, max': nat)
    requires Struct(S, ds, G, -1) && Bounded(S, ds, G, max) && Wanted(S, ds, G)
    requires Marked(ds, ds', t, n, max') && max <= max' <= S.cap
    ensures Struct(S, ds', G, -1) && Bounded(S, ds', G, max') && Wanted(S, ds', G)
  {
    StructFrame(S, ds, ds', G, -1);
    BoundedFrame(S, ds, ds', G, max, max');
  }

  lemma ExtendChain(S: Space, ds: seq<Desc>, ds': seq<Desc>, G: Layout, max: nat, max': nat, c: seq<nat>,
                    t: nat, n: nat)
    requires |c| > 0 && Chain(S, ds, G, max, c) && t !in c && t < |ds|
    requires Marked(ds, ds', t, n, max') && max <= max'
    requires Link(S, ds', G, max', c[|c| - 1], t)
    ensures Chain(S, ds', G, max', c + [t])
  {
    var c' := c + [t];
    ChainFrame(S, ds, ds', G, max, max', c);
    forall i | 0 <= i < |c'| - 1 ensures LinkAt(S, ds', G, max', c', i) {
      if i < |c| - 1 { assert LinkAt(S, ds', G, max', c, i); }
    }
  }

  lemma NewLink(S: Space, ds: seq<Desc>, ds': seq<Desc>, G: Layout, max': nat, last: nat, t: nat, n: nat)
    requires last < |ds| && ds[last].entry.Full? && Marked(ds, ds', t, n, max')
    requires var k := ds[last].entry.item.key;
             && Room(S, ds, k, -1, t, n) && k in G && At(S, k, G[k].idx) == last && G[k].idx < n <= max'
             && S.home(k) < |ds'| && Within(ds'[S.home(k)], n)
    ensures Link(S, ds', G, max', last, t)
  {
    var k := ds[last].entry.item.key;
    assert FullTo(S, ds, k, n) by {
      forall j | 1 <= j <= n ensures IsFull(ds, At(S, k, j)) {}
    }
    KeepsFull(S, ds, ds', k, n);
  }

  lemma ExtendIndexed(S: Space, ds: seq<Desc>, ds': seq<Desc>, G: Layout, c: seq<nat>, t: nat, n: nat, max': nat)
    requires Indexed(S, ds, G, Ahead(c)) && |c| > 0 && Marked(ds, ds', t, n, max') && IsFull(ds, t)
    ensures Indexed(S, ds', G, Ahead(c + [t]))
  {
    AheadMore(c, t);
  }

  /** The bound and probe numbers of a victim have been recorded: it joins the chain. */
  lemma Extend(S: Space, ds: seq<Desc>, ds': seq<Desc>, G: Layout, max: nat, max': nat, c: seq<nat>,
               t: nat, n: nat)
    requires Forward(S, ds, G, max, c) && t !in c && Marked(ds, ds', t, n, max') && max <= max' <= S.cap
    requires var k := ds[c[|c| - 1]].entry.item.key;
             && Room(S, ds, k, -1, t, n) && k in G && G[k].idx < n <= max'
             && S.home(k) < |ds'| && Within(ds'[S.home(k)], n)
    ensures Forward(S, ds', G, max', c + [t])
  {
    MarkedStruct(S, ds, ds', G, max, t, n, max');
    LastHeld(S, ds, G, max, c);
    NewLink(S, ds, ds', G, max', c[|c| - 1], t, n);
    ExtendChain(S, ds, ds', G, max, max', c, t, n);
    ExtendIndexed(S, ds, ds', G, c, t, n, max');
  }

  lemma AheadMore(c: seq<nat>, t: nat)
    requires |c| > 0
    ensures Ahead(c + [t]) == Ahead(c) + {t}
  {
    var c' := c + [t];
    forall i | 1 <= i < |c'| ensures c'[i] in Ahead(c) + {t} {}
    forall s | s in Ahead(c) ensures s in Ahead(c') {
      var i :| 1 <= i < |c| && c[i] == s;
      assert c'[i] == s;
    }
    assert c'[|c|] == t;
  }

  /** The entry has been copied to slot t at probe n and counted on the way there. */
  ghost predicate Moved(S: Space, ds: seq<Desc>, ds': seq<Desc>, t: nat, item: Item, n: nat, i: nat) {
    && Recounted(S, ds, ds', S.home(item.key), i, n)
    && forall s :: 0 <= s < |ds| ==>
         && ds'[s].entry == (if s == t then Full(item) else ds[s].entry)
         && ds'[s].probes == (if s == t then n else ds[s].probes)
         && ds'[s].bound == ds[s].bound
  }

  /** Moving a key to the hole, or to an empty slot, makes the slot it leaves the hole. */
  lemma MoveKey(S: Space, ds: seq<Desc>, ds': seq<Desc>, G: Layout, max: nat, z: int, C: set<nat>,
                item: Item, n: nat)
    requires Struct(S, ds, G, z) && Indexed(S, ds, G, C) && Bounded(S, ds, G, max) && Wanted(S, ds, G)
    requires MayMove(S, ds, z, item.key, n) && n <= max && S.home(item.key) < |ds|
    requires Within(ds[S.home(item.key)], n)
    requires item.key in G ==> G[item.key].idx <= n
    requires Moved(S, ds, ds', At(S, item.key, n), item, n, if item.key in G then G[item.key].idx else 1)
    ensures var G' := G[item.key := Spot(item, n)];
            && Struct(S, ds', G', Vacated(S, G, item.key))
            && Indexed(S, ds', G', C - {At(S, item.key, n)})
            && Bounded(S, ds', G', max) && Wanted(S, ds', G')
  {
    var k, t := item.key, At(S, item.key, n);
    var G', ds1 := G[k := Spot(item, n)], Put(ds, t, item, n);
    if k in G { assert PlacedAt(S, ds, k, G[k]); }
    MoveStruct(S, ds, G, z, item, n);
    StructFrame(S, ds1, ds', G', Vacated(S, G, k));
    MoveIndexed(S, ds, G, z, C, item, n);
    CountedAfterRaise(S, ds, ds', G, k, Spot(item, n), if k in G then G[k].idx else 1);
  }

  lemma MovedKeeps(S: Space, ds: seq<Desc>, ds': seq<Desc>, t: nat, item: Item, n: nat, i: nat)
    requires Moved(S, ds, ds', t, item, n, i) && forall s :: 0 <= s < |ds| ==> ds[s].bound <= WORD_MAX
    ensures Keeps(ds, ds')
  {
  }

  /** The rest of a chain outlives the move of its last entry. */
  lemma ChainMoved(S: Space, ds: seq<Desc>, ds': seq<Desc>, G: Layout, max: nat, c: seq<nat>, t: nat,
                   item: Item, n: nat, i: nat)
    requires |c| > 0 && Chain(S, ds, G, max, c) && forall s :: 0 <= s < |ds| ==> ds[s].bound <= WORD_MAX
    requires item.key in G && At(S, item.key, G[item.key].idx) == c[|c| - 1]
    requires Moved(S, ds, ds', t, item, n, i) && t !in c
    ensures Chain(S, ds', G[item.key := Spot(item, n)], max, c)
  {
    MovedKeeps(S, ds, ds', t, item, n, i);
    ChainFrame(S, ds, ds', G, max, max, c);
    var G' := G[item.key := Spot(item, n)];
    forall i | 0 <= i < |c| - 1 ensures LinkAt(S, ds', G', max, c, i) {
      assert LinkAt(S, ds', G, max, c, i);
      assert c[i] != c[|c| - 1];
    }
  }

  lemma ChainFull(S: Space, ds: seq<Desc>, G: Layout, max: nat, c: seq<nat>, t: nat)
    requires |c| > 0 && Chain(S, ds, G, max, c) && ds[c[|c| - 1]].entry.Full?
    requires t < |ds| && ds[t].entry.Empty?
    ensures t !in c
  {
    forall i | 0 <= i < |c| ensures c[i] != t {
      if i < |c| - 1 { assert LinkAt(S, ds, G, max, c, i); }
    }
  }

  lemma ChainPrefix(S: Space, ds: seq<Desc>, G: Layout, max: nat, c: seq<nat>)
    requires |c| > 0 && Chain(S, ds, G, max, c)
    ensures Chain(S, ds, G, max, c[..|c| - 1]) && c[|c| - 1] !in c[..|c| - 1]
  {
    var c' := c[..|c| - 1];
    forall i | 0 <= i < |c'| - 1 ensures LinkAt(S, ds, G, max, c', i) {
      assert LinkAt(S, ds, G, max, c, i);
    }
  }

  lemma AheadLess(c: seq<nat>)
    requires |c| > 1
    ensures Ahead(c) - {c[|c| - 1]} <= Ahead(c[..|c| - 1])
  {
    forall s | s in Ahead(c) && s != c[|c| - 1] ensures s in Ahead(c[..|c| - 1]) {
      var i :| 1 <= i < |c| && c[i] == s;
      assert c[..|c| - 1][i] == s;
    }
  }

  /** The last entry of the chain has moved to an empty slot. */
  lemma Settle(S: Space, ds: seq<Desc>, ds': seq<Desc>, G: Layout, max: nat, c: seq<nat>, item: Item, n: nat)
    requires Forward(S, ds, G, max, c) && ds[c[|c| - 1]].entry == Full(item)
    requires item.key in G && At(S, item.key, G[item.key].idx) == c[|c| - 1] && G[item.key].idx < n <= max
    requires MayMove(S, ds, -1, item.key, n) && Within(ds[S.home(item.key)], n)
    requires Moved(S, ds, ds', At(S, item.key, n), item, n, G[item.key].idx)
    ensures Backward(S, ds', G[item.key := Spot(item, n)], max, c)
  {
    MoveKey(S, ds, ds', G, max, -1, Ahead(c), item, n);
    ChainFull(S, ds, G, max, c, At(S, item.key, n));
    ChainMoved(S, ds, ds', G, max, c, At(S, item.key, n), item, n, G[item.key].idx);
  }

  /** The entry before the hole has moved into it. */
  lemma Unwind(S: Space, ds: seq<Desc>, ds': seq<Desc>, G: Layout, max: nat, c: seq<nat>, item: Item)
    requires Backward(S, ds, G, max, c) && |c| > 1
    requires var t := c[|c| - 1];
             && ds[c[|c| - 2]].entry == Full(item) && item.key in G
             && Moved(S, ds, ds', t, item, ds[t].probes, G[item.key].idx)
    ensures Backward(S, ds', G[item.key := Spot(item, ds[c[|c| - 1]].probes)], max, c[..|c| - 1])
  {
    var t, c' := c[|c| - 1], c[..|c| - 1];
    assert LinkAt(S, ds, G, max, c, |c| - 2);
    MoveKey(S, ds, ds', G, max, t, Ahead(c), item, ds[t].probes);
    ChainPrefix(S, ds, G, max, c);
    ChainMoved(S, ds, ds', G, max, c', t, item, ds[t].probes, G[item.key].idx);
    AheadLess(c);
  }

  // ---- The code ---------------------------------------------------------------------------------

  /** Makes lookups from home slot h probe at least n slots. */
  method BoundSet(a: array<Desc>, max: nat, h: nat, n: nat) returns (max': nat)
    requires h < a.Length && forall s :: 0 <= s < a.Length ==> a[s].bound <= WORD_MAX && a[s].bound <= max
    modifies a
    ensures max' == if n > max then n else max
    ensures Marked(old(a[..]), a[..], -1, 0, max') && Within(a[h], n)
    ensures forall s :: 0 <= s < a.Length ==> a[s].inRh == old(a[s].inRh)
    ensures forall s :: 0 <= s < a.Length && s != h ==> a[s] == old(a[s])
  {
    max' := if n > max then n else max;
    if a[h].bound < n {
      a[h] := a[h].(bound := if n > WORD_MAX then WORD_MAX else n);
    }
  }

  lemma Remark(S: Space, ds: seq<Desc>, ds': seq<Desc>, G: Layout, max: nat, max': nat, c: seq<nat>)
    requires Forward(S, ds, G, max, c) && Marked(ds, ds', -1, 0, max') && max <= max' <= S.cap
    ensures Forward(S, ds', G, max', c)
  {
    MarkedStruct(S, ds, ds', G, max, -1, 0, max');
    ChainFrame(S, ds, ds', G, max, max', c);
  }

  /** The entry of the last slot of the chain and where it sits. */
  lemma LastHeld(S: Space, ds: seq<Desc>, G: Layout, max: nat, c: seq<nat>)
    requires Forward(S, ds, G, max, c)
    ensures var k := ds[c[|c| - 1]].entry.item.key;
            && k in G && At(S, k, G[k].idx) == c[|c| - 1] && 1 <= G[k].idx <= max
            && FullTo(S, ds, k, G[k].idx) && G[k].item == ds[c[|c| - 1]].entry.item
  {
    var k := ds[c[|c| - 1]].entry.item.key;
    assert HeldAt(S, ds, G, c[|c| - 1]);
    assert PlacedAt(S, ds, k, G[k]);
  }

  lemma RecordedIndex(S: Space, ds: seq<Desc>, G: Layout, max: nat, c: seq<nat>, t: nat)
    requires Forward(S, ds, G, max, c) && t !in c && t < |ds| && ds[t].entry.Full?
    ensures ds[t].entry.item.key in G && ds[t].probes == G[ds[t].entry.item.key].idx
  {
    assert t !in Ahead(c);
    assert HeldAt(S, ds, G, t);
  }

  /** Entries stay where they are and bounds do not drop. */
  ghost predicate Still(ds: seq<Desc>, ds': seq<Desc>) {
    && |ds'| == |ds|
    && forall s :: 0 <= s < |ds| ==>
         ds'[s].entry == ds[s].entry && ds[s].bound <= ds'[s].bound <= WORD_MAX
  }

  lemma StillTrans(ds: seq<Desc>, ds1: seq<Desc>, ds2: seq<Desc>)
    requires Still(ds, ds1) && Still(ds1, ds2)
    ensures Still(ds, ds2)
  {
  }

  ghost predicate Flagged(ds: seq<Desc>, c: seq<nat>) {
    forall i :: 0 <= i < |c| ==> c[i] < |ds| && ds[c[i]].inRh
  }

  lemma NotFlagged(ds: seq<Desc>, c: seq<nat>, t: nat)
    requires Flagged(ds, c) && t < |ds| && !ds[t].inRh
    ensures t !in c
  {
  }

  lemma FlagLast(ds: seq<Desc>, c: seq<nat>)
    requires |c| > 0 && c[|c| - 1] < |ds| && Flagged(ds, c[..|c| - 1])
    ensures var t := c[|c| - 1]; Flagged(ds[t := ds[t].(inRh := true)], c)
  {
    forall i | 0 <= i < |c| - 1 ensures c[i] < |ds| && ds[c[i]].inRh {
      assert c[..|c| - 1][i] == c[i];
    }
  }

  lemma FlaggedFrame(ds: seq<Desc>, ds': seq<Desc>, c: seq<nat>)
    requires Flagged(ds, c) && |ds'| == |ds| && forall s :: 0 <= s < |ds| ==> ds'[s].inRh == ds[s].inRh
    ensures Flagged(ds', c)
  {
  }

  /** Flags the last slot of the chain as taken, so that it is not chosen again. */
  method Flag(ghost S: Space, a: array<Desc>, ghost max: nat, chain: seq<nat>, ghost G: Layout)
    requires Forward(S, a[..], G, max, chain)
    modifies a
    ensures Forward(S, a[..], G, max, chain) && Still(old(a[..]), a[..])
    ensures old(Flagged(a[..], chain[..|chain| - 1])) ==> Flagged(a[..], chain)
  {
    var cur := chain[|chain| - 1];
    ghost var ds := a[..];
    a[cur] := a[cur].(inRh := true);
    assert a[..] == ds[cur := ds[cur].(inRh := true)];
    if Flagged(ds, chain[..|chain| - 1]) { FlagLast(ds, chain); }
    Remark(S, old(a[..]), a[..], G, max, max, chain);
  }

  /** The victim in slot t joins the chain; its own probe number is returned. */
  method Join(ghost S: Space, hf: int -> nat, a: array<Desc>, max: nat, ghost chain: seq<nat>, t: nat, n: nat,
              ghost G: Layout)
    returns (max': nat, oldProbes: nat)
    requires Tracks(S, hf, a.Length) && Forward(S, a[..], G, max, chain) && t !in chain
    requires var k := a[chain[|chain| - 1]].entry.item.key;
             k in G && G[k].idx < n && Room(S, a[..], k, -1, t, n)
    modifies a
    ensures max' == (if n > max then n else max) && Forward(S, a[..], G, max', chain + [t])
    ensures a[t].entry.Full? && a[t].entry.item.key in G && oldProbes == G[a[t].entry.item.key].idx
    ensures Still(old(a[..]), a[..]) && (old(Flagged(a[..], chain)) ==> Flagged(a[..], chain))
  {
    ghost var ds, k := a[..], a[chain[|chain| - 1]].entry.item.key;
    RecordedIndex(S, ds, G, max, chain, t);
    oldProbes := a[t].probes;
    a[t] := a[t].(probes := n);
    var h := FirstOffset(S, hf, a.Length, t, n, S.home(k));
    max' := BoundSet(a, max, h, n);
    if Flagged(ds, chain) { FlaggedFrame(ds, a[..], chain); }
    Extend(S, ds, a[..], G, max, max', chain, t, n);
  }

  /** The chain found so far; all its slots but the last are flagged, and n is the probe number of
      the last entry. */
  ghost predicate Finding(S: Space, ds: seq<Desc>, G: Layout, max: nat, limit: nat, c: seq<nat>, n: nat) {
    && Forward(S, ds, G, max, c) && max <= limit
    && (var k := ds[c[|c| - 1]].entry.item.key; k in G && n == G[k].idx)
    && Flagged(ds, c[..|c| - 1])
  }

  /** The last entry of the chain has an empty slot to go to. */
  ghost predicate Found(S: Space, ds: seq<Desc>, G: Layout, max: nat, limit: nat, c: seq<nat>, slot: int, n: nat) {
    && Forward(S, ds, G, max, c) && max <= limit
    && var k := ds[c[|c| - 1]].entry.item.key;
    k in G && G[k].idx < n <= limit && Room(S, ds, k, slot, -1, n)
  }

  lemma FindingMore(S: Space, ds: seq<Desc>, G: Layout, max: nat, limit: nat, c: seq<nat>, t: nat, n: nat)
    requires Forward(S, ds, G, max, c + [t]) && max <= limit && Flagged(ds, c)
    requires t < |ds| && ds[t].entry.Full? && ds[t].entry.item.key in G && n == G[ds[t].entry.item.key].idx
    ensures Finding(S, ds, G, max, limit, c + [t], n)
  {
    assert (c + [t])[..|c|] == c;
  }

  /** The entry of slot t, which is not being displaced yet, joins the flagged chain. */
  method JoinNext(ghost S: Space, hf: int -> nat, a: array<Desc>, ghost limit: nat, max: nat, chain: seq<nat>, t: nat,
                  n: nat, ghost G: Layout)
    returns (max': nat, oldProbes: nat)
    requires Tracks(S, hf, a.Length) && Forward(S, a[..], G, max, chain) && Flagged(a[..], chain) && max <= limit
    requires t < a.Length && !a[t].inRh && n <= limit
    requires var k := a[chain[|chain| - 1]].entry.item.key;
             k in G && G[k].idx < n && Room(S, a[..], k, -1, t, n)
    modifies a
    ensures Still(old(a[..]), a[..]) && max <= max' && Finding(S, a[..], G, max', limit, chain + [t], oldProbes)
  {
    NotFlagged(a[..], chain, t);
    max', oldProbes := Join(S, hf, a, max, chain, t, n, G);
    FindingMore(S, a[..], G, max', limit, chain, t, oldProbes);
  }

  datatype Progress = More | Done | Stuck

  /** One more probe for the last entry of the chain. */
  method Advance(ghost S: Space, hf: int -> nat, a: array<Desc>, limit: nat, max: nat, chain: seq<nat>,
                 n: nat, ghost G: Layout)
    returns (r: Progress, max': nat, chain': seq<nat>, slot: int, n': nat)
    requires Tracks(S, hf, a.Length) && |G| < a.Length && Finding(S, a[..], G, max, limit, chain, n)
    modifies a
    ensures Still(old(a[..]), a[..])
    ensures r.Stuck? ==> limit <= |G|
    ensures r.Done? ==> max' == max && chain' == chain && Found(S, a[..], G, max, limit, chain, slot, n')
    ensures r.More? ==> Finding(S, a[..], G, max', limit, chain', n') && |chain'| == |chain| + 1
    ensures max <= max' && |chain'| > 0 && chain'[0] == chain[0]
  {
    max', chain' := max, chain;
    var cur := chain[|chain| - 1];
    Flag(S, a, max, chain, G);
    LastHeld(S, a[..], G, max, chain);
    var first: int;
    slot, first, n' := FindNext(S, hf, a, limit, cur, n, a[cur].entry.item.key, G);
    if slot == -1 && first == -1 {
      r := Stuck;
    } else if first == -1 {
      r := Done;
    } else {
      r := More;
      max', n' := JoinNext(S, hf, a, limit, max, chain, first, n', G);
      chain' := chain + [first];
    }
  }

  /** Follows displaced entries until one finds an empty slot. Recorded probe numbers and bounds
      are set ahead; no entry moves. */
  method FindChain(ghost S: Space, hf: int -> nat, a: array<Desc>, limit: nat, max0: nat, first0: nat,
                   ghost G: Layout)
    returns (ok: bool, max: nat, chain: seq<nat>, slot: int, n: nat)
    requires Tracks(S, hf, a.Length) && Good(S, a[..], G, max0) && |G| < a.Length && max0 <= limit
    requires first0 < a.Length && a[first0].entry.Full?
    modifies a
    ensures Still(old(a[..]), a[..])
    ensures !ok ==> limit <= |G|
    ensures ok ==> max0 <= max && |chain| > 0 && chain[0] == first0 && Found(S, a[..], G, max, limit, chain, slot, n)
  {
    var r := More;
    chain, max, n, slot := [first0], max0, a[first0].probes, -1;
    assert HeldAt(S, a[..], G, first0);
    while r.More?
      invariant Still(old(a[..]), a[..]) && max0 <= max && |chain| > 0 && chain[0] == first0
      invariant r.Stuck? ==> limit <= |G|
      invariant r.Done? ==> Found(S, a[..], G, max, limit, chain, slot, n)
      invariant r.More? ==> Finding(S, a[..], G, max, limit, chain, n)
      decreases r.More?, a.Length - |chain|
    {
      ghost var ds := a[..];
      ChainSize(S, ds, G, max, chain);
      r, max, chain, slot, n := Advance(S, hf, a, limit, max, chain, n, G);
      StillTrans(old(a[..]), ds, a[..]);
    }
    ok := r.Done?;
  }

  lemma KeepsTrans(ds: seq<Desc>, ds1: seq<Desc>, ds2: seq<Desc>)
    requires Keeps(ds, ds1) && Keeps(ds1, ds2)
    ensures Keeps(ds, ds2)
  {
  }

  /** Copies an entry from its probe i to its probe n and counts it on the way. */
  method Relocate(ghost S: Space, hf: int -> nat, a: array<Desc>, from: nat, to: nat, n: nat, h: nat,
                  unflag: nat, ghost i: nat)
    requires Tracks(S, hf, a.Length) && from < a.Length && to < a.Length && unflag < a.Length
    requires a[from].entry.Full? && h == S.home(a[from].entry.item.key) && 1 <= i <= n <= a.Length
    requires S.slot(h, i) == from && S.slot(h, n) == to
    modifies a
    ensures Moved(S, old(a[..]), a[..], to, old(a[from].entry.item), n, i)
  {
    ghost var ds := a[..];
    a[to] := a[to].(entry := a[from].entry, probes := n);
    a[unflag] := a[unflag].(inRh := false);
    ghost var ds1 := a[..];
    AddWanted(S, hf, a, to, from, h, i, n);
    Copied(S, ds, ds1, a[..], from, to, n, i);
  }

  lemma Copied(S: Space, ds: seq<Desc>, ds1: seq<Desc>, ds2: seq<Desc>, from: nat, to: nat, n: nat, i: nat)
    requires |ds1| == |ds| && from < |ds| && ds[from].entry.Full?
    requires forall s :: 0 <= s < |ds| ==>
               && ds1[s].entry == (if s == to then ds[from].entry else ds[s].entry)
               && ds1[s].probes == (if s == to then n else ds[s].probes)
               && ds1[s].bound == ds[s].bound && ds1[s].wanted == ds[s].wanted
    requires Raised(S, ds1, ds2, S.home(ds[from].entry.item.key), i, n)
    ensures Moved(S, ds, ds2, to, ds[from].entry.item, n, i)
  {
  }

  /** All is set for the last entry of the chain to move to the empty slot. */
  ghost predicate Ready(S: Space, ds: seq<Desc>, G: Layout, max: nat, c: seq<nat>, slot: nat, n: nat) {
    && Forward(S, ds, G, max, c)
    && var item := ds[c[|c| - 1]].entry.item;
    && item.key in G && At(S, item.key, G[item.key].idx) == c[|c| - 1] && 1 <= G[item.key].idx < n <= max
    && At(S, item.key, n) == slot && MayMove(S, ds, -1, item.key, n)
    && S.home(item.key) < |ds| && Within(ds[S.home(item.key)], n)
    && G[item.key].item == item
  }

  lemma RoomToMove(S: Space, ds: seq<Desc>, ds': seq<Desc>, k: int, slot: int, n: nat)
    requires Room(S, ds, k, slot, -1, n) && Still(ds, ds')
    ensures MayMove(S, ds', -1, k, n) && At(S, k, n) == slot
  {
    KeepsFull(S, ds, ds', k, n - 1);
  }

  method Prepare(ghost S: Space, hf: int -> nat, a: array<Desc>, ghost limit: nat, max: nat, ghost chain: seq<nat>,
                 slot: nat, n: nat, ghost G: Layout)
    returns (max': nat, h: nat)
    requires Tracks(S, hf, a.Length) && Found(S, a[..], G, max, limit, chain, slot, n)
    modifies a
    ensures max <= max' <= limit && Still(old(a[..]), a[..]) && Ready(S, a[..], G, max', chain, slot, n)
    ensures h == S.home(a[chain[|chain| - 1]].entry.item.key)
  {
    LastHeld(S, a[..], G, max, chain);
    ghost var k := a[chain[|chain| - 1]].entry.item.key;
    h := FirstOffset(S, hf, a.Length, slot, n, S.home(k));
    max' := BoundSet(a, max, h, n);
    Remark(S, old(a[..]), a[..], G, max, max', chain);
    RoomToMove(S, old(a[..]), a[..], k, slot, n);
  }

  /** The last entry of the chain moves to the empty slot. */
  method MoveLast(ghost S: Space, hf: int -> nat, a: array<Desc>, ghost max: nat, chain: seq<nat>,
                  slot: nat, n: nat, h: nat, ghost G: Layout)
    returns (ghost G': Layout)
    requires Tracks(S, hf, a.Length) && Ready(S, a[..], G, max, chain, slot, n)
    requires h == S.home(a[chain[|chain| - 1]].entry.item.key)
    modifies a
    ensures Backward(S, a[..], G', max, chain)
    ensures Keeps(old(a[..]), a[..]) && SameItems(G, G')
  {
    var cur := chain[|chain| - 1];
    ghost var ds, item := a[..], a[cur].entry.item;
    Relocate(S, hf, a, cur, slot, n, h, cur, G[item.key].idx);
    MovedKeeps(S, ds, a[..], slot, item, n, G[item.key].idx);
    Settle(S, ds, a[..], G, max, chain, item, n);
    G' := G[item.key := Spot(item, n)];
  }

  /** The entry before the hole moves into it; its own slot becomes the hole. */
  method MoveBack(ghost S: Space, hf: int -> nat, a: array<Desc>, ghost max: nat, chain: seq<nat>, ghost G: Layout)
    returns (ghost G': Layout)
    requires Tracks(S, hf, a.Length) && Backward(S, a[..], G, max, chain) && |chain| > 1
    modifies a
    ensures Backward(S, a[..], G', max, chain[..|chain| - 1])
    ensures Keeps(old(a[..]), a[..]) && SameItems(G, G')
  {
    var cur, prev := chain[|chain| - 1], chain[|chain| - 2];
    ghost var ds := a[..];
    HoleLink(S, ds, G, max, chain);
    ghost var item := a[prev].entry.item;
    var n := a[cur].probes;
    var h := FirstOffset(S, hf, a.Length, cur, n, S.home(item.key));
    Relocate(S, hf, a, prev, cur, n, h, cur, G[item.key].idx);
    MovedKeeps(S, ds, a[..], cur, item, n, G[item.key].idx);
    Unwind(S, ds, a[..], G, max, chain, item);
    G' := G[item.key := Spot(item, n)];
  }

  lemma HoleLink(S: Space, ds: seq<Desc>, G: Layout, max: nat, c: seq<nat>)
    requires Backward(S, ds, G, max, c) && |c| > 1
    ensures Link(S, ds, G, max, c[|c| - 2], c[|c| - 1])
    ensures ds[c[|c| - 2]].entry == Full(G[ds[c[|c| - 2]].entry.item.key].item)
    ensures 1 <= G[ds[c[|c| - 2]].entry.item.key].idx && c[|c| - 2] != c[|c| - 1]
  {
    assert LinkAt(S, ds, G, max, c, |c| - 2);
    var k := ds[c[|c| - 2]].entry.item.key;
    assert PlacedAt(S, ds, k, G[k]);
  }

  /** Moves the remaining entries of the chain, the last one first. */
  method MoveRest(ghost S: Space, hf: int -> nat, a: array<Desc>, ghost max: nat, chain: seq<nat>, ghost G0: Layout)
    returns (ghost G: Layout)
    requires Tracks(S, hf, a.Length) && Backward(S, a[..], G0, max, chain)
    modifies a
    ensures Backward(S, a[..], G, max, [chain[0]])
    ensures Keeps(old(a[..]), a[..]) && SameItems(G0, G)
  {
    var c := chain;
    G := G0;
    while |c| > 1
      invariant |c| > 0 && c[0] == chain[0] && Backward(S, a[..], G, max, c)
      invariant Keeps(old(a[..]), a[..]) && SameItems(G0, G)
    {
      ghost var ds, G1 := a[..], G;
      G := MoveBack(S, hf, a, max, c, G);
      SameItemsTrans(G0, G1, G);
      KeepsTrans(old(a[..]), ds, a[..]);
      c := c[..|c| - 1];
    }
    assert c == [chain[0]];
  }

  lemma StillKeeps(ds: seq<Desc>, ds1: seq<Desc>, ds2: seq<Desc>)
    requires Still(ds, ds1) && Keeps(ds1, ds2)
    ensures Keeps(ds, ds2)
  {
  }

  /** Moves every entry of the chain. */
  method MoveChain(ghost S: Space, hf: int -> nat, a: array<Desc>, ghost limit: nat, max0: nat, chain: seq<nat>,
                   slot: nat, n: nat, ghost G0: Layout)
    returns (max: nat, ghost G: Layout)
    requires Tracks(S, hf, a.Length) && Found(S, a[..], G0, max0, limit, chain, slot, n)
    modifies a
    ensures max0 <= max <= limit && |chain| > 0 && Backward(S, a[..], G, max, [chain[0]])
    ensures Keeps(old(a[..]), a[..]) && SameItems(G0, G)
  {
    var h;
    max, h := Prepare(S, hf, a, limit, max0, chain, slot, n, G0);
    ghost var ds := a[..];
    ghost var G1 := MoveLast(S, hf, a, max, chain, slot, n, h, G0);
    StillKeeps(old(a[..]), ds, a[..]);
    ghost var ds1 := a[..];
    G := MoveRest(S, hf, a, max, chain, G1);
    SameItemsTrans(G0, G1, G);
    KeepsTrans(old(a[..]), ds1, a[..]);
  }

  /** Displaces the entry of slot `first0`, and whatever that displaces in turn, so that the slot
      becomes a hole for the caller to fill. When some entry of the chain finds no slot within the
      probe limit no entry has moved. */
  method Displace(ghost S: Space, hf: int -> nat, a: array<Desc>, limit: nat, max0: nat, first0: nat,
                  ghost G0: Layout)
    returns (ok: bool, max: nat, ghost G: Layout)
    requires Tracks(S, hf, a.Length) && Good(S, a[..], G0, max0) && |G0| < a.Length && max0 <= limit
    requires first0 < a.Length && a[first0].entry.Full?
    modifies a
    ensures !ok ==> Still(old(a[..]), a[..]) && limit <= |G0|
    ensures ok ==> max0 <= max <= limit && Backward(S, a[..], G, max, [first0])
    ensures ok ==> Keeps(old(a[..]), a[..]) && SameItems(G0, G)
  {
    var chain, slot, n;
    G := G0;
    ok, max, chain, slot, n := FindChain(S, hf, a, limit, max0, first0, G);
    if ok {
      ghost var ds := a[..];
      max, G := MoveChain(S, hf, a, limit, max, chain, slot, n, G);
      StillKeeps(old(a[..]), ds, a[..]);
    }
  }
}
