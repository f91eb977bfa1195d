/**
 What the slots of a Robin Hood map mean.

 The theory needs of the probe sequence only that its first `cap` probes visit distinct slots and
 that a slot and a probe number determine the home. A layout G gives, for every key held, the
 stored item and the probe number at which it sits. While entries are being moved one slot may be
 a hole: it still holds a stale entry that the layout no longer places there.
 */
module RhsLayout {
  import opened Internal
  import opened RhsProbe

  datatype Entry = Empty | Full(item: Item)

  datatype Desc = Desc(probes: nat, wanted: nat, bound: nat, inRh: bool, entry: Entry)

  datatype Spot = Spot(item: Item, idx: nat)

  type Layout = map<int, Spot>

  /** The capacity, the home slot of every key, and the slot of every probe from every home. The
      first `cap` probes from a home have distinct slots because `probe` gives the probe number
      back; a slot and a probe number determine the home because `start` gives the home back. */
  datatype Space = Space(cap: nat, home: int -> nat, slot: (nat, nat) -> nat,
                         probe: (nat, nat) -> nat, start: (nat, nat) -> nat)

  ghost predicate Fair(S: Space) {
    && S.cap > 0
    && (forall k :: S.home(k) < S.cap)
    && (forall h: nat :: S.slot(h, 1) == h)
    && (forall h: nat, j: nat {:trigger S.slot(h, j)} :: h < S.cap ==> S.slot(h, j) < S.cap)
    && (forall h: nat, j: nat {:trigger S.slot(h, j)} ::
          h < S.cap && 1 <= j ==> S.start(S.slot(h, j), j) == h)
    && (forall h: nat, j: nat {:trigger S.slot(h, j)} ::
          h < S.cap && 1 <= j <= S.cap ==> S.probe(h, S.slot(h, j)) == j)
    && (forall s: nat, j: nat {:trigger S.start(s, j)} ::
          s < S.cap && 1 <= j ==> S.start(s, j) < S.cap && S.slot(S.start(s, j), j) == s)
  }

  /** S holds the sequences of a map of capacity cap with hash function hf. */
  ghost predicate Tracks(S: Space, hf: int -> nat, cap: nat) {
    && Capacity(cap) && Fair(S) && S.cap == cap >= 8
    && (forall h: nat, j: nat {:trigger Slot(cap, h, j)} :: S.slot(h, j) == Slot(cap, h, j))
    && (forall k: int {:trigger hf(k)} :: S.home(k) == hf(k) % cap)
  }

  ghost function ProbeOf(cap: nat, h: nat, s: nat): nat {
    if exists j: nat :: 1 <= j <= cap && Slot(cap, h, j) == s
    then var j: nat :| 1 <= j <= cap && Slot(cap, h, j) == s; j
    else 0
  }

  ghost function SpaceOf(hf: int -> nat, cap: nat): Space {
    Space(cap, k => if cap == 0 then 0 else hf(k) % cap, (h, j) => Slot(cap, h, j),
          (h, s) => ProbeOf(cap, h, s), (s, j) => Home(cap, s, j))
  }

  /** Every capacity and hash function has such sequences. */
  lemma SpaceTracks(hf: int -> nat, cap: nat)
    requires Capacity(cap)
    ensures Tracks(SpaceOf(hf, cap), hf, cap)
  {
    var S := SpaceOf(hf, cap);
    var lines := LinesOf(cap);
    var k := CapacityLines(cap);
    forall h: nat, j: nat | h < cap ensures S.slot(h, j) < cap { SlotInRange(cap, h, j); }
    forall h: nat, j: nat | h < cap && 1 <= j ensures S.start(S.slot(h, j), j) == h {
      HomeOfSlot(cap, h, j);
    }
    forall s: nat, j: nat | s < cap && 1 <= j ensures S.start(s, j) < cap && S.slot(S.start(s, j), j) == s {
      SlotOfHome(cap, s, j);
    }
    forall h: nat, j: nat | h < cap && 1 <= j <= cap ensures S.probe(h, S.slot(h, j)) == j {
      var i := ProbeOf(cap, h, Slot(cap, h, j));
      assert 1 <= i <= cap && Slot(cap, h, i) == Slot(cap, h, j);
      if i < j { SlotsDistinct(cap, h, i, j); }
      if j < i { SlotsDistinct(cap, h, j, i); }
    }
  }

  /** The slot after probe p of the sequence from h. */
  method ProbeNext(ghost S: Space, hf: int -> nat, cap: nat, offset: nat, p: nat, ghost h: nat)
    returns (o: nat)
    requires Tracks(S, hf, cap) && h < cap && p >= 1 && offset == S.slot(h, p)
    ensures o == S.slot(h, p + 1)
  {
    assert offset == Slot(cap, h, p);
    o := Next(cap, offset, p);
    assert o == Slot(cap, h, p + 1);
  }

  /** The slot before probe p + 1 of the sequence from h. */
  method ProbePrev(ghost S: Space, hf: int -> nat, cap: nat, offset: nat, p: nat, ghost h: nat)
    returns (o: nat)
    requires Tracks(S, hf, cap) && h < cap && p >= 1 && offset == S.slot(h, p + 1)
    ensures o == S.slot(h, p)
  {
    ghost var lines := LinesOf(cap);
    SlotInRange(cap, h, p);
    assert offset == Slot(cap, h, p + 1);
    PrevUndoesNext(cap, Slot(cap, h, p), p);
    o := Prev(cap, offset, p);
  }

  /** The slot of probe j in the sequence of key k. */
  function At(S: Space, k: int, j: nat): nat { S.slot(S.home(k), j) }

  /** Key k, placed at probe n, probes past slot s. */
  ghost predicate Passes(S: Space, k: int, n: nat, s: nat) {
    exists j :: 1 <= j < n && At(S, k, j) == s
  }

  ghost function Passers(S: Space, G: Layout, s: nat): set<int> {
    set k | k in G && Passes(S, k, G[k].idx, s)
  }

  ghost predicate IsFull(ds: seq<Desc>, s: nat) { s < |ds| && ds[s].entry.Full? }

  /** The first n probes of key k meet no empty slot. */
  ghost predicate FullTo(S: Space, ds: seq<Desc>, k: int, n: nat) {
    forall j :: 1 <= j <= n ==> IsFull(ds, At(S, k, j))
  }

  lemma FullMore(S: Space, ds: seq<Desc>, k: int, n: nat)
    requires FullTo(S, ds, k, n) && IsFull(ds, At(S, k, n + 1))
    ensures FullTo(S, ds, k, n + 1)
  {
  }

  /** Key k sits where the layout says, behind full slots only. */
  ghost predicate PlacedAt(S: Space, ds: seq<Desc>, k: int, p: Spot) {
    var s := At(S, k, p.idx);
    && 1 <= p.idx <= S.cap && p.item.key == k
    && s < |ds| && ds[s].entry == Full(p.item)
    && FullTo(S, ds, k, p.idx)
  }

  /** The layout has the entry of slot s there. */
  ghost predicate HeldAt(S: Space, ds: seq<Desc>, G: Layout, s: nat) {
    && s < |ds| && ds[s].entry.Full?
    && var k := ds[s].entry.item.key; k in G && At(S, k, G[k].idx) == s
  }

  /** Entries and layout agree, except that slot z, if any, is a hole. */
  ghost predicate Struct(S: Space, ds: seq<Desc>, G: Layout, z: int) {
    && Fair(S) && |ds| == S.cap
    && (forall k {:trigger PlacedAt(S, ds, k, G[k])} ::
          k in G ==> PlacedAt(S, ds, k, G[k]) && At(S, k, G[k].idx) != z)
    && (forall s: nat {:trigger HeldAt(S, ds, G, s)} ::
          s < |ds| && s != z && ds[s].entry.Full? ==> HeldAt(S, ds, G, s))
    && (0 <= z < |ds| ==> ds[z].entry.Full?)
  }

  /** Recorded probe numbers are right outside the slots of C, and empty slots record none. */
  ghost predicate Indexed(S: Space, ds: seq<Desc>, G: Layout, C: set<nat>) {
    && (forall k :: k in G && At(S, k, G[k].idx) < |ds| && At(S, k, G[k].idx) !in C ==>
          ds[At(S, k, G[k].idx)].probes == G[k].idx)
    && (forall s :: 0 <= s < |ds| && ds[s].entry.Empty? ==> ds[s].probes == 0)
  }

  /** The largest value of a bound, which stands for the map's probe maximum. */
  const WORD_MAX := 255

  /** A lookup that trusts the bound reaches probe n. */
  predicate Within(d: Desc, n: nat) { n <= d.bound || d.bound == WORD_MAX }

  /** Probe counts and bounds stay within the maximum. */
  ghost predicate Limited(S: Space, ds: seq<Desc>, G: Layout, max: nat) {
    && |ds| == S.cap && max <= S.cap
    && (forall k :: k in G ==> S.home(k) < |ds| && G[k].idx <= max)
    && (forall s :: 0 <= s < |ds| ==> ds[s].bound <= max && ds[s].bound <= WORD_MAX)
  }

  /** Lookups, cut short by the bound of the home, reach every key. */
  ghost predicate Reachable(S: Space, ds: seq<Desc>, G: Layout) {
    forall k :: k in G ==> S.home(k) < |ds| && Within(ds[S.home(k)], G[k].idx)
  }

  ghost predicate Bounded(S: Space, ds: seq<Desc>, G: Layout, max: nat) {
    Limited(S, ds, G, max) && Reachable(S, ds, G)
  }

  /** `wanted` counts exactly the keys that probe past a slot. */
  ghost predicate Wanted(S: Space, ds: seq<Desc>, G: Layout) {
    forall s: nat {:trigger Passers(S, G, s)} :: s < |ds| ==> ds[s].wanted == |Passers(S, G, s)|
  }

  /** A map whose entries, probe numbers and counters are right, whatever lookups reach. */
  ghost predicate Kept(S: Space, ds: seq<Desc>, G: Layout, max: nat) {
    Struct(S, ds, G, -1) && Indexed(S, ds, G, {}) && Limited(S, ds, G, max) && Wanted(S, ds, G)
  }

  /** A map between operations. */
  ghost predicate Good(S: Space, ds: seq<Desc>, G: Layout, max: nat) {
    Struct(S, ds, G, -1) && Indexed(S, ds, G, {}) && Bounded(S, ds, G, max) && Wanted(S, ds, G)
  }

  // ---- Counting slots ----------------------------------------------------------------------

  ghost function Walk(S: Space, h: nat, n: nat): set<nat> {
    set j | 1 <= j <= n :: S.slot(h, j)
  }

  lemma WalkMore(S: Space, h: nat, n: nat)
    requires Fair(S) && h < S.cap && 1 <= n <= S.cap
    ensures S.slot(h, n) !in Walk(S, h, n - 1) && Walk(S, h, n) == Walk(S, h, n - 1) + {S.slot(h, n)}
  {
    forall j | 1 <= j < n ensures S.slot(h, j) != S.slot(h, n) {
      assert S.probe(h, S.slot(h, j)) == j && S.probe(h, S.slot(h, n)) == n;
    }
    forall s ensures s in Walk(S, h, n) <==> s in Walk(S, h, n - 1) + {S.slot(h, n)} {}
  }

  lemma {:induction false} WalkSize(S: Space, h: nat, n: nat)
    requires Fair(S) && h < S.cap && n <= S.cap
    ensures |Walk(S, h, n)| == n
  {
    if n == 0 {
      assert Walk(S, h, 0) == {};
    } else {
      WalkSize(S, h, n - 1);
      WalkMore(S, h, n);
    }
  }

  ghost function Slots(S: Space, G: Layout): set<nat> { set k | k in G :: At(S, k, G[k].idx) }

  lemma {:induction false} SlotsSize(S: Space, G: Layout)
    ensures |Slots(S, G)| <= |G|
    decreases |G|
  {
    if k :| k in G {
      var rest := G - {k};
      assert G.Keys == rest.Keys + {k};
      assert |G.Keys| == |rest.Keys| + 1;
      SlotsSize(S, rest);
      var more := Slots(S, rest) + {At(S, k, G[k].idx)};
      assert Slots(S, G) <= more;
      SubsetSize(Slots(S, G), more);
    } else {
      assert Slots(S, G) == {};
    }
  }

  /** Full slots along a sequence are at most as many as the keys held. */
  lemma FullPrefix(S: Space, ds: seq<Desc>, G: Layout, k: int, n: nat)
    requires Struct(S, ds, G, -1) && n <= S.cap && FullTo(S, ds, k, n)
    ensures n <= |G|
  {
    var walk, slots := Walk(S, S.home(k), n), Slots(S, G);
    WalkSize(S, S.home(k), n);
    SlotsSize(S, G);
    forall s | s in walk ensures s in slots {
      var j :| 1 <= j <= n && S.slot(S.home(k), j) == s;
      assert At(S, k, j) == s;
      assert IsFull(ds, s);
      assert HeldAt(S, ds, G, s);
    }
    SubsetSize(walk, slots);
  }

  // ---- Moving one key ------------------------------------------------------------------------

  /** ds with an item and its probe number written to slot s. */
  function Put(ds: seq<Desc>, s: nat, item: Item, n: nat): seq<Desc>
    requires s < |ds|
  {
    ds[s := ds[s].(entry := Full(item), probes := n)]
  }

  /** The slot a key vacates when it moves or leaves. */
  ghost function Vacated(S: Space, G: Layout, k: int): int {
    if k in G then At(S, k, G[k].idx) else -1
  }

  /** Probe n of the key is the hole or an empty slot, behind full slots only. */
  ghost predicate MayMove(S: Space, ds: seq<Desc>, z: int, k: int, n: nat) {
    && 1 <= n <= S.cap && FullTo(S, ds, k, n - 1)
    && (At(S, k, n) == z || (z == -1 && At(S, k, n) < |ds| && ds[At(S, k, n)].entry.Empty?))
  }

  /** Writing a key to the hole or an empty slot of its sequence leaves its old slot, if it had
      one, as the hole. */
  lemma MoveStruct(S: Space, ds: seq<Desc>, G: Layout, z: int, item: Item, n: nat)
    requires Struct(S, ds, G, z) && MayMove(S, ds, z, item.key, n)
    ensures At(S, item.key, n) < |ds|
    ensures Struct(S, Put(ds, At(S, item.key, n), item, n), G[item.key := Spot(item, n)],
                   Vacated(S, G, item.key))
  {
    var k, t := item.key, At(S, item.key, n);
    var ds', G' := Put(ds, t, item, n), G[k := Spot(item, n)];
    var z' := Vacated(S, G, k);
    forall s | IsFull(ds, s) ensures IsFull(ds', s) {}
    if k in G { assert PlacedAt(S, ds, k, G[k]); }
    forall k' | k' in G' ensures PlacedAt(S, ds', k', G'[k']) && At(S, k', G'[k'].idx) != z' {
      if k' == k {
        assert FullTo(S, ds', k, n);
      } else {
        assert PlacedAt(S, ds, k', G[k']);
        assert IsFull(ds, At(S, k', G[k'].idx));
        assert FullTo(S, ds', k', G[k'].idx);
      }
    }
    forall s: nat | s < |ds'| && s != z' && ds'[s].entry.Full? ensures HeldAt(S, ds', G', s) {
      if s != t { assert HeldAt(S, ds, G, s); }
    }
  }

  lemma MoveIndexed(S: Space, ds: seq<Desc>, G: Layout, z: int, C: set<nat>, item: Item, n: nat)
    requires Struct(S, ds, G, z) && Indexed(S, ds, G, C) && MayMove(S, ds, z, item.key, n)
    ensures At(S, item.key, n) < |ds|
    ensures Indexed(S, Put(ds, At(S, item.key, n), item, n), G[item.key := Spot(item, n)],
                    C - {At(S, item.key, n)})
  {
    var k, t := item.key, At(S, item.key, n);
    var ds', G' := Put(ds, t, item, n), G[k := Spot(item, n)];
    forall k' | k' in G' && k' != k ensures At(S, k', G'[k'].idx) != t {
      assert PlacedAt(S, ds, k', G[k']);
    }
  }

  /** Slots are told apart by what the layout places there. */
  lemma SameSlot(S: Space, ds: seq<Desc>, G: Layout, z: int, k: int, k': int)
    requires Struct(S, ds, G, z) && k in G && k' in G && At(S, k, G[k].idx) == At(S, k', G[k'].idx)
    ensures k == k'
  {
    assert PlacedAt(S, ds, k, G[k]) && PlacedAt(S, ds, k', G[k']);
  }

  // ---- Counting the keys that pass a slot -------------------------------------------------------

  /** Slot s is one of the probes i .. j - 1 of the sequence from h. */
  ghost predicate Between(S: Space, h: nat, i: nat, j: nat, s: nat) {
    exists m :: i <= m < j && S.slot(h, m) == s
  }

  /** ds' is ds with `wanted` one higher on the probes i .. j - 1 of the sequence from h. */
  ghost predicate Raised(S: Space, ds: seq<Desc>, ds': seq<Desc>, h: nat, i: nat, j: nat) {
    && |ds'| == |ds|
    && forall s :: 0 <= s < |ds| ==>
         ds'[s] == ds[s].(wanted := ds[s].wanted + (if Between(S, h, i, j, s) then 1 else 0))
  }

  /** The counters of ds' are so raised, whatever else differs. */
  ghost predicate Recounted(S: Space, ds: seq<Desc>, ds': seq<Desc>, h: nat, i: nat, j: nat) {
    && |ds'| == |ds|
    && forall s :: 0 <= s < |ds| ==>
         ds'[s].wanted == ds[s].wanted + (if Between(S, h, i, j, s) then 1 else 0)
  }

  /** Probing past s before probe i, or from probe i on, but not both. */
  lemma PassesSplit(S: Space, k: int, i: nat, n: nat, s: nat)
    requires Fair(S) && 1 <= i <= n <= S.cap
    ensures Passes(S, k, n, s) <==> Passes(S, k, i, s) || Between(S, S.home(k), i, n, s)
    ensures !(Passes(S, k, i, s) && Between(S, S.home(k), i, n, s))
  {
    var h := S.home(k);
    if Between(S, h, i, n, s) {
      var m :| i <= m < n && S.slot(h, m) == s;
      assert At(S, k, m) == s;
    }
    if Passes(S, k, n, s) && !Between(S, h, i, n, s) {
      var j :| 1 <= j < n && At(S, k, j) == s;
      assert j < i;
    }
  }

  /** Moving key k from probe i to probe j adds it to the passers of the slots in between. */
  lemma PassersGrow(S: Space, G: Layout, k: int, p: Spot, i: nat, s: nat)
    requires Fair(S) && 1 <= i <= p.idx <= S.cap
    requires if k in G then i == G[k].idx else i == 1
    ensures |Passers(S, G[k := p], s)| ==
            |Passers(S, G, s)| + (if Between(S, S.home(k), i, p.idx, s) then 1 else 0)
  {
    var before, after := Passers(S, G, s), Passers(S, G[k := p], s);
    PassesSplit(S, k, i, p.idx, s);
    if Between(S, S.home(k), i, p.idx, s) {
      assert after == before + {k};
    } else {
      assert after == before;
    }
  }

  lemma CountedAfterRaise(S: Space, ds: seq<Desc>, ds': seq<Desc>, G: Layout, k: int, p: Spot, i: nat)
    requires Fair(S) && Wanted(S, ds, G)
    requires 1 <= i <= p.idx <= S.cap && (if k in G then i == G[k].idx else i == 1)
    requires Recounted(S, ds, ds', S.home(k), i, p.idx)
    ensures Wanted(S, ds', G[k := p])
  {
    forall s | 0 <= s < |ds'| ensures ds'[s].wanted == |Passers(S, G[k := p], s)| {
      PassersGrow(S, G, k, p, i, s);
    }
  }

  /** The converse: the layout before the move, once the counters have been lowered. */
  lemma CountedAfterLower(S: Space, ds: seq<Desc>, ds': seq<Desc>, G: Layout, k: int, p: Spot, i: nat)
    requires Fair(S) && Wanted(S, ds, G[k := p])
    requires 1 <= i <= p.idx <= S.cap && (if k in G then i == G[k].idx else i == 1)
    requires Recounted(S, ds', ds, S.home(k), i, p.idx)
    ensures Wanted(S, ds', G)
  {
    forall s | 0 <= s < |ds'| ensures ds'[s].wanted == |Passers(S, G, s)| {
      PassersGrow(S, G, k, p, i, s);
    }
  }

  /** A key on the way past slot s is counted there. */
  lemma CountedPasser(S: Space, ds: seq<Desc>, G: Layout, k: int, j: nat)
    requires Fair(S) && |ds| == S.cap && Wanted(S, ds, G) && k in G && 1 <= j < G[k].idx
    ensures At(S, k, j) < |ds| && ds[At(S, k, j)].wanted > 0
  {
    assert k in Passers(S, G, At(S, k, j));
  }

  lemma SomePasser(S: Space, ds: seq<Desc>, G: Layout, s: nat) returns (k: int, j: nat)
    requires Wanted(S, ds, G) && s < |ds| && ds[s].wanted > 0
    ensures k in G && 1 <= j < G[k].idx && At(S, k, j) == s
  {
    k :| k in Passers(S, G, s);
    j :| 1 <= j < G[k].idx && At(S, k, j) == s;
  }
}
