/** Looking for a key, for room for a key, and for the next slot of a displaced key. */
module RhsSearch {
  import opened RhsProbe
  import opened RhsLayout

  method HomeSlot(ghost S: Space, hf: int -> nat, cap: nat, key: int) returns (h: nat)
    requires Tracks(S, hf, cap)
    ensures h == S.home(key) && h < cap
  {
    h := hf(key) % cap;
  }

  /** The home of the sequence whose n-th probe is slot start. */
  method FirstOffset(ghost S: Space, hf: int -> nat, cap: nat, start: nat, n: nat, ghost home: nat)
    returns (h: nat)
    requires Tracks(S, hf, cap) && home < cap && n >= 1 && start == S.slot(home, n)
    ensures h == home
  {
    assert start == Slot(cap, home, n);
    ghost var lines := LinesOf(cap);
    SlotInRange(cap, home, n);
    HomeOfSlot(cap, home, n);
    h := GetFirstOffset(cap, start, n);
  }

  /** How far a lookup from home slot d probes. */
  function BoundGet(d: Desc, max: nat): nat { if d.bound == WORD_MAX then max else d.bound }

  /** The first p probes of the key meet other keys only. */
  ghost predicate Missed(S: Space, ds: seq<Desc>, key: int, p: nat) {
    forall j :: 1 <= j <= p ==>
      IsFull(ds, At(S, key, j)) && ds[At(S, key, j)].entry.item.key != key
  }

  lemma MissedMore(S: Space, ds: seq<Desc>, key: int, p: nat)
    requires Missed(S, ds, key, p)
    requires IsFull(ds, At(S, key, p + 1)) && ds[At(S, key, p + 1)].entry.item.key != key
    ensures Missed(S, ds, key, p + 1)
  {
  }

  /** A key that lookups reach lies ahead of the probes that missed it, behind full slots and within
      the bound. */
  lemma StillAhead(S: Space, ds: seq<Desc>, G: Layout, max: nat, key: int, p: nat)
    requires Struct(S, ds, G, -1) && Limited(S, ds, G, max) && Missed(S, ds, key, p)
    ensures key in G && Within(ds[S.home(key)], G[key].idx) ==>
              IsFull(ds, At(S, key, p + 1)) && p < BoundGet(ds[S.home(key)], max)
  {
    if key in G {
      assert PlacedAt(S, ds, key, G[key]);
      assert IsFull(ds, At(S, key, G[key].idx));
    }
  }

  lemma FoundHeld(S: Space, ds: seq<Desc>, G: Layout, key: int, j: nat)
    requires Struct(S, ds, G, -1) && IsFull(ds, At(S, key, j)) && ds[At(S, key, j)].entry.item.key == key
    ensures key in G && At(S, key, G[key].idx) == At(S, key, j)
    ensures G[key].item == ds[At(S, key, j)].entry.item
  {
    assert HeldAt(S, ds, G, At(S, key, j));
    assert PlacedAt(S, ds, key, G[key]);
  }

  lemma FoundWithin(S: Space, ds: seq<Desc>, G: Layout, max: nat, key: int, j: nat)
    requires Struct(S, ds, G, -1) && Limited(S, ds, G, max) && 1 <= j <= BoundGet(ds[S.home(key)], max)
    requires IsFull(ds, At(S, key, j)) && ds[At(S, key, j)].entry.item.key == key
    ensures key in G && G[key].idx == j && G[key].item == ds[At(S, key, j)].entry.item
    ensures Within(ds[S.home(key)], j)
  {
    FoundHeld(S, ds, G, key, j);
    assert PlacedAt(S, ds, key, G[key]);
  }

  /** Lookup of a key: a key is found if and only if it is held within the bound of its home. */
  method Find(ghost S: Space, hf: int -> nat, a: array<Desc>, max: nat, key: int, ghost G: Layout)
    returns (slot: int, found: Entry)
    requires Tracks(S, hf, a.Length) && Struct(S, a[..], G, -1) && Limited(S, a[..], G, max)
    ensures if key in G && Within(a[S.home(key)], G[key].idx)
            then slot == At(S, key, G[key].idx) && found == Full(G[key].item) else found == Empty
  {
    var h := HomeSlot(S, hf, a.Length, key);
    var limit := BoundGet(a[h], max);
    var offset, probes := h, 0;
    while probes < limit
      invariant probes <= limit && offset == At(S, key, probes + 1) && Missed(S, a[..], key, probes)
    {
      probes := probes + 1;
      var k := a[offset].entry;
      if k.Empty? {
        StillAhead(S, a[..], G, max, key, probes - 1);
        return offset, Empty;
      }
      if k.item.key == key {
        FoundWithin(S, a[..], G, max, key, probes);
        return offset, k;
      }
      MissedMore(S, a[..], key, probes - 1);
      offset := ProbeNext(S, hf, a.Length, offset, probes, h);
    }
    StillAhead(S, a[..], G, max, key, probes);
    return -1, Empty;
  }

  /** An empty slot, or one whose entry is closer to its home than the key would be. */
  ghost predicate Room(S: Space, ds: seq<Desc>, key: int, slot: int, first: int, n: nat) {
    && 1 <= n <= S.cap && FullTo(S, ds, key, n - 1)
    && (if first != -1 then
          first == At(S, key, n) && IsFull(ds, first) && ds[first].probes < n
        else
          slot == At(S, key, n) && slot < |ds| && ds[slot].entry.Empty?)
  }

  lemma RoomHere(S: Space, ds: seq<Desc>, key: int, p: nat, n: nat)
    requires Fair(S) && |ds| == S.cap && 1 <= n <= p + 1 && n <= S.cap && Missed(S, ds, key, p)
    ensures var s := At(S, key, n);
            && (ds[s].entry.Empty? ==> Room(S, ds, key, s, -1, n))
            && (ds[s].entry.Full? && ds[s].probes < n ==> Room(S, ds, key, -1, s, n))
  {
  }

  /** Probe j of the key meets an entry that the key may displace. */
  ghost predicate Displaceable(S: Space, ds: seq<Desc>, key: int, j: nat) {
    At(S, key, j) < |ds| && !ds[At(S, key, j)].inRh && ds[At(S, key, j)].probes < j
  }

  ghost predicate NoneDisplaceable(S: Space, ds: seq<Desc>, key: int, p: nat) {
    forall j: nat :: 1 <= j <= p ==> !Displaceable(S, ds, key, j)
  }

  /** The key is held past the bound of its home, and within the bound there is an entry that it may
      displace: an insertion stops there without having seen the key. */
  ghost predicate Hidden(S: Space, ds: seq<Desc>, G: Layout, max: nat, key: int) {
    && key in G && S.home(key) < |ds| && !Within(ds[S.home(key)], G[key].idx)
    && !NoneDisplaceable(S, ds, key, BoundGet(ds[S.home(key)], max))
  }

  /** A held key lies ahead of the probes that missed it, behind full slots. */
  lemma HeldAhead(S: Space, ds: seq<Desc>, G: Layout, key: int, p: nat)
    requires Struct(S, ds, G, -1) && Missed(S, ds, key, p)
    ensures key in G ==> p < G[key].idx && IsFull(ds, At(S, key, p + 1))
  {
    if key in G {
      assert PlacedAt(S, ds, key, G[key]);
      assert IsFull(ds, At(S, key, G[key].idx));
    }
  }

  /** Slot `first`, at probe n of those up to p, is the first with an entry that the key may displace. */
  ghost predicate Candidate(S: Space, ds: seq<Desc>, key: int, first: int, n: nat, p: nat) {
    1 <= n <= p && first == At(S, key, n) && Displaceable(S, ds, key, n) && NoneDisplaceable(S, ds, key, n - 1)
  }

  /** After p probes: the key has not been met; `first` is the candidate, if there is one; and there was
      none within the bound if the search has gone past it. */
  ghost predicate Searched(S: Space, ds: seq<Desc>, key: int, first: int, n: nat, p: nat, bound: nat) {
    && Missed(S, ds, key, p)
    && (if first == -1 then NoneDisplaceable(S, ds, key, p) else Candidate(S, ds, key, first, n, p))
    && (p > bound ==> NoneDisplaceable(S, ds, key, bound))
  }

  /** The next slot is full, and is the candidate if it is the first that the key may displace. */
  ghost predicate Chosen(S: Space, ds: seq<Desc>, key: int, first: int, n: nat, p: nat, first': int, n': nat) {
    if first == -1 && Displaceable(S, ds, key, p + 1) then first' == At(S, key, p + 1) && n' == p + 1
    else first' == first && n' == n
  }

  lemma Onward(S: Space, ds: seq<Desc>, G: Layout, key: int, first: int, n: nat, p: nat, bound: nat,
               first': int, n': nat)
    requires Struct(S, ds, G, -1) && p < S.cap && Searched(S, ds, key, first, n, p, bound)
    requires p == bound ==> first == -1
    requires IsFull(ds, At(S, key, p + 1)) && ds[At(S, key, p + 1)].entry.item.key != key
    requires Chosen(S, ds, key, first, n, p, first', n')
    ensures Searched(S, ds, key, first', n', p + 1, bound) && p + 1 <= |G|
  {
    MissedMore(S, ds, key, p);
    FullPrefix(S, ds, G, key, p + 1);
  }

  /** What probing for an insertion finds: a held key unless it is hidden; otherwise a place for it
      within the probe limit, or no place, and then at least `limit` keys are held. */
  ghost predicate RoomFor(S: Space, ds: seq<Desc>, G: Layout, max: nat, limit: nat, key: int,
                          slot: int, first: int, n: nat, found: Entry)
  {
    && found == (if key in G && !Hidden(S, ds, G, max, key) then Full(G[key].item) else Empty)
    && (found.Full? ==> slot != -1)
    && (found.Empty? && !(slot == -1 && first == -1) ==>
          Room(S, ds, key, slot, first, n) && n <= limit && NoneDisplaceable(S, ds, key, n - 1))
    && (slot == -1 && first == -1 ==> limit <= |G|)
  }

  /** The search stops at the bound with a candidate, or at a limit that no held key is past. */
  lemma StopsAt(S: Space, ds: seq<Desc>, G: Layout, max: nat, limit: nat, key: int, first: int, n: nat, p: nat)
    requires Struct(S, ds, G, -1) && Limited(S, ds, G, max) && p <= |G| && p <= limit && max <= limit
    requires |G| < S.cap
    requires Searched(S, ds, key, first, n, p, BoundGet(ds[S.home(key)], max))
    requires p == limit || (first != -1 && p == BoundGet(ds[S.home(key)], max))
    ensures RoomFor(S, ds, G, max, limit, key, -1, first, if first == -1 then p + 1 else n, Empty)
  {
    HeldAhead(S, ds, G, key, p);
    if first != -1 { RoomHere(S, ds, key, p, n); }
  }

  /** At an empty slot: the key is not held and may go there, or displace the candidate. */
  lemma EmptyRoom(S: Space, ds: seq<Desc>, G: Layout, max: nat, limit: nat, key: int, first: int, n: nat, p: nat,
                  bound: nat)
    requires Struct(S, ds, G, -1) && p < S.cap && p < limit && Searched(S, ds, key, first, n, p, bound)
    requires At(S, key, p + 1) < |ds| && ds[At(S, key, p + 1)].entry.Empty?
    ensures RoomFor(S, ds, G, max, limit, key, At(S, key, p + 1), first, if first == -1 then p + 1 else n, Empty)
  {
    HeldAhead(S, ds, G, key, p);
    RoomHere(S, ds, key, p, if first == -1 then p + 1 else n);
  }

  /** A key met at the next probe is within the bound, or nothing within the bound stops the search. */
  lemma Met(S: Space, ds: seq<Desc>, G: Layout, max: nat, limit: nat, key: int, first: int, n: nat, p: nat,
            first': int, n': nat)
    requires Struct(S, ds, G, -1) && Limited(S, ds, G, max)
    requires Searched(S, ds, key, first, n, p, BoundGet(ds[S.home(key)], max))
    requires p == BoundGet(ds[S.home(key)], max) ==> first == -1
    requires IsFull(ds, At(S, key, p + 1)) && ds[At(S, key, p + 1)].entry.item.key == key
    ensures RoomFor(S, ds, G, max, limit, key, At(S, key, p + 1), first', n', ds[At(S, key, p + 1)].entry)
  {
    FoundHeld(S, ds, G, key, p + 1);
    if p < BoundGet(ds[S.home(key)], max) { FoundWithin(S, ds, G, max, key, p + 1); }
  }

  /** Where lookups reach every key, nothing is hidden. */
  lemma NoneHidden(S: Space, ds: seq<Desc>, G: Layout, max: nat, key: int)
    requires Bounded(S, ds, G, max)
    ensures !Hidden(S, ds, G, max, key)
  {
  }

  /** One probe for an insertion, after p probes with candidate `first`. */
  method ProbeRoom(ghost S: Space, a: array<Desc>, ghost max: nat, key: int, offset: nat, p: nat, first: int, n: nat,
                   ghost G: Layout, ghost limit: nat)
    returns (done: bool, first': int, n': nat, found: Entry)
    requires Struct(S, a[..], G, -1) && Limited(S, a[..], G, max) && p < limit && p <= |G| < a.Length == S.cap
    requires offset == At(S, key, p + 1) && offset < a.Length
    requires Searched(S, a[..], key, first, n, p, BoundGet(a[S.home(key)], max))
    requires p == BoundGet(a[S.home(key)], max) ==> first == -1
    ensures done ==> RoomFor(S, a[..], G, max, limit, key, offset, first', n', found)
    ensures !done ==> p + 1 <= |G| && Searched(S, a[..], key, first', n', p + 1, BoundGet(a[S.home(key)], max))
  {
    ghost var bound := BoundGet(a[S.home(key)], max);
    first', n', found := first, n, a[offset].entry;
    if found.Empty? {
      EmptyRoom(S, a[..], G, max, limit, key, first, n, p, bound);
      return true, first, if first == -1 then p + 1 else n, found;
    }
    if first == -1 && !a[offset].inRh && a[offset].probes < p + 1 {
      first', n' := offset, p + 1;
    }
    if found.item.key == key {
      Met(S, a[..], G, max, limit, key, first, n, p, first', n');
      return true, first', n', found;
    }
    Onward(S, a[..], G, key, first, n, p, bound, first', n');
    done := false;
  }

  /** Probing for an insertion. Without a match, `first` is the first slot of the sequence whose
      entry the key may displace, or -1, and then `slot` is an empty slot; both are -1 when the
      probe limit was hit. A held key is found unless it is hidden. */
  method FindRoom(ghost S: Space, hf: int -> nat, a: array<Desc>, max: nat, limit: nat, key: int,
                  ghost G: Layout)
    returns (slot: int, first: int, n: nat, found: Entry)
    requires Tracks(S, hf, a.Length) && Struct(S, a[..], G, -1) && Limited(S, a[..], G, max)
    requires max <= limit && |G| < a.Length
    ensures RoomFor(S, a[..], G, max, limit, key, slot, first, n, found)
  {
    ghost var ds := a[..];
    var h := HomeSlot(S, hf, a.Length, key);
    var bound := BoundGet(a[h], max);
    var probeLimit := bound;
    var offset, probes := h, 0;
    first, n := -1, 0;
    while true
      invariant probes <= |G| && probes <= limit && offset == At(S, key, probes + 1)
      invariant Searched(S, ds, key, first, n, probes, bound)
      invariant probeLimit == if probes <= bound then bound else limit
      decreases limit - probes
    {
      if probes == probeLimit {
        if probeLimit == limit || first != -1 {
          StopsAt(S, ds, G, max, limit, key, first, n, probes);
          if first == -1 { n := probes + 1; }
          return -1, first, n, Empty;
        }
        probeLimit := limit;
      }
      var done;
      done, first, n, found := ProbeRoom(S, a, max, key, offset, probes, first, n, G, limit);
      if done {
        return offset, first, n, found;
      }
      probes := probes + 1;
      offset := ProbeNext(S, hf, a.Length, offset, probes, h);
    }
  }

  /** The next slot of the sequence of key k after its present probe m that is empty or holds an entry
      which k may displace and which is not already being displaced. */
  method FindNext(ghost S: Space, hf: int -> nat, a: array<Desc>, limit: nat, from: nat, m: nat,
                  ghost k: int, ghost G: Layout)
    returns (slot: int, first: int, n: nat)
    requires Tracks(S, hf, a.Length) && Struct(S, a[..], G, -1) && |G| < a.Length
    requires 1 <= m <= limit && from == At(S, k, m) && m <= a.Length && FullTo(S, a[..], k, m)
    ensures !(slot == -1 && first == -1) ==> m < n <= limit && Room(S, a[..], k, slot, first, n)
    ensures forall j: nat :: m < j < n ==> !Displaceable(S, a[..], k, j)
    ensures first != -1 ==> !a[first].inRh
    ensures slot == -1 && first == -1 ==> limit <= |G|
  {
    var offset := ProbeNext(S, hf, a.Length, from, m, S.home(k));
    var probes := m;
    FullPrefix(S, a[..], G, k, m);
    while probes < limit
      invariant m <= probes <= limit && probes <= |G|
      invariant offset == At(S, k, probes + 1) && FullTo(S, a[..], k, probes)
      invariant forall j: nat :: m < j <= probes ==> !Displaceable(S, a[..], k, j)
    {
      probes := probes + 1;
      if a[offset].entry.Empty? {
        return offset, -1, probes;
      }
      assert FullTo(S, a[..], k, probes);
      if !a[offset].inRh && a[offset].probes < probes {
        return offset, offset, probes;
      }
      FullPrefix(S, a[..], G, k, probes);
      offset := ProbeNext(S, hf, a.Length, offset, probes, S.home(k));
    }
    return -1, -1, probes + 1;
  }
}
