/** The Robin Hood hash set: insertion, lookup, removal and growth against a map of items. */
module RhsMap {
  import opened Internal
  import opened RhsProbe
  import opened RhsLayout
  import opened RhsCounters
  import opened RhsSearch
  import opened RhsDisplace
  import opened RhsDelete
  import opened RhsGrow

  // ---- Insertion without growth ------------------------------------------------------------------

  datatype Tried = Present | Inserted | NoRoom

  ghost predicate Adds(G: Layout, G': Layout, item: Item) {
    && (forall k :: k in G' <==> k in G || k == item.key)
    && forall k :: k in G' ==> G'[k].item == if k == item.key then item else G[k].item
  }

  lemma GoodMarked(S: Space, ds: seq<Desc>, ds': seq<Desc>, G: Layout, max: nat, max': nat)
    requires Good(S, ds, G, max) && Marked(ds, ds', -1, 0, max') && max <= max' <= S.cap
    ensures Good(S, ds', G, max')
  {
    MarkedStruct(S, ds, ds', G, max, -1, 0, max');
  }

  /** A map whose slot z, if not -1, is a hole. */
  ghost predicate Open(S: Space, ds: seq<Desc>, G: Layout, max: nat, z: int) {
    Struct(S, ds, G, z) && Indexed(S, ds, G, {}) && Bounded(S, ds, G, max) && Wanted(S, ds, G)
  }

  /** The new item goes to the hole or to an empty slot. */
  method PutAt(ghost S: Space, hf: int -> nat, a: array<Desc>, ghost max: nat, item: Item, slot: nat, n: nat, h: nat,
               ghost z: int, ghost G: Layout)
    requires Tracks(S, hf, a.Length) && Open(S, a[..], G, max, z) && item.key !in G
    requires MayMove(S, a[..], z, item.key, n) && slot == At(S, item.key, n) && h == S.home(item.key)
    requires n <= max && Within(a[h], n)
    modifies a
    ensures Good(S, a[..], G[item.key := Spot(item, n)], max)
  {
    ghost var ds := a[..];
    a[slot] := a[slot].(entry := Full(item), probes := n);
    AddWanted(S, hf, a, slot, -1, h, 1, n);
    assert Moved(S, ds, a[..], slot, item, n, 1);
    MoveKey(S, ds, a[..], G, max, z, {}, item, n);
  }

  lemma DisplacedRoom(S: Space, ds: seq<Desc>, ds': seq<Desc>, key: int, first: nat, n: nat)
    requires Room(S, ds, key, -1, first, n) && Keeps(ds, ds')
    ensures MayMove(S, ds', first, key, n)
  {
    KeepsFull(S, ds, ds', key, n - 1);
  }

  lemma BackwardOpen(S: Space, ds: seq<Desc>, G: Layout, max: nat, first: nat)
    requires Backward(S, ds, G, max, [first])
    ensures Open(S, ds, G, max, first)
  {
    assert Ahead([first]) == {};
  }

  lemma AddsSame(G: Layout, G': Layout, item: Item, n: nat)
    requires SameItems(G, G') && item.key !in G
    ensures Adds(G, G'[item.key := Spot(item, n)], item)
  {
  }

  /** The new item takes a slot from an entry that is closer to its home. */
  method PutDisplacing(ghost S: Space, hf: int -> nat, a: array<Desc>, limit: nat, max0: nat, item: Item, first: nat,
                       n: nat, h: nat, ghost G0: Layout)
    returns (ok: bool, max: nat, ghost G: Layout)
    requires Tracks(S, hf, a.Length) && Good(S, a[..], G0, max0) && max0 <= limit && |G0| < a.Length
    requires item.key !in G0 && Room(S, a[..], item.key, -1, first, n) && h == S.home(item.key)
    requires n <= max0 && Within(a[h], n)
    modifies a
    ensures !ok ==> Still(old(a[..]), a[..]) && limit <= |G0|
    ensures ok ==> max0 <= max <= limit && Good(S, a[..], G, max) && Adds(G0, G, item)
  {
    ok, max, G := Displace(S, hf, a, limit, max0, first, G0);
    if ok {
      DisplacedRoom(S, old(a[..]), a[..], item.key, first, n);
      BackwardOpen(S, a[..], G, max, first);
      AddsSame(G0, G, item, n);
      PutAt(S, hf, a, max, item, first, n, h, first, G);
      G := G[item.key := Spot(item, n)];
    }
  }

  lemma RoomOpen(S: Space, ds: seq<Desc>, ds': seq<Desc>, key: int, slot: int, first: int, n: nat)
    requires Room(S, ds, key, slot, first, n) && Marked(ds, ds', -1, 0, S.cap)
    ensures first != -1 ==> Room(S, ds', key, -1, first, n)
    ensures first == -1 ==> MayMove(S, ds', -1, key, n) && slot == At(S, key, n)
  {
    KeepsFull(S, ds, ds', key, n - 1);
  }

  /** Inserts a key that is not present where room was found. */
  method PutNew(ghost S: Space, hf: int -> nat, a: array<Desc>, limit: nat, max0: nat, item: Item, slot: int,
                first: int, n: nat, ghost G0: Layout)
    returns (ok: bool, max: nat, ghost G: Layout)
    requires Tracks(S, hf, a.Length) && Good(S, a[..], G0, max0) && max0 <= limit && |G0| < a.Length
    requires item.key !in G0 && Room(S, a[..], item.key, slot, first, n) && n <= limit
    modifies a
    ensures !ok ==> Still(old(a[..]), a[..]) && limit <= |G0|
    ensures ok ==> max0 <= max <= limit && Good(S, a[..], G, max) && Adds(G0, G, item)
  {
    ghost var ds := a[..];
    var h := HomeSlot(S, hf, a.Length, item.key);
    max := BoundSet(a, max0, h, n);
    GoodMarked(S, ds, a[..], G0, max0, max);
    RoomOpen(S, ds, a[..], item.key, slot, first, n);
    ghost var ds1 := a[..];
    if first != -1 {
      ok, max, G := PutDisplacing(S, hf, a, limit, max, item, first, n, h, G0);
      if !ok { StillTrans(ds, ds1, a[..]); }
    } else {
      PutAt(S, hf, a, max, item, slot, n, h, -1, G0);
      AddsSame(G0, G0, item, n);
      ok, G := true, G0[item.key := Spot(item, n)];
    }
  }

  /** One attempt to insert. Nothing changes when the key is present; when no room is found within
      the probe limit no entry has moved. */
  method PutIn(ghost S: Space, hf: int -> nat, a: array<Desc>, limit: nat, max0: nat, item: Item, ghost G0: Layout)
    returns (r: Tried, max: nat, ghost G: Layout)
    requires Tracks(S, hf, a.Length) && Intact(S, a, G0, max0) && max0 <= limit && |G0| < a.Length
    modifies a
    ensures r.Present? ==> item.key in G0 && Intact(S, a, G0, max0)
    ensures r.NoRoom? ==> Stores(S, a, G0) && limit <= |G0|
    ensures r.Inserted? ==> item.key !in G0 && max0 <= max <= limit && Intact(S, a, G, max)
    ensures r.Inserted? ==> |G| == |G0| + 1 && ItemsOf(G) == ItemsOf(G0)[item.key := item]
  {
    ghost var ds := a[..];
    max, G := max0, G0;
    var slot, first, n, found := FindRoom(S, hf, a, max, limit, item.key, G);
    if slot == -1 && first == -1 {
      return NoRoom, max, G;
    }
    NoneHidden(S, ds, G, max, item.key);
    if found.Full? {
      return Present, max, G;
    }
    var ok;
    ok, max, G := PutNew(S, hf, a, limit, max, item, slot, first, n, G);
    if ok { MoreContents(G0, G, item); } else { StructFrame(S, ds, a[..], G0, -1); }
    return if ok then Inserted else NoRoom, max, G;
  }

  // ---- Growth ---------------------------------------------------------------------------------------

  /** The keys stored below slot m. */
  ghost function Part(S: Space, G: Layout, m: nat): Items {
    map k | k in G && At(S, k, G[k].idx) < m :: G[k].item
  }

  lemma PartSize(S: Space, G: Layout, m: nat)
    ensures |Part(S, G, m)| <= |G|
  {
    SubsetSize(Part(S, G, m).Keys, G.Keys);
  }

  lemma PartEmpty(S: Space, ds: seq<Desc>, G: Layout, m: nat)
    requires Struct(S, ds, G, -1) && m < |ds| && ds[m].entry.Empty?
    ensures Part(S, G, m + 1) == Part(S, G, m)
  {
    forall k | k in G ensures At(S, k, G[k].idx) != m {
      assert PlacedAt(S, ds, k, G[k]);
    }
  }

  lemma PartFull(S: Space, ds: seq<Desc>, G: Layout, m: nat, G1: Layout)
    requires Struct(S, ds, G, -1) && m < |ds| && ds[m].entry.Full? && Holds(G1, Part(S, G, m))
    ensures HoldsBut(G1, Part(S, G, m + 1), ds[m].entry.item)
  {
    var k := ds[m].entry.item.key;
    assert HeldAt(S, ds, G, m);
    assert PlacedAt(S, ds, k, G[k]);
    forall k' | k' in G && At(S, k', G[k'].idx) == m ensures k' == k {
      SameSlot(S, ds, G, -1, k, k');
    }
  }

  lemma PartAll(S: Space, ds: seq<Desc>, G: Layout, G1: Layout)
    requires Struct(S, ds, G, -1) && Holds(G1, Part(S, G, |ds|))
    ensures SameItems(G, G1)
  {
    forall k | k in G ensures At(S, k, G[k].idx) < |ds| {
      assert PlacedAt(S, ds, k, G[k]);
    }
  }

  /** The new array holds what the old one stores below slot m. */
  ghost predicate Copied(S: Space, G: Layout, S': Space, ds': seq<Desc>, G': Layout, max: nat, limit: nat, m: nat) {
    Good(S', ds', G', max) && max <= limit && Holds(G', Part(S, G, m)) && Ranked(S', ds', G')
  }

  method CopySlot(ghost S: Space, a: array<Desc>, ghost G: Layout, ghost S': Space, hf: int -> nat, b: array<Desc>,
                  limit: nat, max: nat, k: nat, ghost G1: Layout)
    returns (ok: bool, max': nat, ghost G': Layout)
    requires Struct(S, a[..], G, -1) && k < a.Length && Tracks(S', hf, b.Length) && |G| <= b.Length && a != b
    requires Copied(S, G, S', b[..], G1, max, limit, k)
    modifies b
    ensures !ok ==> limit < |G|
    ensures ok ==> Copied(S, G, S', b[..], G', max', limit, k + 1)
  {
    if a[k].entry.Empty? {
      PartEmpty(S, a[..], G, k);
      return true, max, G1;
    }
    PartFull(S, a[..], G, k, G1);
    PartSize(S, G, k + 1);
    ok, max', G' := Reinsert(S', hf, b, limit, max, a[k].entry.item, G1, Part(S, G, k + 1));
  }

  /** Copies every entry of a into b. Fails only when the probe limit is hit. */
  method Rebuild(ghost S: Space, a: array<Desc>, ghost G: Layout, ghost S': Space, hf: int -> nat, b: array<Desc>,
                 limit: nat)
    returns (ok: bool, max: nat, ghost G': Layout)
    requires Stores(S, a, G) && Tracks(S', hf, b.Length) && Intact(S', b, map[], 0)
    requires |G| <= b.Length && a != b
    modifies b
    ensures !ok ==> limit < |G|
    ensures ok ==> Intact(S', b, G', max) && max <= limit && SameItems(G, G') && Ranked(S', b[..], G')
  {
    ghost var ds := a[..];
    var k := 0;
    ok, max, G' := true, 0, map[];
    while k < a.Length
      invariant k <= a.Length && a[..] == ds && Copied(S, G, S', b[..], G', max, limit, k)
    {
      ok, max, G' := CopySlot(S, a, G, S', hf, b, limit, max, k, G');
      if !ok {
        return;
      }
      k := k + 1;
    }
    PartAll(S, ds, G, G');
    return true, max, G';
  }

  // ---- The set ---------------------------------------------------------------------------------------

  const FREE := Desc(0, 0, 0, false, Empty)

  lemma FreshGood(S: Space, ds: seq<Desc>)
    requires Fair(S) && |ds| == S.cap && forall s :: 0 <= s < |ds| ==> ds[s] == FREE
    ensures Good(S, ds, map[], 0)
  {
    forall s: nat | s < |ds| ensures ds[s].wanted == |Passers(S, map[], s)| {
      assert Passers(S, map[], s) == {};
    }
  }

  method NewMap(hf: int -> nat, entries: nat) returns (b: array<Desc>, ghost S: Space)
    ensures fresh(b) && b.Length >= entries
    ensures Tracks(S, hf, b.Length) && Intact(S, b, map[], 0)
  {
    var cap := MapSize(entries);
    b := new Desc[cap](_ => FREE);
    SpaceTracks(hf, b.Length);
    S := SpaceOf(hf, b.Length);
    FreshGood(S, b[..]);
  }

  /** The array stores the layout. */
  ghost predicate Stores(S: Space, a: array<Desc>, G: Layout)
    reads a
  {
    Struct(S, a[..], G, -1)
  }

  /** The array is a map, whatever lookups reach. */
  ghost predicate Whole(S: Space, a: array<Desc>, G: Layout, max: nat)
    reads a
    ensures Whole(S, a, G, max) ==> Stores(S, a, G)
  {
    Kept(S, a[..], G, max)
  }

  /** The array is a map between operations. */
  ghost predicate Intact(S: Space, a: array<Desc>, G: Layout, max: nat)
    reads a
    ensures Intact(S, a, G, max) <==> Whole(S, a, G, max) && Reachable(S, a[..], G)
    ensures Intact(S, a, G, max) ==> Stores(S, a, G)
  {
    Good(S, a[..], G, max)
  }

  ghost function ItemsOf(G: Layout): Items { map k | k in G :: G[k].item }

  lemma FoundSlot(S: Space, ds: seq<Desc>, G: Layout, key: int)
    requires Struct(S, ds, G, -1) && key in G
    ensures var s := At(S, key, G[key].idx); s < |ds| && ds[s].entry == Full(G[key].item) && G[key].item.key == key
  {
    assert PlacedAt(S, ds, key, G[key]);
  }

  lemma SameContents(G: Layout, G': Layout)
    requires SameItems(G, G')
    ensures |G'| == |G| && ItemsOf(G') == ItemsOf(G)
  {
    forall k ensures k in G'.Keys <==> k in G.Keys {}
    assert G'.Keys == G.Keys;
    SameMap(ItemsOf(G'), ItemsOf(G));
  }

  lemma LessContents(G: Layout, G': Layout, key: int)
    requires key in G && SameItems(G - {key}, G')
    ensures |G'| == |G| - 1 && ItemsOf(G') == ItemsOf(G) - {key}
  {
    forall k ensures k in G'.Keys <==> k in G.Keys - {key} {}
    assert G'.Keys == G.Keys - {key};
    SameMap(ItemsOf(G'), ItemsOf(G) - {key});
  }

  lemma MoreContents(G: Layout, G': Layout, item: Item)
    requires item.key !in G && Adds(G, G', item)
    ensures |G'| == |G| + 1 && ItemsOf(G') == ItemsOf(G)[item.key := item]
  {
    forall k ensures k in G'.Keys <==> k in G.Keys + {item.key} {}
    assert G'.Keys == G.Keys + {item.key};
    SameMap(ItemsOf(G'), ItemsOf(G)[item.key := item]);
  }

  /** Lookups reach the key. */
  ghost predicate Finds(S: Space, a: array<Desc>, G: Layout, key: int)
    reads a
  {
    key in G && S.home(key) < a.Length && Within(a[S.home(key)], G[key].idx)
  }

  /** Lookups reach every key, and no probe bound is saturated. */
  ghost predicate Safe(S: Space, a: array<Desc>, G: Layout)
    reads a
  {
    Reachable(S, a[..], G) && Unsaturated(a[..])
  }

  /** Removes a key that a lookup reaches, and no other. */
  method RemoveIn(ghost S: Space, hf: int -> nat, a: array<Desc>, max: nat, key: int, ghost G: Layout)
    returns (r: Entry, ghost tr: seq<Stage>)
    requires Tracks(S, hf, a.Length) && Whole(S, a, G, max)
    modifies a
    ensures r == if old(Finds(S, a, G, key)) then Full(G[key].item) else Empty
    ensures r.Empty? ==> a[..] == old(a[..])
    ensures r.Full? ==> Deletes(S, max, old(a[..]), G, key, tr, a[..]) && Whole(S, a, Last(tr).G, max)
    ensures r.Full? ==> |Last(tr).G| == |G| - 1 && ItemsOf(Last(tr).G) == ItemsOf(G) - {key}
    ensures r.Full? && old(Safe(S, a, G)) ==> Intact(S, a, Last(tr).G, max)
  {
    var slot;
    tr := [];
    slot, r := Find(S, hf, a, max, key, G);
    if r.Full? {
      FoundSlot(S, a[..], G, key);
      ghost var ds := a[..];
      tr := ShiftDelete(S, hf, a, max, slot, G);
      LessContents(G, Last(tr).G, key);
      if Reachable(S, ds, G) && Unsaturated(ds) { DeletionSafe(S, max, ds, G, key, tr, a[..]); }
    }
  }

  /** Why the map grows only so far: a probe limit that is hit is at most the number of entries. */
  lemma LimitHit(cap: nat, n: nat)
    requires ProbeLimit(cap) <= n
    ensures cap < 32 * (n + 1)
  {
  }

  /** Rebuilds the map with at least the given capacity, doubled until every entry is placed within
      the probe limit. */
  method Enlarge(ghost S: Space, hf: int -> nat, a: array<Desc>, ghost G: Layout, capacity: nat)
    returns (b: array<Desc>, max: nat, ghost S': Space, ghost G': Layout)
    requires Stores(S, a, G) && |G| < a.Length <= capacity
    ensures fresh(b) && b.Length >= capacity && Tracks(S', hf, b.Length) && Intact(S', b, G', max)
    ensures max <= ProbeLimit(b.Length) && |G'| == |G| && ItemsOf(G') == ItemsOf(G) && Ranked(S', b[..], G')
  {
    var size, done := capacity, false;
    b, max, S', G' := a, 0, S, G;
    while !done
      invariant size >= capacity
      invariant done ==> fresh(b) && b.Length >= size && Tracks(S', hf, b.Length) && Intact(S', b, G', max)
      invariant done ==> max <= ProbeLimit(b.Length) && SameItems(G, G') && Ranked(S', b[..], G')
      decreases !done, 32 * (|G| + 1) - size
    {
      b, S' := NewMap(hf, size);
      done, max, G' := Rebuild(S, a, G, S', hf, b, ProbeLimit(b.Length));
      if !done {
        LimitHit(b.Length, |G|);
        size := 2 * size;
      }
    }
    SameContents(G, G');
  }

  class Rhs {
    const hf: int -> nat
    var a: array<Desc>
    var maximum: nat
    var limit: nat
    var n: nat
    ghost var S: Space
    ghost var G: Layout

    /** The entries are in place, whatever the rest of the descriptors holds. */
    ghost predicate Stored()
      reads this, a
    {
      && Tracks(S, hf, a.Length) && Stores(S, a, G) && n == |G| && n < a.Length
      && limit == ProbeLimit(a.Length)
    }

    /** The descriptors are right but for the probe bounds. */
    ghost predicate Holding()
      reads this, a
    {
      && Stored() && Whole(S, a, G, maximum) && maximum <= limit && 2 * n <= a.Length
    }

    ghost predicate Valid()
      reads this, a
    {
      && Stored() && Intact(S, a, G, maximum) && maximum <= limit && 2 * n <= a.Length
    }

    ghost function Contents(): Items
      reads this
    {
      ItemsOf(G)
    }

    /** An empty set. */
    constructor (hf: int -> nat, entries: nat)
      ensures Valid() && fresh(a) && Contents() == map[] && this.hf == hf
    {
      this.hf := hf;
      var b, S' := NewMap(hf, entries);
      a, S, G, n, maximum, limit := b, S', map[], 0, 0, ProbeLimit(b.Length);
    }

    /** The object stored under the key, if any, provided that the bound of its home lets the lookup
        reach it, as it does in every valid set. */
    method Get(key: int) returns (r: Entry)
      requires Holding()
      ensures r == if Finds(S, a, G, key) then Full(Contents()[key]) else Empty
      ensures Valid() ==> r == if key in Contents() then Full(Contents()[key]) else Empty
    {
      var slot;
      slot, r := Find(S, hf, a, maximum, key, G);
    }

    /** Counts an entry that is gone. */
    method CountGone(ghost G': Layout)
      requires Tracks(S, hf, a.Length) && Whole(S, a, G', maximum) && limit == ProbeLimit(a.Length)
      requires maximum <= limit && 2 * n <= a.Length && n == |G'| + 1
      modifies this`n, this`G
      ensures Holding() && G == G' && n == old(n) - 1
      ensures Intact(S, a, G', maximum) ==> Valid()
    {
      n, G := n - 1, G';
    }

    /** Removes the key and returns the object that was stored under it. No other entry is lost; all of
        them stay within reach of lookups if no probe bound was saturated. */
    method Remove(key: int) returns (r: Entry, ghost tr: seq<Stage>)
      requires Holding()
      modifies this`n, this`G, a
      ensures Holding() && a == old(a) && S == old(S) && maximum == old(maximum)
      ensures r == if old(Finds(S, a, G, key)) then Full(old(Contents())[key]) else Empty
      ensures Contents() == if r.Full? then old(Contents()) - {key} else old(Contents())
      ensures n == if r.Full? then old(n) - 1 else old(n)
      ensures r.Full? ==> Deletes(S, maximum, old(a[..]), old(G), key, tr, a[..]) && G == Last(tr).G
      ensures r.Empty? ==> a[..] == old(a[..]) && G == old(G)
      ensures old(Valid()) ==> (r.Full? <==> key in old(Contents()))
      ensures old(Valid()) && (key in old(Contents()) ==> old(Safe(S, a, G))) ==> Valid()
    {
      r, tr := RemoveIn(S, hf, a, maximum, key, G);
      if r.Full? {
        CountGone(Last(tr).G);
      }
    }

    /** Puts another array in place. */
    method Adopt(b: array<Desc>, max: nat, ghost S': Space, ghost G': Layout)
      requires Tracks(S', hf, b.Length) && Intact(S', b, G', max) && n == |G'| < b.Length
      modifies this
      ensures a == b && S == S' && G == G' && maximum == max && limit == ProbeLimit(b.Length) && n == old(n)
      ensures Stored() && Intact(S, a, G, maximum)
    {
      a, S, G, maximum, limit := b, S', G', max, ProbeLimit(b.Length);
    }

    /** Moves all entries to a map of at least the given capacity, doubled until every entry is
        placed within the probe limit. */
    method Grow(capacity: nat) returns (ok: bool)
      requires Stored()
      modifies this
      ensures ok <==> capacity >= old(a.Length)
      ensures !ok ==> a == old(a) && a[..] == old(a[..]) && G == old(G) && S == old(S) && n == old(n)
                      && maximum == old(maximum) && limit == old(limit)
      ensures ok ==> Stored() && Intact(S, a, G, maximum) && maximum <= limit && fresh(a) && a.Length >= capacity
      ensures ok ==> Ranked(S, a[..], G)
      ensures n == old(n) && Contents() == old(Contents())
    {
      if a.Length > capacity {
        return false;
      }
      var b, max;
      ghost var S', G';
      b, max, S', G' := Enlarge(S, hf, a, G, capacity);
      Adopt(b, max, S', G');
      return true;
    }

    /** Counts a new entry and grows when the set is more than half full. */
    method CountNew(max: nat, ghost G': Layout)
      requires Tracks(S, hf, a.Length) && limit == ProbeLimit(a.Length) && max <= limit && Intact(S, a, G', max)
      requires |G'| == n + 1 && 2 * n <= a.Length
      modifies this
      ensures Valid() && Contents() == ItemsOf(G') && (a == old(a) || fresh(a))
    {
      maximum, n, G := max, n + 1, G';
      if n > a.Length / 2 {
        var _ := Grow(2 * a.Length);
      }
    }

    /** One pass of insertion: the set grows when there is no room within the probe limit, and after
        an insertion that leaves it more than half full. */
    method TryPut(item: Item) returns (r: Tried)
      requires Valid()
      modifies this, a
      ensures Valid() && (a == old(a) || fresh(a))
      ensures r.Present? ==> item.key in old(Contents()) && Contents() == old(Contents())
      ensures r.Inserted? ==> item.key !in old(Contents()) && Contents() == old(Contents())[item.key := item]
      ensures r.NoRoom? ==> Contents() == old(Contents()) && n == old(n)
                            && old(a.Length) < 32 * (n + 1) && a.Length > old(a.Length)
    {
      var max;
      ghost var G';
      r, max, G' := PutIn(S, hf, a, limit, maximum, item, G);
      if r.NoRoom? {
        LimitHit(a.Length, n);
        var _ := Grow(2 * a.Length);
      } else if r.Inserted? {
        CountNew(max, G');
      }
    }

    /** Inserts the item unless its key is present. */
    method Put(item: Item) returns (r: bool)
      requires Valid()
      modifies this, a
      ensures Valid() && (a == old(a) || fresh(a))
      ensures r <==> item.key !in old(Contents())
      ensures Contents() == if r then old(Contents())[item.key := item] else old(Contents())
    {
      var t := TryPut(item);
      while t.NoRoom?
        invariant Valid() && (a == old(a) || fresh(a))
        invariant t.Present? ==> item.key in old(Contents()) && Contents() == old(Contents())
        invariant t.Inserted? ==> item.key !in old(Contents()) && Contents() == old(Contents())[item.key := item]
        invariant t.NoRoom? ==> Contents() == old(Contents())
        decreases t.NoRoom?, 32 * (n + 1) - a.Length
      {
        t := TryPut(item);
      }
      r := t.Inserted?;
    }
  }
}
