/** Backward-shift deletion: later entries of the sequences that pass the freed slot move up. */
module RhsDelete {
  import opened Internal
  import opened RhsProbe
  import opened RhsLayout
  import opened RhsCounters
  import opened RhsSearch
  import opened RhsDisplace

  /** A map with a hole at slot z, whatever lookups reach. */
  ghost predicate Holed(S: Space, ds: seq<Desc>, G: Layout, max: nat, z: nat) {
    && z < |ds| && Struct(S, ds, G, z) && Indexed(S, ds, G, {}) && Limited(S, ds, G, max)
    && Wanted(S, ds, G)
  }

  /** No bound stands for the map's maximum. */
  ghost predicate Unsaturated(ds: seq<Desc>) { forall s :: 0 <= s < |ds| ==> ds[s].bound < WORD_MAX }

  // ---- Finding a successor ---------------------------------------------------------------------

  /** The entry of slot o, at probe p + 1 of its sequence, passes slot z at probe w. */
  ghost predicate Successor(S: Space, ds: seq<Desc>, G: Layout, z: nat, w: nat, o: nat, p: nat) {
    && o < |ds| && ds[o].entry.Full? && o != z
    && var k := ds[o].entry.item.key;
    && k in G && G[k].idx == p + 1 && At(S, k, p + 1) == o && 1 <= w <= p && At(S, k, w) == z
    && ds[o].probes == p + 1 && G[k].item == ds[o].entry.item
  }

  /** No key that passes z at probe w sits at a probe up to p. */
  ghost predicate NoneAt(S: Space, G: Layout, z: nat, w: nat, p: nat) {
    forall k :: k in G && At(S, k, w) == z && w < G[k].idx ==> p < G[k].idx
  }

  ghost predicate NoneBefore(S: Space, G: Layout, z: nat, w: nat) {
    forall k, j :: k in G && 1 <= j < w && j < G[k].idx ==> At(S, k, j) != z
  }

  /** A slot that records probe p + 1 on the sequence through z holds a key of that sequence. */
  lemma IsSuccessor(S: Space, ds: seq<Desc>, G: Layout, max: nat, z: nat, w: nat, o: nat, p: nat)
    requires Holed(S, ds, G, max, z) && 1 <= w <= p < S.cap
    requires o == S.slot(S.start(z, w), p + 1) && ds[o].probes == p + 1
    ensures Successor(S, ds, G, z, w, o, p)
  {
    var h := S.start(z, w);
    assert S.slot(h, w) == z;
    assert HeldAt(S, ds, G, o);
    var k := ds[o].entry.item.key;
    assert PlacedAt(S, ds, k, G[k]);
    assert S.slot(S.home(k), p + 1) == o;
  }

  lemma NotHere(S: Space, ds: seq<Desc>, G: Layout, max: nat, z: nat, w: nat, o: nat, p: nat)
    requires Holed(S, ds, G, max, z) && 1 <= w <= p < S.cap && NoneAt(S, G, z, w, p)
    requires o == S.slot(S.start(z, w), p + 1) && ds[o].probes != p + 1
    ensures NoneAt(S, G, z, w, p + 1)
  {
    forall k | k in G && At(S, k, w) == z && w < G[k].idx ensures p + 1 < G[k].idx {
      assert S.start(S.slot(S.home(k), w), w) == S.home(k);
      assert PlacedAt(S, ds, k, G[k]);
    }
  }

  /** Walks the sequence that has z at probe w. */
  method SearchFrom(ghost S: Space, hf: int -> nat, a: array<Desc>, max: nat, z: nat, w: nat, ghost G: Layout)
    returns (found: bool, o: nat, p: nat)
    requires Tracks(S, hf, a.Length) && Holed(S, a[..], G, max, z) && 1 <= w < max
    ensures found ==> Successor(S, a[..], G, z, w, o, p) && p < max && NoneAt(S, G, z, w, p)
    ensures !found ==> NoneAt(S, G, z, w, max)
  {
    ghost var ds, h := a[..], S.start(z, w);
    p := w;
    o := ProbeNext(S, hf, a.Length, z, p, h);
    while p < max
      invariant w <= p <= max && o == S.slot(h, p + 1) && NoneAt(S, G, z, w, p)
    {
      if a[o].probes == p + 1 {
        IsSuccessor(S, ds, G, max, z, w, o, p);
        return true, o, p;
      }
      NotHere(S, ds, G, max, z, w, o, p);
      p := p + 1;
      o := ProbeNext(S, hf, a.Length, o, p, h);
    }
    return false, o, p;
  }

  lemma NoneBeforeMore(S: Space, ds: seq<Desc>, G: Layout, max: nat, z: nat, w: nat)
    requires Limited(S, ds, G, max) && NoneBefore(S, G, z, w) && NoneAt(S, G, z, w, max)
    ensures NoneBefore(S, G, z, w + 1)
  {
  }

  lemma SomeAhead(S: Space, ds: seq<Desc>, G: Layout, max: nat, z: nat)
    requires Holed(S, ds, G, max, z) && ds[z].wanted > 0
    ensures !NoneBefore(S, G, z, max)
  {
    var k, j := SomePasser(S, ds, G, z);
  }

  /** The successor that the search meets first: the earliest probe w, then the least p. */
  ghost predicate First(S: Space, ds: seq<Desc>, G: Layout, max: nat, z: nat, w: nat, o: nat, p: nat) {
    Successor(S, ds, G, z, w, o, p) && p < max && NoneBefore(S, G, z, w) && NoneAt(S, G, z, w, p)
  }

  /** While some key is counted on the hole a successor is found. */
  method FindSuccessor(ghost S: Space, hf: int -> nat, a: array<Desc>, max: nat, z: nat, ghost G: Layout)
    returns (w: nat, o: nat, p: nat)
    requires Tracks(S, hf, a.Length) && Holed(S, a[..], G, max, z) && a[z].wanted > 0
    ensures First(S, a[..], G, max, z, w, o, p)
  {
    SomeAhead(S, a[..], G, max, z);
    w := 1;
    while w < max
      invariant 1 <= w && NoneBefore(S, G, z, w) && (w <= max || max == 0)
    {
      var found;
      found, o, p := SearchFrom(S, hf, a, max, z, w, G);
      if found {
        return;
      }
      NoneBeforeMore(S, a[..], G, max, z, w);
      w := w + 1;
    }
    assert false;
  }

  // ---- Lowering the bound of the home ------------------------------------------------------------

  /** When one count is left on the home of key k, it is that of k on its way to probe w, or that of
      k on the hole: no key of that home sits further out. */
  lemma SoleKey(S: Space, ds: seq<Desc>, G: Layout, k: int, z: nat, w: nat)
    requires Fair(S) && |ds| == S.cap && Wanted(S, ds, G)
    requires k in G && G[k].idx == w && 1 <= w <= S.cap && At(S, k, w) == z
    requires ds[S.home(k)].wanted + (if S.home(k) == z then 1 else 0) == 1
    ensures forall k' :: k' in G && S.home(k') == S.home(k) ==> G[k'].idx <= w
  {
    var h := S.home(k);
    var passers := Passers(S, G, h);
    forall k' | k' in G && S.home(k') == h && G[k'].idx > w ensures false {
      assert At(S, k', 1) == h;
      assert k' in passers;
      if h != z {
        assert At(S, k, 1) == h;
        assert k in passers;
        SubsetSize({k, k'}, passers);
      }
    }
  }

  lemma OtherHome(S: Space, h: nat, home: nat, p: nat)
    requires Fair(S) && h < S.cap && 1 <= p < S.cap && S.slot(home, p) == S.slot(h, p + 1)
    ensures home != h
  {
    assert home == h ==> S.probe(h, S.slot(h, p)) == p;
  }

  /** The bound of home slot h once its key moved from slot o, probe p + 1, to probe w. The loop that
      looks for another entry of the same home further out passes its probe number one too small
      and finds none, so a saturated bound is always replaced. */
  method LowerBound(ghost S: Space, hf: int -> nat, a: array<Desc>, max: nat, h: nat, w: nat, o: nat, p: nat)
    requires Tracks(S, hf, a.Length) && h < a.Length && 1 <= p < max <= a.Length && o == S.slot(h, p + 1)
    modifies a
    ensures forall s :: 0 <= s < a.Length ==>
              a[s] == if s == h && w < WORD_MAX && (old(a[h].wanted) == 1 || old(a[h].bound) == WORD_MAX)
                      then old(a[s]).(bound := w) else old(a[s])
  {
    if w < WORD_MAX {
      if a[h].wanted == 1 {
        a[h] := a[h].(bound := w);
      } else if a[h].bound == WORD_MAX || a[h].bound == p + 1 {
        var probe := p + 1;
        var most := if a[h].bound == WORD_MAX then max else a[h].bound - 1;
        var tmp := ProbeNext(S, hf, a.Length, o, probe, h);
        while probe < most
          invariant p + 1 <= probe && (p + 1 <= most ==> probe <= most) && most <= max
          invariant tmp == S.slot(h, probe + 1) && a[..] == old(a[..])
        {
          var home := FirstOffset(S, hf, a.Length, tmp, probe, S.start(tmp, probe));
          OtherHome(S, h, home, probe);
          if h == home {
            break;
          }
          probe := probe + 1;
          tmp := ProbeNext(S, hf, a.Length, tmp, probe, h);
        }
        if probe == most {
          a[h] := a[h].(bound := w);
        }
      }
    }
  }

  // ---- One shift -----------------------------------------------------------------------------------

  /** ds' is ds after the entry of key k moved up to the hole z at probe w: it is no longer counted
      from there on, and the bound of its home is w or as before. */
  ghost predicate Shifted(S: Space, ds: seq<Desc>, ds': seq<Desc>, z: nat, item: Item, w: nat, i: nat) {
    && Recounted(S, ds', ds, S.home(item.key), w, i)
    && forall s :: 0 <= s < |ds| ==>
         && ds'[s].entry == (if s == z then Full(item) else ds[s].entry)
         && ds'[s].probes == (if s == z then w else ds[s].probes)
         && (ds'[s].bound == ds[s].bound || (s == S.home(item.key) && ds'[s].bound == w))
  }

  ghost predicate Reaches(S: Space, G: Layout, h: nat, w: nat) {
    forall k :: k in G && S.home(k) == h ==> G[k].idx <= w
  }

  lemma ShiftLimited(S: Space, ds: seq<Desc>, ds': seq<Desc>, G: Layout, max: nat, z: nat, item: Item, w: nat)
    requires Fair(S) && Limited(S, ds, G, max) && item.key in G && w < G[item.key].idx
    requires Shifted(S, ds, ds', z, item, w, G[item.key].idx)
    requires ds'[S.home(item.key)].bound == ds[S.home(item.key)].bound || w < WORD_MAX
    ensures Limited(S, ds', G[item.key := Spot(item, w)], max)
  {
  }

  /** One shift out of an unsaturated map: every key stays within its bound, and no bound saturates. */
  lemma ShiftReaches(S: Space, ds: seq<Desc>, ds1: seq<Desc>, ds2: seq<Desc>, G: Layout, max: nat, z: nat, w: nat,
                     o: nat, p: nat)
    requires Holed(S, ds, G, max, z) && Successor(S, ds, G, z, w, o, p) && ShiftSteps(S, ds, ds1, ds2, z, w, o, p)
    requires Reachable(S, ds, G) && Unsaturated(ds)
    ensures var item := ds[o].entry.item; Reachable(S, ds2, G[item.key := Spot(item, w)]) && Unsaturated(ds2)
  {
    var item := ds[o].entry.item;
    ShiftEffect(S, ds, ds1, ds2, G, max, z, w, o, p);
    ShiftCounted(S, ds, ds2, G, item, w);
    NewBound(S, ds, ds1, ds2, G, max, z, w, o, p);
  }

  lemma ShiftStruct(S: Space, ds: seq<Desc>, ds': seq<Desc>, G: Layout, max: nat, z: nat, item: Item, w: nat,
                    o: nat, p: nat)
    requires Holed(S, ds, G, max, z) && Successor(S, ds, G, z, w, o, p) && ds[o].entry == Full(item)
    requires Shifted(S, ds, ds', z, item, w, p + 1)
    ensures Struct(S, ds', G[item.key := Spot(item, w)], o) && Indexed(S, ds', G[item.key := Spot(item, w)], {})
  {
    SuccessorMoves(S, ds, G, z, w, o, p);
    MoveStruct(S, ds, G, z, item, w);
    StructFrame(S, Put(ds, z, item, w), ds', G[item.key := Spot(item, w)], o);
    MoveIndexed(S, ds, G, z, {}, item, w);
    IndexedFrame(S, Put(ds, z, item, w), ds', G[item.key := Spot(item, w)]);
  }

  lemma SuccessorMoves(S: Space, ds: seq<Desc>, G: Layout, z: nat, w: nat, o: nat, p: nat)
    requires Struct(S, ds, G, z) && Successor(S, ds, G, z, w, o, p)
    ensures MayMove(S, ds, z, ds[o].entry.item.key, w)
  {
    var k := ds[o].entry.item.key;
    assert PlacedAt(S, ds, k, G[k]);
  }

  lemma IndexedFrame(S: Space, ds: seq<Desc>, ds': seq<Desc>, G: Layout)
    requires Indexed(S, ds, G, {}) && SameEntries(ds, ds')
    requires forall s :: 0 <= s < |ds| ==> ds'[s].probes == ds[s].probes
    ensures Indexed(S, ds', G, {})
  {
  }

  lemma ShiftCounted(S: Space, ds: seq<Desc>, ds': seq<Desc>, G: Layout, item: Item, w: nat)
    requires Fair(S) && Wanted(S, ds, G) && item.key in G && 1 <= w < G[item.key].idx <= S.cap
    requires Recounted(S, ds', ds, S.home(item.key), w, G[item.key].idx)
    ensures Wanted(S, ds', G[item.key := Spot(item, w)])
  {
    var G' := G[item.key := Spot(item, w)];
    assert G'[item.key := G[item.key]] == G;
    CountedAfterLower(S, ds, ds', G', item.key, G[item.key], w);
  }

  lemma SuccessorCounted(S: Space, ds: seq<Desc>, ds': seq<Desc>, G: Layout, max: nat, z: nat, w: nat, o: nat, p: nat)
    requires Holed(S, ds, G, max, z) && Successor(S, ds, G, z, w, o, p)
    requires |ds'| == |ds| && forall s :: 0 <= s < |ds| ==> ds'[s].wanted == ds[s].wanted
    ensures AllWanted(S, ds', S.home(ds[o].entry.item.key), w + 1, p + 1)
  {
    var k := ds[o].entry.item.key;
    forall m: nat | w + 1 <= m < p + 1
      ensures S.slot(S.home(k), m) < |ds| && ds'[S.slot(S.home(k), m)].wanted > 0
    {
      CountedPasser(S, ds, G, k, m);
    }
  }

  lemma ShiftRecount(S: Space, ds: seq<Desc>, ds1: seq<Desc>, ds2: seq<Desc>, h: nat, w: nat, i: nat, z: nat)
    requires Fair(S) && |ds| == S.cap && h < S.cap && 1 <= w < i <= S.cap && z == S.slot(h, w)
    requires Raised(S, ds1, ds, h, w + 1, i) && |ds2| == |ds|
    requires forall s :: 0 <= s < |ds| ==> ds1[s].wanted == ds2[s].wanted + if s == z then 1 else 0
    ensures Recounted(S, ds2, ds, h, w, i)
  {
    forall s | 0 <= s < |ds|
      ensures ds[s].wanted == ds2[s].wanted + if Between(S, h, w, i, s) then 1 else 0
    {
      BetweenDown(S, h, w, i, s);
    }
  }

  /** The loop body's effect on the slots, step by step: probe number, counters, entry, bound and the
      counter of the hole. */
  ghost predicate ShiftSteps(S: Space, ds: seq<Desc>, ds1: seq<Desc>, ds2: seq<Desc>, z: nat, w: nat, o: nat, p: nat) {
    && o < |ds| && ds[o].entry.Full? && z < |ds| && |ds1| == |ds| && |ds2| == |ds|
    && var h := S.home(ds[o].entry.item.key);
    && h < |ds|
    && Raised(S, ds1, ds[z := ds[z].(probes := w)], h, w + 1, p + 1) && ds1[z].wanted > 0
    && forall s :: 0 <= s < |ds| ==>
         && ds2[s].entry == (if s == z then ds[o].entry else ds1[s].entry)
         && ds2[s].probes == ds1[s].probes
         && ds1[s].wanted == ds2[s].wanted + (if s == z then 1 else 0)
         && ds2[s].bound == if s == h && w < WORD_MAX && (ds1[h].wanted == 1 || ds1[h].bound == WORD_MAX)
                            then w else ds1[s].bound
  }

  lemma ShiftEffect(S: Space, ds: seq<Desc>, ds1: seq<Desc>, ds2: seq<Desc>, G: Layout, max: nat, z: nat, w: nat,
                    o: nat, p: nat)
    requires Holed(S, ds, G, max, z) && Successor(S, ds, G, z, w, o, p)
    requires ShiftSteps(S, ds, ds1, ds2, z, w, o, p)
    ensures Shifted(S, ds, ds2, z, ds[o].entry.item, w, p + 1)
  {
    var h := S.home(ds[o].entry.item.key);
    ShiftRecount(S, ds[z := ds[z].(probes := w)], ds1, ds2, h, w, p + 1, z);
  }

  /** One shift moves the hole to the slot of the successor and keeps everything else. */
  lemma ShiftHoled(S: Space, ds: seq<Desc>, ds1: seq<Desc>, ds2: seq<Desc>, G: Layout, max: nat, z: nat, w: nat,
                   o: nat, p: nat)
    requires Holed(S, ds, G, max, z) && Successor(S, ds, G, z, w, o, p)
    requires ShiftSteps(S, ds, ds1, ds2, z, w, o, p)
    ensures var item := ds[o].entry.item; Holed(S, ds2, G[item.key := Spot(item, w)], max, o)
  {
    var item := ds[o].entry.item;
    ShiftEffect(S, ds, ds1, ds2, G, max, z, w, o, p);
    ShiftStruct(S, ds, ds2, G, max, z, item, w, o, p);
    ShiftCounted(S, ds, ds2, G, item, w);
    ShiftLimited(S, ds, ds2, G, max, z, item, w);
  }

  lemma NewBound(S: Space, ds: seq<Desc>, ds1: seq<Desc>, ds2: seq<Desc>, G: Layout, max: nat, z: nat, w: nat,
                 o: nat, p: nat)
    requires Fair(S) && Limited(S, ds, G, max) && Successor(S, ds, G, z, w, o, p)
    requires ShiftSteps(S, ds, ds1, ds2, z, w, o, p)
    requires Wanted(S, ds2, G[ds[o].entry.item.key := Spot(ds[o].entry.item, w)])
    ensures var item := ds[o].entry.item;
            var h := S.home(item.key);
            || ds2[h].bound == ds[h].bound || Reaches(S, G[item.key := Spot(item, w)], h, w)
            || (ds[h].bound == WORD_MAX && ds1[h].wanted != 1)
  {
    var item := ds[o].entry.item;
    var h := S.home(item.key);
    if ds1[h].wanted == 1 {
      SoleKey(S, ds2, G[item.key := Spot(item, w)], item.key, z, w);
    }
  }

  // ---- The code ---------------------------------------------------------------------------------

  lemma ShiftSum(S: Space, ds: seq<Desc>, ds2: seq<Desc>, h: nat, w: nat, i: nat, z: nat)
    requires Recounted(S, ds2, ds, h, w, i) && w < i && z == S.slot(h, w) && z < |ds|
    ensures SumWanted(ds2) < SumWanted(ds)
  {
    assert Between(S, h, w, i, z);
    assert ds2[z].wanted < ds[z].wanted;
    SumLess(ds, ds2);
  }

  /** The hole is the probe its slot records, from home h. */
  ghost predicate HoleAt(S: Space, ds: seq<Desc>, max: nat, z: nat, h: nat) {
    z < |ds| && h < S.cap && 1 <= ds[z].probes <= max && z == S.slot(h, ds[z].probes)
  }

  lemma WantedFrame(S: Space, ds: seq<Desc>, ds': seq<Desc>, h: nat, i: nat, j: nat)
    requires AllWanted(S, ds, h, i, j) && |ds'| == |ds| && forall s :: 0 <= s < |ds| ==> ds'[s].wanted == ds[s].wanted
    ensures AllWanted(S, ds', h, i, j)
  {
  }

  /** Moves the entry of slot o up to slot z. */
  method PullUp(ghost S: Space, hf: int -> nat, a: array<Desc>, max: nat, z: nat, w: nat, o: nat, p: nat)
    returns (h: nat, ghost ds1: seq<Desc>)
    requires Tracks(S, hf, a.Length) && z < a.Length && o < a.Length && z != o && a[o].entry.Full?
    requires 1 <= w <= p < max <= a.Length && a[o].probes == p + 1 && a[z].wanted > 0
    requires var home := S.home(a[o].entry.item.key);
             && S.slot(home, w) == z && S.slot(home, p + 1) == o
             && AllWanted(S, a[..], home, w + 1, p + 1)
    modifies a
    ensures h == S.home(old(a[o].entry.item.key)) && ShiftSteps(S, old(a[..]), ds1, a[..], z, w, o, p)
  {
    ghost var ds, home := a[..], S.home(a[o].entry.item.key);
    a[z] := a[z].(probes := w);
    assert a[..] == ds[z := ds[z].(probes := w)];
    WantedFrame(S, ds, a[..], home, w + 1, p + 1);
    h := RemoveWanted(S, hf, a, o, z, home, w + 1);
    ds1 := a[..];
    HoleCount(S, ds, ds1, h, w, p + 1, z);
    CopyUp(S, hf, a, max, z, w, o, p, h);
  }

  /** Stores the entry, the bound of its home and the counter of the hole. */
  method CopyUp(ghost S: Space, hf: int -> nat, a: array<Desc>, max: nat, z: nat, w: nat, o: nat, p: nat, h: nat)
    requires Tracks(S, hf, a.Length) && z < a.Length && o < a.Length && z != o && h < a.Length && a[z].wanted > 0
    requires 1 <= p < max <= a.Length && o == S.slot(h, p + 1)
    modifies a
    ensures forall s :: 0 <= s < a.Length ==>
              && a[s].entry == old(if s == z then a[o].entry else a[s].entry) && a[s].probes == old(a[s].probes)
              && old(a[s].wanted) == a[s].wanted + (if s == z then 1 else 0)
              && a[s].bound == if s == h && w < WORD_MAX && (old(a[h].wanted) == 1 || old(a[h].bound) == WORD_MAX)
                               then w else old(a[s].bound)
  {
    a[z] := a[z].(entry := a[o].entry);
    LowerBound(S, hf, a, max, h, w, o, p);
    a[z] := a[z].(wanted := a[z].wanted - 1);
  }

  /** A deletion between two shifts: the slots, the layout, the hole and the home it was reached from. */
  datatype Stage = Stage(ds: seq<Desc>, G: Layout, z: nat, h: nat)

  ghost predicate StageOk(S: Space, max: nat, x: Stage) {
    Holed(S, x.ds, x.G, max, x.z) && HoleAt(S, x.ds, max, x.z, x.h)
  }

  /** The shift from stage x to stage y moves the entry at probe p + 1 to probe w. */
  ghost predicate Moves(S: Space, max: nat, x: Stage, y: Stage, mid: seq<Desc>, w: nat, p: nat) {
    && First(S, x.ds, x.G, max, x.z, w, y.z, p) && ShiftSteps(S, x.ds, mid, y.ds, x.z, w, y.z, p)
    && var item := x.ds[y.z].entry.item;
    && y.G == x.G[item.key := Spot(item, w)] && y.h == S.home(item.key)
  }

  ghost predicate Follows(S: Space, max: nat, x: Stage, y: Stage) {
    exists mid, w, p :: Moves(S, max, x, y, mid, w, p)
  }

  /** Fills the hole with a successor, whose slot becomes the hole. */
  method Shift(ghost S: Space, hf: int -> nat, a: array<Desc>, max: nat, z: nat, ghost x: Stage)
    returns (o: nat, h: nat, ghost y: Stage)
    requires Tracks(S, hf, a.Length) && StageOk(S, max, x) && x.ds == a[..] && x.z == z && a[z].wanted > 0
    modifies a
    ensures Follows(S, max, x, y) && StageOk(S, max, y) && y.ds == a[..] && y.z == o && y.h == h
    ensures SameItems(x.G, y.G) && SumWanted(a[..]) < SumWanted(old(a[..]))
  {
    var w, p;
    ghost var ds, G := a[..], x.G;
    w, o, p := FindSuccessor(S, hf, a, max, z, G);
    SuccessorCounted(S, ds, ds, G, max, z, w, o, p);
    ghost var mid;
    h, mid := PullUp(S, hf, a, max, z, w, o, p);
    y := Stage(a[..], G[ds[o].entry.item.key := Spot(ds[o].entry.item, w)], o, h);
    Pulled(S, max, x, y, mid, w, p);
  }

  /** The slot of the successor is the probe it records. */
  lemma PulledHole(S: Space, max: nat, x: Stage, y: Stage, p: nat)
    requires |x.ds| == |y.ds| && y.z < |x.ds| && x.ds[y.z].entry.Full? && y.ds[y.z].probes == p + 1 <= max
    requires var k := x.ds[y.z].entry.item.key; At(S, k, p + 1) == y.z && y.h == S.home(k) && y.h < S.cap
    ensures HoleAt(S, y.ds, max, y.z, y.h)
  {
  }

  lemma PulledStage(S: Space, max: nat, x: Stage, y: Stage, mid: seq<Desc>, w: nat, p: nat)
    requires StageOk(S, max, x) && Moves(S, max, x, y, mid, w, p)
    ensures StageOk(S, max, y) && SameItems(x.G, y.G)
  {
    ShiftHoled(S, x.ds, mid, y.ds, x.G, max, x.z, w, y.z, p);
    ShiftEffect(S, x.ds, mid, y.ds, x.G, max, x.z, w, y.z, p);
    PulledHole(S, max, x, y, p);
  }

  lemma PulledSum(S: Space, max: nat, x: Stage, y: Stage, mid: seq<Desc>, w: nat, p: nat)
    requires StageOk(S, max, x) && Moves(S, max, x, y, mid, w, p)
    ensures SumWanted(y.ds) < SumWanted(x.ds)
  {
    ShiftEffect(S, x.ds, mid, y.ds, x.G, max, x.z, w, y.z, p);
    ShiftSum(S, x.ds, y.ds, y.h, w, p + 1, x.z);
  }

  lemma Pulled(S: Space, max: nat, x: Stage, y: Stage, mid: seq<Desc>, w: nat, p: nat)
    requires StageOk(S, max, x) && Moves(S, max, x, y, mid, w, p)
    ensures Follows(S, max, x, y) && StageOk(S, max, y) && SameItems(x.G, y.G) && SumWanted(y.ds) < SumWanted(x.ds)
  {
    PulledStage(S, max, x, y, mid, w, p);
    PulledSum(S, max, x, y, mid, w, p);
  }

  lemma HoleCount(S: Space, ds: seq<Desc>, ds1: seq<Desc>, h: nat, w: nat, i: nat, z: nat)
    requires Fair(S) && |ds| == S.cap && h < S.cap && 1 <= w < i <= S.cap && z == S.slot(h, w)
    requires Raised(S, ds1, ds[z := ds[z].(probes := w)], h, w + 1, i)
    ensures ds1[z].wanted == ds[z].wanted
  {
    BetweenDown(S, h, w, i, z);
  }

  /** ds with the hole emptied and the bound of its home lowered. */
  ghost predicate Cleared(ds: seq<Desc>, ds': seq<Desc>, z: nat, h: nat) {
    && |ds'| == |ds| && z < |ds| && ds[z].probes >= 1
    && forall s :: 0 <= s < |ds| ==>
         && ds'[s].entry == (if s == z then Empty else ds[s].entry)
         && ds'[s].probes == (if s == z then 0 else ds[s].probes)
         && ds'[s].wanted == ds[s].wanted
         && ds'[s].bound == if s == h && ds[z].probes - 1 < WORD_MAX then ds[z].probes - 1 else ds[s].bound
  }

  lemma NotPassed(S: Space, ds: seq<Desc>, G: Layout, max: nat, z: nat, k: int, j: nat)
    requires Holed(S, ds, G, max, z) && ds[z].wanted == 0 && k in G && 1 <= j <= G[k].idx
    ensures At(S, k, j) != z
  {
    assert PlacedAt(S, ds, k, G[k]);
    if At(S, k, j) == z && j < G[k].idx {
      CountedPasser(S, ds, G, k, j);
    }
  }

  lemma ClearedStruct(S: Space, ds: seq<Desc>, ds': seq<Desc>, G: Layout, max: nat, z: nat, h: nat)
    requires Holed(S, ds, G, max, z) && ds[z].wanted == 0 && Cleared(ds, ds', z, h)
    ensures Struct(S, ds', G, -1) && Indexed(S, ds', G, {})
  {
    forall k | k in G ensures PlacedAt(S, ds', k, G[k]) {
      assert PlacedAt(S, ds, k, G[k]);
      forall j | 1 <= j <= G[k].idx ensures IsFull(ds', At(S, k, j)) {
        assert IsFull(ds, At(S, k, j));
        NotPassed(S, ds, G, max, z, k, j);
      }
    }
    forall s: nat | s < |ds'| && ds'[s].entry.Full? ensures HeldAt(S, ds', G, s) {
      assert HeldAt(S, ds, G, s);
    }
  }

  /** No key of the home of the hole sits at its probe or further out. */
  lemma NoneBeyond(S: Space, ds: seq<Desc>, G: Layout, max: nat, z: nat, h: nat)
    requires Holed(S, ds, G, max, z) && ds[z].wanted == 0 && HoleAt(S, ds, max, z, h)
    ensures Reaches(S, G, h, ds[z].probes - 1)
  {
    forall k | k in G && S.home(k) == h ensures G[k].idx <= ds[z].probes - 1 {
      if ds[z].probes <= G[k].idx { NotPassed(S, ds, G, max, z, k, ds[z].probes); }
    }
  }

  /** Emptying the hole leaves a map, and a key out of reach only if it was before. */
  lemma ClearedKept(S: Space, ds: seq<Desc>, ds': seq<Desc>, G: Layout, max: nat, z: nat, h: nat)
    requires Holed(S, ds, G, max, z) && ds[z].wanted == 0 && HoleAt(S, ds, max, z, h) && Cleared(ds, ds', z, h)
    ensures Kept(S, ds', G, max) && (Reachable(S, ds, G) ==> Reachable(S, ds', G))
  {
    ClearedStruct(S, ds, ds', G, max, z, h);
    NoneBeyond(S, ds, G, max, z, h);
  }

  lemma TakeOutStruct(S: Space, ds: seq<Desc>, G: Layout, k: int)
    requires Struct(S, ds, G, -1) && k in G
    ensures Struct(S, ds, G - {k}, At(S, k, G[k].idx))
  {
    var z, G' := At(S, k, G[k].idx), G - {k};
    assert PlacedAt(S, ds, k, G[k]);
    forall k' | k' in G' ensures At(S, k', G'[k'].idx) != z {
      if At(S, k', G'[k'].idx) == z { SameSlot(S, ds, G, -1, k, k'); }
    }
    forall k' | k' in G' ensures PlacedAt(S, ds, k', G'[k']) {
      assert PlacedAt(S, ds, k', G[k']);
    }
    forall s: nat | s < |ds| && s != z && ds[s].entry.Full? ensures HeldAt(S, ds, G', s) {
      assert HeldAt(S, ds, G, s);
    }
  }

  /** Taking a key out of the layout leaves its slot as the hole. */
  lemma TakeOut(S: Space, ds: seq<Desc>, ds': seq<Desc>, G: Layout, max: nat, k: int)
    requires Kept(S, ds, G, max) && k in G && Raised(S, ds', ds, S.home(k), 1, G[k].idx)
    ensures Holed(S, ds', G - {k}, max, At(S, k, G[k].idx))
    ensures HoleAt(S, ds', max, At(S, k, G[k].idx), S.home(k))
  {
    var G' := G - {k};
    TakeOutStruct(S, ds, G, k);
    StructFrame(S, ds, ds', G', At(S, k, G[k].idx));
    assert G'[k := G[k]] == G;
    assert PlacedAt(S, ds, k, G[k]);
    CountedAfterLower(S, ds, ds', G', k, G[k], 1);
  }

  lemma AllCounted(S: Space, ds: seq<Desc>, G: Layout, k: int)
    requires Fair(S) && |ds| == S.cap && Wanted(S, ds, G) && k in G
    ensures AllWanted(S, ds, S.home(k), 1, G[k].idx)
  {
    forall m: nat | 1 <= m < G[k].idx
      ensures S.slot(S.home(k), m) < |ds| && ds[S.slot(S.home(k), m)].wanted > 0
    {
      CountedPasser(S, ds, G, k, m);
    }
  }

  /** Uncounts the entry of a slot, which becomes the hole. */
  method OpenHole(ghost S: Space, hf: int -> nat, a: array<Desc>, ghost max: nat, slot: nat, ghost G: Layout)
    returns (h: nat, ghost x: Stage)
    requires Tracks(S, hf, a.Length) && Kept(S, a[..], G, max) && slot < a.Length && a[slot].entry.Full?
    modifies a
    ensures Opened(S, max, old(a[..]), G, old(a[slot].entry.item.key), x)
    ensures x.ds == a[..] && x.z == slot && x.h == h
  {
    ghost var k, ds := a[slot].entry.item.key, a[..];
    assert HeldAt(S, ds, G, slot);
    assert PlacedAt(S, ds, k, G[k]);
    AllCounted(S, ds, G, k);
    h := RemoveWanted(S, hf, a, slot, -1, S.home(k), 1);
    TakeOut(S, ds, a[..], G, max, k);
    x := FirstStage(S, a[..], G, k);
  }

  /** Empties a hole that no key passes. */
  method CloseHole(ghost S: Space, a: array<Desc>, ghost max: nat, z: nat, h: nat, ghost G: Layout)
    requires Holed(S, a[..], G, max, z) && a[z].wanted == 0 && HoleAt(S, a[..], max, z, h)
    modifies a
    ensures Cleared(old(a[..]), a[..], z, h) && Kept(S, a[..], G, max)
  {
    ghost var ds := a[..];
    var probes := a[z].probes;
    a[z] := a[z].(entry := Empty, probes := 0);
    if probes - 1 < WORD_MAX {
      a[h] := a[h].(bound := probes - 1);
    }
    ClearedKept(S, ds, a[..], G, max, z, h);
  }

  ghost function FirstStage(S: Space, ds: seq<Desc>, G: Layout, key: int): Stage
    requires key in G
  {
    Stage(ds, G - {key}, At(S, key, G[key].idx), S.home(key))
  }

  /** The key is no longer counted, and its slot is the hole. */
  ghost predicate Opened(S: Space, max: nat, ds: seq<Desc>, G: Layout, key: int, x: Stage) {
    && key in G && x == FirstStage(S, x.ds, G, key) && StageOk(S, max, x)
    && Raised(S, x.ds, ds, S.home(key), 1, G[key].idx)
  }

  ghost predicate StageAt(S: Space, max: nat, tr: seq<Stage>, t: nat) { t < |tr| && StageOk(S, max, tr[t]) }

  ghost predicate FollowsAt(S: Space, max: nat, tr: seq<Stage>, t: nat) {
    0 < t < |tr| && Follows(S, max, tr[t - 1], tr[t])
  }

  /** A run of shifts. */
  ghost predicate Trace(S: Space, max: nat, tr: seq<Stage>) {
    && |tr| > 0
    && (forall t: nat {:trigger StageAt(S, max, tr, t)} :: t < |tr| ==> StageAt(S, max, tr, t))
    && (forall t: nat {:trigger FollowsAt(S, max, tr, t)} :: 0 < t < |tr| ==> FollowsAt(S, max, tr, t))
  }

  function Last(tr: seq<Stage>): Stage
    requires |tr| > 0
  {
    tr[|tr| - 1]
  }

  /** The deletion of a key from the map (ds, G): it ends with the map (ds', Last(tr).G). */
  ghost predicate Deletes(S: Space, max: nat, ds: seq<Desc>, G: Layout, key: int, tr: seq<Stage>, ds': seq<Desc>) {
    Trace(S, max, tr) && Opened(S, max, ds, G, key, tr[0]) && Closes(S, max, Last(tr), ds')
  }

  /** No key passes the hole any more, and it is emptied. */
  ghost predicate Closes(S: Space, max: nat, x: Stage, ds': seq<Desc>) {
    StageOk(S, max, x) && x.ds[x.z].wanted == 0 && Cleared(x.ds, ds', x.z, x.h)
  }

  lemma TraceMore(S: Space, max: nat, tr: seq<Stage>, y: Stage)
    requires Trace(S, max, tr) && Follows(S, max, Last(tr), y) && StageOk(S, max, y)
    ensures Trace(S, max, tr + [y])
  {
    var tr' := tr + [y];
    forall t: nat | t < |tr'| ensures StageAt(S, max, tr', t) {
      assert t < |tr| ==> StageAt(S, max, tr, t);
    }
    forall t: nat | 0 < t < |tr'| ensures FollowsAt(S, max, tr', t) {
      assert t < |tr| ==> FollowsAt(S, max, tr, t);
    }
  }

  /** Deletes the entry of a slot: no other entry is lost, whatever lookups reach. */
  method ShiftDelete(ghost S: Space, hf: int -> nat, a: array<Desc>, max: nat, slot: nat, ghost G: Layout)
    returns (ghost tr: seq<Stage>)
    requires Tracks(S, hf, a.Length) && Kept(S, a[..], G, max) && slot < a.Length && a[slot].entry.Full?
    modifies a
    ensures Deletes(S, max, old(a[..]), G, old(a[slot].entry.item.key), tr, a[..])
    ensures Kept(S, a[..], Last(tr).G, max) && SameItems(G - {old(a[slot].entry.item.key)}, Last(tr).G)
  {
    var z := slot;
    var h;
    ghost var x;
    h, x := OpenHole(S, hf, a, max, slot, G);
    tr := [x];
    while a[z].wanted > 0
      invariant Trace(S, max, tr) && tr[0] == x && SameItems(x.G, Last(tr).G) && StageOk(S, max, Last(tr))
      invariant Last(tr).ds == a[..] && Last(tr).z == z && Last(tr).h == h
      decreases SumWanted(a[..])
    {
      ghost var y;
      z, h, y := Shift(S, hf, a, max, z, Last(tr));
      SameItemsTrans(x.G, Last(tr).G, y.G);
      TraceMore(S, max, tr, y);
      tr := tr + [y];
    }
    CloseHole(S, a, max, z, h, Last(tr).G);
  }

  // ---- When lookups still reach every key -----------------------------------------------------------

  /** Lookups reach every key of the stage, and none by way of the maximum. */
  ghost predicate InReach(S: Space, x: Stage) { Reachable(S, x.ds, x.G) && Unsaturated(x.ds) }

  lemma FollowsReaches(S: Space, max: nat, x: Stage, y: Stage)
    requires StageOk(S, max, x) && Follows(S, max, x, y) && InReach(S, x)
    ensures InReach(S, y)
  {
    var mid, w, p :| Moves(S, max, x, y, mid, w, p);
    ShiftReaches(S, x.ds, mid, y.ds, x.G, max, x.z, w, y.z, p);
  }

  lemma StepReaches(S: Space, max: nat, tr: seq<Stage>, t: nat)
    requires Trace(S, max, tr) && 0 < t < |tr| && InReach(S, tr[t - 1])
    ensures InReach(S, tr[t])
  {
    assert FollowsAt(S, max, tr, t) && StageAt(S, max, tr, t - 1);
    FollowsReaches(S, max, tr[t - 1], tr[t]);
  }

  lemma {:induction false} TraceReaches(S: Space, max: nat, tr: seq<Stage>, t: nat)
    requires Trace(S, max, tr) && t < |tr| && InReach(S, tr[0])
    ensures InReach(S, tr[t])
  {
    if t > 0 {
      TraceReaches(S, max, tr, t - 1);
      StepReaches(S, max, tr, t);
    }
  }

  lemma OpenedReaches(S: Space, max: nat, ds: seq<Desc>, G: Layout, key: int, x: Stage)
    requires Opened(S, max, ds, G, key, x) && Reachable(S, ds, G) && Unsaturated(ds)
    ensures InReach(S, x)
  {
  }

  lemma ClosesReaches(S: Space, max: nat, x: Stage, ds': seq<Desc>)
    requires Closes(S, max, x, ds') && InReach(S, x)
    ensures Reachable(S, ds', x.G)
  {
    ClearedKept(S, x.ds, ds', x.G, max, x.z, x.h);
  }

  /** A deletion from a map without saturated bounds leaves every other key within reach. */
  lemma DeletionSafe(S: Space, max: nat, ds: seq<Desc>, G: Layout, key: int, tr: seq<Stage>, ds': seq<Desc>)
    requires Deletes(S, max, ds, G, key, tr, ds') && Reachable(S, ds, G) && Unsaturated(ds)
    ensures Reachable(S, ds', Last(tr).G)
  {
    OpenedReaches(S, max, ds, G, key, tr[0]);
    TraceReaches(S, max, tr, |tr| - 1);
    ClosesReaches(S, max, Last(tr), ds');
  }
}
