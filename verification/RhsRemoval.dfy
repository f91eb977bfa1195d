/** Exactly which maps survive every removal, by their probe maximum and by their capacity. */
module RhsRemoval {
  import opened Internal
  import opened RhsProbe
  import opened RhsLayout
  import opened RhsCounters
  import opened RhsSearch
  import opened RhsDelete
  import opened RhsMap
  import opened RhsSaturation

  // ---- A deletion can always be carried through ------------------------------------------------------

  /** The first probe at which some key passes the hole. */
  lemma FirstProbe(S: Space, G: Layout, max: nat, z: nat) returns (w: nat)
    requires !NoneBefore(S, G, z, max)
    ensures 1 <= w < max && NoneBefore(S, G, z, w) && !NoneBefore(S, G, z, w + 1)
  {
    w := 1;
    while NoneBefore(S, G, z, w + 1)
      invariant 1 <= w < max && NoneBefore(S, G, z, w)
      decreases max - w
    {
      w := w + 1;
    }
  }

  /** The first key to pass the hole at probe w. */
  lemma FirstKey(S: Space, G: Layout, max: nat, z: nat, w: nat) returns (p: nat, k: int)
    requires NoneBefore(S, G, z, w) && !NoneBefore(S, G, z, w + 1) && (forall k :: k in G ==> G[k].idx <= max)
    ensures w <= p < max && NoneAt(S, G, z, w, p) && k in G && At(S, k, w) == z && G[k].idx == p + 1
  {
    p := w;
    while NoneAt(S, G, z, w, p + 1)
      invariant w <= p < max && NoneAt(S, G, z, w, p)
      decreases max - p
    {
      p := p + 1;
    }
    k :| k in G && At(S, k, w) == z && G[k].idx == p + 1;
  }

  lemma FirstExists(S: Space, ds: seq<Desc>, G: Layout, max: nat, z: nat) returns (w: nat, o: nat, p: nat)
    requires Holed(S, ds, G, max, z) && ds[z].wanted > 0
    ensures First(S, ds, G, max, z, w, o, p)
  {
    SomeAhead(S, ds, G, max, z);
    w := FirstProbe(S, G, max, z);
    var k;
    p, k := FirstKey(S, G, max, z, w);
    o := At(S, k, p + 1);
    assert PlacedAt(S, ds, k, G[k]);
  }

  ghost function Lowered(S: Space, ds: seq<Desc>, h: nat, i: nat, j: nat): seq<Desc> {
    seq(|ds|, s requires 0 <= s < |ds| =>
      ds[s].(wanted := if Between(S, h, i, j, s) && ds[s].wanted > 0 then ds[s].wanted - 1 else ds[s].wanted))
  }

  lemma LoweredRaised(S: Space, ds: seq<Desc>, h: nat, i: nat, j: nat)
    requires AllWanted(S, ds, h, i, j)
    ensures Raised(S, Lowered(S, ds, h, i, j), ds, h, i, j)
  {
  }

  /** The slots after the entry of slot o has moved up to the hole. */
  ghost function Filled(mid: seq<Desc>, z: nat, o: nat, w: nat, h: nat): seq<Desc>
    requires o < |mid| && h < |mid|
  {
    seq(|mid|, s requires 0 <= s < |mid| =>
      mid[s].(entry := if s == z then mid[o].entry else mid[s].entry,
              wanted := if s == z && mid[s].wanted > 0 then mid[s].wanted - 1 else mid[s].wanted,
              bound := if s == h && w < WORD_MAX && (mid[h].wanted == 1 || mid[h].bound == WORD_MAX) then w
                       else mid[s].bound))
  }

  lemma StepsExist(S: Space, ds: seq<Desc>, G: Layout, max: nat, z: nat, w: nat, o: nat, p: nat)
    returns (mid: seq<Desc>, ds2: seq<Desc>)
    requires Holed(S, ds, G, max, z) && Successor(S, ds, G, z, w, o, p) && ds[z].wanted > 0
    ensures ShiftSteps(S, ds, mid, ds2, z, w, o, p)
  {
    var h := S.home(ds[o].entry.item.key);
    var ds0 := ds[z := ds[z].(probes := w)];
    SuccessorCounted(S, ds, ds0, G, max, z, w, o, p);
    LoweredRaised(S, ds0, h, w + 1, p + 1);
    mid := Lowered(S, ds0, h, w + 1, p + 1);
    HoleCount(S, ds, mid, h, w, p + 1, z);
    ds2 := Filled(mid, z, o, w, h);
  }

  lemma Continues(S: Space, max: nat, x: Stage) returns (y: Stage)
    requires StageOk(S, max, x) && x.ds[x.z].wanted > 0
    ensures Follows(S, max, x, y) && StageOk(S, max, y) && SumWanted(y.ds) < SumWanted(x.ds)
  {
    var w, o, p := FirstExists(S, x.ds, x.G, max, x.z);
    var mid, ds2 := StepsExist(S, x.ds, x.G, max, x.z, w, o, p);
    var item := x.ds[o].entry.item;
    y := Stage(ds2, x.G[item.key := Spot(item, w)], o, S.home(item.key));
    Pulled(S, max, x, y, mid, w, p);
  }

  /** From every stage the deletion runs to its end. */
  lemma Finishes(S: Space, max: nat, x: Stage) returns (tr: seq<Stage>, ds': seq<Desc>)
    requires StageOk(S, max, x)
    ensures Trace(S, max, tr) && tr[0] == x && Closes(S, max, Last(tr), ds')
  {
    tr := [x];
    while Last(tr).ds[Last(tr).z].wanted > 0
      invariant Trace(S, max, tr) && tr[0] == x && StageOk(S, max, Last(tr))
      decreases SumWanted(Last(tr).ds)
    {
      var y := Continues(S, max, Last(tr));
      TraceMore(S, max, tr, y);
      tr := tr + [y];
    }
    ds' := Emptied(Last(tr));
  }

  ghost function Emptied(x: Stage): seq<Desc> {
    seq(|x.ds|, s requires 0 <= s < |x.ds| =>
      var d := if s == x.z then x.ds[s].(entry := Empty, probes := 0) else x.ds[s];
      if s == x.h && x.z < |x.ds| && 1 <= x.ds[x.z].probes <= WORD_MAX then d.(bound := x.ds[x.z].probes - 1) else d)
  }

  // ---- A map with a given layout -----------------------------------------------------------------------

  ghost predicate Taken(S: Space, G: Layout, s: nat) { exists k :: k in G && At(S, k, G[k].idx) == s }

  /** Every key has a slot of its own, and no slot before it is free. */
  ghost predicate Layable(S: Space, G: Layout) {
    && (forall k :: k in G ==> 1 <= G[k].idx <= S.cap && G[k].item.key == k)
    && (forall k, k' :: k in G && k' in G && At(S, k, G[k].idx) == At(S, k', G[k'].idx) ==> k == k')
    && (forall k, j: nat {:trigger At(S, k, j)} :: k in G && 1 <= j <= G[k].idx ==> Taken(S, G, At(S, k, j)))
  }

  ghost function Laid(S: Space, G: Layout, bounds: nat -> nat, s: nat): Desc {
    var wanted := |Passers(S, G, s)|;
    if Taken(S, G, s) then
      var k :| k in G && At(S, k, G[k].idx) == s;
      Desc(G[k].idx, wanted, bounds(s), false, Full(G[k].item))
    else Desc(0, wanted, bounds(s), false, Empty)
  }

  ghost function Laying(S: Space, G: Layout, bounds: nat -> nat): seq<Desc> {
    seq(S.cap, s requires 0 <= s < S.cap => Laid(S, G, bounds, s))
  }

  lemma LaidPlaced(S: Space, G: Layout, bounds: nat -> nat, k: int)
    requires Fair(S) && Layable(S, G) && k in G
    ensures var ds := Laying(S, G, bounds);
            PlacedAt(S, ds, k, G[k]) && ds[At(S, k, G[k].idx)].probes == G[k].idx
  {
    var ds := Laying(S, G, bounds);
    LaidAt(S, G, bounds, k, G[k].idx);
    forall j | 1 <= j <= G[k].idx ensures IsFull(ds, At(S, k, j)) { LaidAt(S, G, bounds, k, j); }
  }

  lemma LaidHeld(S: Space, G: Layout, bounds: nat -> nat, s: nat)
    requires Fair(S) && Layable(S, G) && s < S.cap && Laid(S, G, bounds, s).entry.Full?
    ensures HeldAt(S, Laying(S, G, bounds), G, s)
  {
    assert Taken(S, G, s);
  }

  /** Every such layout is that of a map. */
  lemma LaidKept(S: Space, G: Layout, bounds: nat -> nat, max: nat)
    requires Fair(S) && Layable(S, G) && max <= S.cap && (forall k :: k in G ==> G[k].idx <= max)
    requires forall s: nat :: s < S.cap ==> bounds(s) <= max && bounds(s) <= WORD_MAX
    ensures Kept(S, Laying(S, G, bounds), G, max)
  {
    var ds := Laying(S, G, bounds);
    forall k | k in G ensures PlacedAt(S, ds, k, G[k]) && ds[At(S, k, G[k].idx)].probes == G[k].idx {
      LaidPlaced(S, G, bounds, k);
    }
    forall s: nat | s < |ds| && ds[s].entry.Full? ensures HeldAt(S, ds, G, s) {
      LaidHeld(S, G, bounds, s);
    }
  }

  lemma LaidAt(S: Space, G: Layout, bounds: nat -> nat, k: int, j: nat)
    requires Fair(S) && Layable(S, G) && k in G && 1 <= j <= G[k].idx
    ensures At(S, k, j) < S.cap && Laying(S, G, bounds)[At(S, k, j)].entry.Full?
    ensures j == G[k].idx ==> var d := Laying(S, G, bounds)[At(S, k, j)]; d.entry == Full(G[k].item) && d.probes == j
  {
    assert Taken(S, G, At(S, k, j));
  }

  // ---- The map that loses keys ---------------------------------------------------------------------------

  /** Key 0 hashes to slot g, every other key to home 0. */
  function Hash(g: nat): int -> nat { k => if k == 0 then g else 0 }

  /** The keys 1 to n of home 0 at their own probes, and key 0 at probe 2. */
  ghost function Crowded(n: nat): Layout {
    map k: int | 0 <= k <= n :: Spot(Item(k, 0), if k == 0 then 2 else k)
  }

  function Bounds(g: nat): nat -> nat { s => if s == 0 then WORD_MAX else if s == g then 2 else 0 }

  /** The n-th slot from home 0 is the home of key 0, whose second slot is the one after. */
  ghost predicate Staged(S: Space, g: nat, n: nat) {
    && Fair(S) && S.cap > n && g == S.slot(0, n) && S.slot(g, 2) == S.slot(0, n + 1)
    && (forall k: int :: S.home(k) == if k == 0 then g else 0)
  }

  lemma SecondSlot(cap: nat, n: nat)
    requires cap > 0 && n >= 1 && n % LINE != 0
    ensures Slot(cap, Slot(cap, 0, n), 2) == Slot(cap, 0, n + 1)
  {
    var g := Slot(cap, 0, n);
    assert Slot(cap, g, 1) == g;
    assert Slot(cap, g, 2) == Next(cap, g, 1) && Slot(cap, 0, n + 1) == Next(cap, g, n);
  }

  lemma StagedHomes(S: Space, hf: int -> nat, cap: nat, g: nat, k: int)
    requires Tracks(S, hf, cap) && hf == Hash(g) && g < cap
    ensures S.home(k) == if k == 0 then g else 0
  {
    assert S.home(k) == hf(k) % cap;
    DivModUnique(hf(k), cap, 0, hf(k));
  }

  lemma Staging(cap: nat, n: nat) returns (S: Space, hf: int -> nat, g: nat)
    requires Capacity(cap) && 1 <= n < cap && n % LINE != 0
    ensures Tracks(S, hf, cap) && Staged(S, g, n)
  {
    g := Slot(cap, 0, n);
    var lines := LinesOf(cap);
    SlotInRange(cap, 0, n);
    SecondSlot(cap, n);
    hf := Hash(g);
    S := SpaceOf(hf, cap);
    SpaceTracks(hf, cap);
    forall k: int ensures S.home(k) == if k == 0 then g else 0 { StagedHomes(S, hf, cap, g, k); }
    assert S.slot(0, n) == g && S.slot(g, 2) == S.slot(0, n + 1);
  }

  lemma CrowdedAt(S: Space, g: nat, n: nat, k: int)
    requires Staged(S, g, n) && 0 <= k <= n
    ensures var p := if k == 0 then n + 1 else k;
            At(S, k, Crowded(n)[k].idx) == S.slot(0, p) && S.probe(0, S.slot(0, p)) == p
  {
  }

  lemma CrowdedLayable(S: Space, g: nat, n: nat)
    requires Staged(S, g, n) && n >= 2
    ensures Layable(S, Crowded(n))
  {
    var G := Crowded(n);
    forall k, k' | k in G && k' in G && At(S, k, G[k].idx) == At(S, k', G[k'].idx) ensures k == k' {
      CrowdedAt(S, g, n, k);
      CrowdedAt(S, g, n, k');
    }
    forall k, j: nat | k in G && 1 <= j <= G[k].idx ensures Taken(S, G, At(S, k, j)) {
      var k' := if k != 0 then j else if j == 1 then n else 0;
      CrowdedAt(S, g, n, k');
      assert k' in G && At(S, k', G[k'].idx) == At(S, k, j);
    }
  }

  lemma CrowdedCrowd(S: Space, g: nat, n: nat)
    requires Staged(S, g, n) && n >= 2
    ensures g != 0 && Crowd(S, Crowded(n) - {1}, 0, n, 1)
  {
    var G := Crowded(n) - {1};
    assert S.probe(0, S.slot(0, n)) == n && S.probe(0, S.slot(0, 1)) == 1;
    forall j: nat | 1 <= j <= n && j != 1 ensures Sits(S, G, 0, j) {
      assert j in G && S.home(j) == 0 && G[j].idx == j;
    }
    forall k, j: nat | k in G && S.home(k) != 0 && 1 <= j < n ensures !Passes(S, k, G[k].idx, S.slot(0, j)) {
      assert S.probe(0, S.slot(0, j)) == j;
    }
  }

  /** The map of that layout is sound. */
  lemma CrowdedGood(S: Space, g: nat, n: nat, max: nat)
    requires Staged(S, g, n) && n == WORD_MAX <= max <= S.cap
    ensures Good(S, Laying(S, Crowded(n), Bounds(g)), Crowded(n), max)
  {
    CrowdedLayable(S, g, n);
    LaidKept(S, Crowded(n), Bounds(g), max);
    CrowdedReach(S, g, n);
  }

  lemma CrowdedReach(S: Space, g: nat, n: nat)
    requires Staged(S, g, n) && n == WORD_MAX
    ensures Reachable(S, Laying(S, Crowded(n), Bounds(g)), Crowded(n))
  {
    CrowdedCrowd(S, g, n);
    forall s: nat | s < S.cap ensures Laying(S, Crowded(n), Bounds(g))[s].bound == Bounds(g)(s) {}
  }

  /** Removing key 1 from it puts the keys beyond probe 1 out of reach. */
  lemma CrowdedLost(S: Space, g: nat, n: nat, max: nat) returns (tr: seq<Stage>, ds': seq<Desc>)
    requires Staged(S, g, n) && n == WORD_MAX <= max <= S.cap
    ensures var G := Crowded(n); Deletes(S, max, Laying(S, G, Bounds(g)), G, 1, tr, ds')
    ensures !Reachable(S, ds', Last(tr).G)
  {
    var G := Crowded(n);
    var ds := Laying(S, G, Bounds(g));
    CrowdedGood(S, g, n, max);
    CrowdedCrowd(S, g, n);
    TakeOut(S, ds, ds, G, max, 1);
    var x := FirstStage(S, ds, G, 1);
    tr, ds' := Finishes(S, max, x);
    CrowdLost(S, max, ds, G, 1, tr, ds', 0, n, 0);
  }

  // ---- The exact conditions ------------------------------------------------------------------------------

  /** A removal from a valid map of this capacity and probe maximum. */
  ghost predicate Removes(cap: nat, max: nat, S: Space, hf: int -> nat, ds: seq<Desc>, G: Layout, key: int,
                          tr: seq<Stage>, ds': seq<Desc>) {
    && Tracks(S, hf, cap) && Good(S, ds, G, max) && max <= ProbeLimit(cap) && 2 * |G| <= cap
    && Deletes(S, max, ds, G, key, tr, ds')
  }

  /** Whatever is removed from a valid map of this capacity and probe maximum, lookups reach the rest. */
  ghost predicate Survives(cap: nat, max: nat) {
    forall S, hf, ds, G, key, tr, ds' :: Removes(cap, max, S, hf, ds, G, key, tr, ds') ==> Reachable(S, ds', Last(tr).G)
  }

  lemma {:induction false} CrowdedSize(n: nat)
    ensures |Crowded(n)| == n + 1
  {
    var G := Crowded(n);
    if n == 0 {
      assert G == map[0 := G[0]];
    } else {
      CrowdedSize(n - 1);
      assert G == Crowded(n - 1)[n := G[n]];
    }
  }

  /** Every removal from every valid map of a given capacity and probe maximum leaves all other keys
      within reach of lookups, if and only if the probe maximum is below 255. */
  lemma MaximumExact(cap: nat, max: nat)
    requires Capacity(cap) && max <= ProbeLimit(cap)
    ensures Survives(cap, max) <==> max < WORD_MAX
  {
    if max < WORD_MAX {
      forall S, hf, ds, G, key, tr, ds' | Removes(cap, max, S, hf, ds, G, key, tr, ds')
        ensures Reachable(S, ds', Last(tr).G)
      {
        DeletionSafe(S, max, ds, G, key, tr, ds');
      }
    } else {
      var n := WORD_MAX;
      var S, hf, g := Staging(cap, n);
      var tr, ds' := CrowdedLost(S, g, n, max);
      CrowdedGood(S, g, n, max);
      CrowdedSize(n);
      assert Removes(cap, max, S, hf, Laying(S, Crowded(n), Bounds(g)), Crowded(n), 1, tr, ds');
    }
  }

  /** Every removal from every valid map of a given capacity does so, if and only if the probe limit of
      that capacity is below 255. */
  lemma CapacityExact(cap: nat)
    requires Capacity(cap)
    ensures (forall max: nat :: max <= ProbeLimit(cap) ==> Survives(cap, max)) <==> ProbeLimit(cap) < WORD_MAX
  {
    forall max: nat | max <= ProbeLimit(cap) ensures Survives(cap, max) <==> max < WORD_MAX {
      MaximumExact(cap, max);
    }
    assert Survives(cap, ProbeLimit(cap)) <==> ProbeLimit(cap) < WORD_MAX;
  }

  // ---- A set that loses keys -------------------------------------------------------------------------------

  ghost predicate Distinct(keys: seq<int>) { forall i, j :: 0 <= i < j < |keys| ==> keys[i] != keys[j] }

  ghost predicate Among(keys: seq<int>, m: nat, k: int) { exists i :: 0 <= i < m && i < |keys| && keys[i] == k }

  /** The set holds exactly the first m keys. */
  ghost predicate HoldsFirst(M: Items, keys: seq<int>, m: nat) {
    m <= |keys| && |M| == m && forall k :: k in M <==> Among(keys, m, k)
  }

  lemma HoldsNext(M: Items, keys: seq<int>, m: nat, item: Item)
    requires Distinct(keys) && HoldsFirst(M, keys, m) && m < |keys| && item.key == keys[m]
    ensures keys[m] !in M && HoldsFirst(M[keys[m] := item], keys, m + 1)
  {
    var M' := M[keys[m] := item];
    forall k ensures k in M' <==> Among(keys, m + 1, k) {
      assert Among(keys, m + 1, k) <==> Among(keys, m, k) || k == keys[m];
    }
  }

  /** Puts the keys into an empty set. */
  method PutAll(hf: int -> nat, keys: seq<int>) returns (s: Rhs)
    requires Distinct(keys)
    ensures fresh(s) && fresh(s.a) && s.Valid() && s.hf == hf && HoldsFirst(s.Contents(), keys, |keys|)
  {
    s := new Rhs(hf, 0);
    for m := 0 to |keys|
      invariant fresh(s) && fresh(s.a) && s.Valid() && s.hf == hf && HoldsFirst(s.Contents(), keys, m)
    {
      HoldsNext(s.Contents(), keys, m, Item(keys[m], 0));
      var _ := s.Put(Item(keys[m], 0));
    }
  }

  /** After the removal of the key at probe 1 lookups find one other key and miss the rest. */
  lemma AllButOne(S: Space, max: nat, ds: seq<Desc>, G: Layout, key: int, tr: seq<Stage>, ds': seq<Desc>, h: nat,
                  k: int)
    requires Good(S, ds, G, max) && Deletes(S, max, ds, G, key, tr, ds') && OneHome(S, G, h)
    requires |G| > WORD_MAX && G[key].idx == 1 && k in Last(tr).G
    ensures h < |ds'| && S.home(k) == h && (Within(ds'[h], Last(tr).G[k].idx) <==> Last(tr).G[k].idx == 1)
  {
    AloneBound(S, max, ds, G, key, tr, ds', h);
  }

  /** The entry of probe j in a map whose keys all have one home. */
  lemma EntryAt(S: Space, ds: seq<Desc>, G: Layout, h: nat, j: nat) returns (k: int)
    requires Struct(S, ds, G, -1) && OneHome(S, G, h) && 1 <= j <= |G|
    ensures k in G && G[k].idx == j && G[k].item.key == k
    ensures S.slot(h, j) < |ds| && ds[S.slot(h, j)].entry == Full(G[k].item)
  {
    OutTo(S, ds, G, h, j);
    k :| k in G && S.home(k) == h && G[k].idx == j;
    assert PlacedAt(S, ds, k, G[k]);
  }

  /** In a map whose keys all have one home, an insertion finds every key that is held, also those
      that lookups miss: no entry on the way to it can be displaced. */
  lemma NoneHiddenAlone(S: Space, ds: seq<Desc>, G: Layout, max: nat, h: nat, key: int)
    requires Kept(S, ds, G, max) && OneHome(S, G, h)
    ensures !Hidden(S, ds, G, max, key)
  {
    if key in G && !Within(ds[S.home(key)], G[key].idx) {
      Contiguous(S, ds, G, h);
      forall j: nat | 1 <= j <= BoundGet(ds[S.home(key)], max) ensures !Displaceable(S, ds, key, j) {
        var k := EntryAt(S, ds, G, h, j);
        assert PlacedAt(S, ds, k, G[k]);
        assert At(S, k, j) == At(S, key, j);
      }
    }
  }

  /** Lookups find no key but one. */
  ghost predicate FindsOnly(s: Rhs, found: int)
    reads s, s.a
  {
    forall k :: k in s.G ==> (Finds(s.S, s.a, s.G, k) <==> k == found)
  }

  lemma OnlyFirst(S: Space, ds: seq<Desc>, G: Layout, h: nat) returns (found: int)
    requires Struct(S, ds, G, -1) && OneHome(S, G, h) && |G| >= 1
    ensures found in G && forall k :: k in G ==> (G[k].idx == 1 <==> k == found)
  {
    found := EntryAt(S, ds, G, h, 1);
    forall k | k in G && G[k].idx == 1 ensures k == found { SameSlot(S, ds, G, -1, k, found); }
  }

  /** Removes the key in the home slot of more than 255 keys of that home. */
  method RemoveFirst(s: Rhs, h: nat) returns (removed: int, ghost found: int)
    requires s.Valid() && OneHome(s.S, s.G, h) && |s.G| > WORD_MAX && h < s.a.Length
    modifies s, s.a
    ensures s.Holding() && s.a == old(s.a) && OneHome(s.S, s.G, h)
    ensures removed in old(s.Contents()) && s.Contents() == old(s.Contents()) - {removed}
    ensures found in s.G && s.G[found].idx == 1 && FindsOnly(s, found) && |s.G| == |old(s.G)| - 1
  {
    ghost var S, ds, G, max := s.S, s.a[..], s.G, s.maximum;
    ghost var k := EntryAt(S, ds, G, h, 1);
    removed := s.a[h].entry.item.key;
    var _, tr := s.Remove(removed);
    ghost var ds' := s.a[..];
    TraceKeys(S, max, tr, |tr| - 1);
    forall k | k in s.G ensures S.home(k) == h && (Within(ds'[h], s.G[k].idx) <==> s.G[k].idx == 1) {
      AllButOne(S, max, ds, G, removed, tr, ds', h, k);
    }
    found := OnlyFirst(S, ds', s.G, h);
  }

  lemma OneHash(S: Space, hf: int -> nat, cap: nat, G: Layout, keys: seq<int>, h: nat)
    requires Tracks(S, hf, cap) && HoldsFirst(ItemsOf(G), keys, |keys|) && |keys| > 0 && h == S.home(keys[0])
    requires forall k :: k in keys ==> hf(k) == hf(keys[0])
    ensures OneHome(S, G, h) && |G| == |keys|
  {
    assert G.Keys == ItemsOf(G).Keys;
    var k0 := keys[0];
    assert S.home(k0) == hf(k0) % cap;
    forall k | k in G ensures S.home(k) == h {
      assert k in ItemsOf(G) && Among(keys, |keys|, k);
      assert S.home(k) == hf(k) % cap;
    }
  }

  lemma AllKeys(M: Items, keys: seq<int>, k: int)
    requires HoldsFirst(M, keys, |keys|)
    ensures k in M <==> k in keys
  {
    assert k in M <==> Among(keys, |keys|, k);
  }

  /** A lookup of the key in the second slot, which is in the set, finds nothing. */
  method MissSecond(s: Rhs, h: nat, ghost found: int) returns (missed: int, r: Entry)
    requires s.Holding() && OneHome(s.S, s.G, h) && h < s.a.Length && |s.G| >= 2
    requires found in s.G && s.G[found].idx == 1 && FindsOnly(s, found)
    ensures missed in s.Contents() && missed != found && r == Empty
  {
    ghost var k := EntryAt(s.S, s.a[..], s.G, h, 2);
    var o := ProbeNext(s.S, s.hf, s.a.Length, h, 1, h);
    missed := s.a[o].entry.item.key;
    r := s.Get(missed);
  }

  /** Puts distinct keys of one hash value into an empty set. */
  method PutCrowd(hf: int -> nat, keys: seq<int>) returns (s: Rhs, h: nat)
    requires Distinct(keys) && |keys| > 0 && forall k :: k in keys ==> hf(k) == hf(keys[0])
    ensures fresh(s) && fresh(s.a) && s.Valid() && OneHome(s.S, s.G, h) && h < s.a.Length && |s.G| == |keys|
    ensures forall k :: k in s.Contents() <==> k in keys
  {
    s := PutAll(hf, keys);
    h := HomeSlot(s.S, hf, s.a.Length, keys[0]);
    OneHash(s.S, hf, s.a.Length, s.G, keys, h);
    ghost var M := s.Contents();
    forall k ensures k in M <==> k in keys { AllKeys(M, keys, k); }
  }

  lemma LessOne(M: Items, M': Items, keys: seq<int>, removed: int)
    requires M' == M - {removed} && forall k :: k in M <==> k in keys
    ensures forall k :: k in M' <==> k in keys && k != removed
  {
  }

  /** Removes the key in the home slot, and looks up another. */
  method RemoveAndMiss(s: Rhs, h: nat) returns (removed: int, missed: int, r: Entry, ghost found: int)
    requires s.Valid() && OneHome(s.S, s.G, h) && |s.G| > WORD_MAX && h < s.a.Length
    modifies s, s.a
    ensures s.Holding() && removed in old(s.Contents()) && s.Contents() == old(s.Contents()) - {removed}
    ensures FindsOnly(s, found) && missed in s.Contents() && missed != found && r == Empty
  {
    removed, found := RemoveFirst(s, h);
    missed, r := MissSecond(s, h, found);
  }

  /** Any 256 or more distinct keys of one hash value, put into a new set: once the key in their home
      slot has been removed, lookups miss every other key but one. */
  method LosesKeys(hf: int -> nat, keys: seq<int>)
    returns (s: Rhs, removed: int, missed: int, r: Entry, ghost found: int)
    requires Distinct(keys) && |keys| > WORD_MAX && forall k :: k in keys ==> hf(k) == hf(keys[0])
    ensures s.Holding() && removed in keys && forall k :: k in s.Contents() <==> k in keys && k != removed
    ensures FindsOnly(s, found) && missed in s.Contents() && missed != found && r == Empty
  {
    var h;
    s, h := PutCrowd(hf, keys);
    ghost var M := s.Contents();
    removed, missed, r, found := RemoveAndMiss(s, h);
    LessOne(M, s.Contents(), keys, removed);
  }
}
