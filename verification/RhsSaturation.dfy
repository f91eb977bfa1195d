/**
 Removal from a map whose probe bounds are saturated.

 A bound of 255 stands for the map's probe maximum. The first shift of a deletion that finds it
 there replaces it by the probe number of the entry just moved, however many entries of that home
 sit further out. Emptying the last hole repairs the bound only of the home it was reached from,
 and only below probe 256. What follows works out, over whole deletions, when keys are lost.
 */
module RhsSaturation {
  import opened Internal
  import opened RhsProbe
  import opened RhsLayout
  import opened RhsDelete

  // ---- Keys of one home ------------------------------------------------------------------------------

  /** Some key of home h sits at probe j. */
  ghost predicate Sits(S: Space, G: Layout, h: nat, j: nat) {
    exists k :: k in G && S.home(k) == h && G[k].idx == j
  }

  /** The keys of home h sit at the probes 1 to n, all but c, and no other key passes the first n - 1
      of those slots. */
  ghost predicate Crowd(S: Space, G: Layout, h: nat, n: nat, c: nat) {
    && h < S.cap && n <= S.cap
    && (forall k :: k in G && S.home(k) == h ==> 1 <= G[k].idx <= n && G[k].idx != c)
    && (forall j: nat {:trigger Sits(S, G, h, j)} :: 1 <= j <= n && j != c ==> Sits(S, G, h, j))
    && (forall k, j: nat {:trigger Passes(S, k, G[k].idx, S.slot(h, j))} ::
          k in G && S.home(k) != h && 1 <= j < n ==> !Passes(S, k, G[k].idx, S.slot(h, j)))
  }

  /** A key of the crowd is counted on every slot before its own. */
  lemma CrowdPasses(S: Space, G: Layout, h: nat, j: nat, c: nat) returns (k: int)
    requires Fair(S) && h < S.cap && Sits(S, G, h, j) && 1 <= c < j
    ensures k in G && S.home(k) == h && G[k].idx == j && k in Passers(S, G, S.slot(h, c))
  {
    k :| k in G && S.home(k) == h && G[k].idx == j;
    assert At(S, k, c) == S.slot(h, c);
  }

  /** In a crowd of four or more, at least two keys are counted on the home. */
  lemma ManyWanted(S: Space, ds: seq<Desc>, G: Layout, h: nat, n: nat, c: nat)
    requires Fair(S) && |ds| == S.cap && Wanted(S, ds, G) && Crowd(S, G, h, n, c) && n >= 4
    ensures ds[h].wanted >= 2
  {
    var i, j := if c == n then n - 1 else n, if c >= n - 1 then n - 2 else n - 1;
    assert Sits(S, G, h, i) && Sits(S, G, h, j);
    var k := CrowdPasses(S, G, h, i, 1);
    var k' := CrowdPasses(S, G, h, j, 1);
    SubsetSize({k, k'}, Passers(S, G, h));
  }

  lemma CrowdNext(S: Space, ds: seq<Desc>, G: Layout, z: nat, item: Item, h: nat, n: nat, c: nat)
    requires Struct(S, ds, G, z) && Crowd(S, G, h, n, c) && 1 <= c < n
    requires item.key in G && S.home(item.key) == h && G[item.key].idx == c + 1
    ensures Crowd(S, G[item.key := Spot(item, c)], h, n, c + 1)
  {
    var G' := G[item.key := Spot(item, c)];
    forall k | k in G' && S.home(k) == h ensures 1 <= G'[k].idx <= n && G'[k].idx != c + 1 {
      if k != item.key && G[k].idx == c + 1 { SameSlot(S, ds, G, z, k, item.key); }
    }
    forall j: nat | 1 <= j <= n && j != c + 1 ensures Sits(S, G', h, j) {
      if j == c {
        assert G'[item.key].idx == c;
      } else {
        assert Sits(S, G, h, j);
        var k :| k in G && S.home(k) == h && G[k].idx == j;
        assert k in G' && G'[k].idx == j;
      }
    }
    forall k, j: nat | k in G' && S.home(k) != h && 1 <= j < n ensures !Passes(S, k, G'[k].idx, S.slot(h, j)) {
      assert G'[k] == G[k];
    }
  }

  /** What the search for a successor meets first in a crowd is its next key. */
  lemma CrowdFirst(S: Space, ds: seq<Desc>, G: Layout, max: nat, z: nat, w: nat, o: nat, p: nat, h: nat, n: nat, c: nat)
    requires Holed(S, ds, G, max, z) && First(S, ds, G, max, z, w, o, p)
    requires Crowd(S, G, h, n, c) && 1 <= c < n && z == S.slot(h, c)
    ensures w == c && p == c && S.home(ds[o].entry.item.key) == h && o == S.slot(h, c + 1)
  {
    var k := ds[o].entry.item.key;
    assert Passes(S, k, G[k].idx, z);
    assert S.home(k) == h;
    assert S.probe(h, S.slot(h, w)) == w && S.probe(h, S.slot(h, c)) == c;
    assert Sits(S, G, h, c + 1);
    var k' := CrowdPasses(S, G, h, c + 1, c);
    assert At(S, k', w) == z;
  }

  /** The deletion moves the next key of the crowd up by one. */
  lemma CrowdMoves(S: Space, max: nat, x: Stage, y: Stage, mid: seq<Desc>, w: nat, p: nat, h: nat, n: nat, c: nat)
    requires StageOk(S, max, x) && Moves(S, max, x, y, mid, w, p)
    requires Crowd(S, x.G, h, n, c) && 1 <= c < n && x.z == S.slot(h, c)
    ensures y.z == S.slot(h, c + 1) && y.h == h && Crowd(S, y.G, h, n, c + 1) && SameOthers(S, x.G, y.G, h)
    ensures y.ds[h].bound == if c < WORD_MAX && (x.ds[h].wanted == 1 || x.ds[h].bound == WORD_MAX) then c
                             else x.ds[h].bound
  {
    CrowdFirst(S, x.ds, x.G, max, x.z, w, y.z, p, h, n, c);
    CrowdNext(S, x.ds, x.G, x.z, x.ds[y.z].entry.item, h, n, c);
  }

  /** The hole is at probe c of the crowd. */
  ghost predicate InCrowd(S: Space, x: Stage, h: nat, n: nat, c: nat) {
    Crowd(S, x.G, h, n, c) && x.z == S.slot(h, c) && x.h == h
  }

  /** Keys of other homes are as before. */
  ghost predicate SameOthers(S: Space, G: Layout, G': Layout, h: nat) {
    forall k :: k in G && S.home(k) != h ==> k in G' && G'[k] == G[k]
  }

  ghost function HomeBound(x: Stage, h: nat): nat { if h < |x.ds| then x.ds[h].bound else 0 }

  /** One shift in a crowd. A saturated bound becomes the probe of the key moved. */
  lemma CrowdStep(S: Space, max: nat, x: Stage, y: Stage, h: nat, n: nat, c: nat)
    requires StageOk(S, max, x) && Follows(S, max, x, y) && 1 < c <= n && InCrowd(S, x, h, n, c - 1)
    ensures InCrowd(S, y, h, n, c) && SameOthers(S, x.G, y.G, h)
    ensures n >= 4 ==>
              HomeBound(y, h) == if c - 1 < WORD_MAX && HomeBound(x, h) == WORD_MAX then c - 1 else HomeBound(x, h)
  {
    var mid, w, p :| Moves(S, max, x, y, mid, w, p);
    CrowdMoves(S, max, x, y, mid, w, p, h, n, c - 1);
    if n >= 4 { ManyWanted(S, x.ds, x.G, h, n, c - 1); }
  }

  /** Stage t of a deletion that starts in a crowd at probe i has the hole at probe c. */
  lemma {:induction false} CrowdTrace(S: Space, max: nat, tr: seq<Stage>, h: nat, n: nat, i: nat, t: nat, c: nat)
    requires Trace(S, max, tr) && 1 <= i && c <= n && c == i + t && t < |tr| && InCrowd(S, tr[0], h, n, i)
    ensures InCrowd(S, tr[t], h, n, c) && SameOthers(S, tr[0].G, tr[t].G, h)
    ensures n >= 4 && HomeBound(tr[0], h) == WORD_MAX ==>
              HomeBound(tr[t], h) == if t > 0 && i < WORD_MAX then i else WORD_MAX
    decreases t
  {
    if t > 0 {
      CrowdTrace(S, max, tr, h, n, i, t - 1, c - 1);
      assert FollowsAt(S, max, tr, t) && StageAt(S, max, tr, t - 1);
      CrowdStep(S, max, tr[t - 1], tr[t], h, n, c);
    }
  }

  /** The deletion does not end before the last key of the crowd has moved. */
  lemma CrowdLength(S: Space, max: nat, tr: seq<Stage>, h: nat, n: nat, i: nat)
    requires Trace(S, max, tr) && 1 <= i <= n && InCrowd(S, tr[0], h, n, i)
    requires StageOk(S, max, Last(tr)) && Last(tr).ds[Last(tr).z].wanted == 0
    ensures n - i < |tr|
  {
    if |tr| <= n - i {
      var c := i + |tr| - 1;
      CrowdTrace(S, max, tr, h, n, i, |tr| - 1, c);
      var x := Last(tr);
      assert |Passers(S, x.G, x.z)| == 0;
      assert Sits(S, x.G, h, c + 1);
      var k := CrowdPasses(S, x.G, h, c + 1, c);
    }
  }

  // ---- Maps of one home ------------------------------------------------------------------------------

  ghost predicate OneHome(S: Space, G: Layout, h: nat) { forall k :: k in G ==> S.home(k) == h }

  /** Distinct numbers from 1 to m are at most m. */
  lemma {:induction false} Pigeonholes(G: Layout, m: nat)
    requires forall k :: k in G ==> 1 <= G[k].idx <= m
    requires forall k, k' :: k in G && k' in G && G[k].idx == G[k'].idx ==> k == k'
    ensures |G| <= m
  {
    if k :| k in G && G[k].idx == m {
      var G' := G - {k};
      forall x ensures x in G.Keys <==> x in G'.Keys + {k} {}
      assert G.Keys == G'.Keys + {k};
      Pigeonholes(G', m - 1);
    } else if m > 0 {
      Pigeonholes(G, m - 1);
    } else {
      forall x ensures x !in G.Keys {}
      assert G.Keys == {};
    }
  }

  /** However its keys came in, a map of one home holds them at the probes 1 to |G|. */
  lemma Contiguous(S: Space, ds: seq<Desc>, G: Layout, h: nat)
    requires Struct(S, ds, G, -1) && OneHome(S, G, h)
    ensures forall k :: k in G ==> 1 <= G[k].idx <= |G|
    ensures forall j: nat {:trigger Sits(S, G, h, j)} :: 1 <= j <= |G| ==> Sits(S, G, h, j)
  {
    forall k | k in G ensures 1 <= G[k].idx <= |G| {
      assert PlacedAt(S, ds, k, G[k]);
      FullPrefix(S, ds, G, k, G[k].idx);
    }
    forall j: nat | 1 <= j <= |G| ensures Sits(S, G, h, j) {
      OutTo(S, ds, G, h, j);
    }
  }

  lemma OutTo(S: Space, ds: seq<Desc>, G: Layout, h: nat, j: nat)
    requires Struct(S, ds, G, -1) && OneHome(S, G, h) && 1 <= j <= |G|
    ensures Sits(S, G, h, j)
  {
    if k :| k in G && G[k].idx >= j {
      assert PlacedAt(S, ds, k, G[k]);
      var s := At(S, k, j);
      assert IsFull(ds, s);
      assert HeldAt(S, ds, G, s);
      var k' := ds[s].entry.item.key;
      assert PlacedAt(S, ds, k', G[k']);
      assert S.probe(h, S.slot(h, j)) == j && S.probe(h, S.slot(h, G[k'].idx)) == G[k'].idx;
    } else {
      forall k | k in G ensures 1 <= G[k].idx <= j - 1 { assert PlacedAt(S, ds, k, G[k]); }
      forall k, k' | k in G && k' in G && G[k].idx == G[k'].idx ensures k == k' { SameSlot(S, ds, G, -1, k, k'); }
      Pigeonholes(G, j - 1);
    }
  }

  lemma FollowsKeys(S: Space, max: nat, x: Stage, y: Stage)
    requires Follows(S, max, x, y)
    ensures forall k :: k in y.G <==> k in x.G
  {
  }

  lemma {:induction false} TraceKeys(S: Space, max: nat, tr: seq<Stage>, t: nat)
    requires Trace(S, max, tr) && t < |tr|
    ensures forall k :: k in tr[t].G <==> k in tr[0].G
  {
    if t > 0 {
      TraceKeys(S, max, tr, t - 1);
      assert FollowsAt(S, max, tr, t);
      FollowsKeys(S, max, tr[t - 1], tr[t]);
    }
  }

  /** Alone in the map, a crowd has no further key to move. */
  lemma AloneLast(S: Space, max: nat, x: Stage, y: Stage, h: nat, n: nat)
    requires StageOk(S, max, x) && InCrowd(S, x, h, n, n) && OneHome(S, x.G, h) && n >= 1
    ensures !Follows(S, max, x, y)
  {
  }

  lemma AloneLength(S: Space, max: nat, tr: seq<Stage>, h: nat, n: nat, i: nat)
    requires Trace(S, max, tr) && 1 <= i <= n && InCrowd(S, tr[0], h, n, i) && OneHome(S, tr[0].G, h)
    ensures |tr| <= n - i + 1
  {
    var t := n - i;
    if |tr| > t + 1 {
      assert FollowsAt(S, max, tr, t + 1) && StageAt(S, max, tr, t);
      CrowdTrace(S, max, tr, h, n, i, t, n);
      TraceKeys(S, max, tr, t);
      AloneLast(S, max, tr[t], tr[t + 1], h, n);
    }
  }

  lemma AloneCrowd(S: Space, ds: seq<Desc>, G: Layout, key: int, h: nat)
    requires Struct(S, ds, G, -1) && OneHome(S, G, h) && key in G && h < S.cap && |G| <= S.cap
    ensures Crowd(S, G - {key}, h, |G|, G[key].idx)
  {
    var G' := G - {key};
    Contiguous(S, ds, G, h);
    forall k | k in G' ensures G'[k].idx != G[key].idx {
      if G[k].idx == G[key].idx { SameSlot(S, ds, G, -1, k, key); }
    }
    forall j: nat | 1 <= j <= |G| && j != G[key].idx ensures Sits(S, G', h, j) {
      assert Sits(S, G, h, j);
      var k :| k in G && S.home(k) == h && G[k].idx == j;
      assert k in G' && G'[k].idx == j;
    }
  }

  lemma AloneStart(S: Space, max: nat, ds: seq<Desc>, G: Layout, key: int, x: Stage, h: nat)
    requires Good(S, ds, G, max) && Opened(S, max, ds, G, key, x) && OneHome(S, G, h)
    ensures 1 <= G[key].idx <= |G| && InCrowd(S, x, h, |G|, G[key].idx) && OneHome(S, x.G, h)
    ensures |G| > WORD_MAX ==> HomeBound(x, h) == WORD_MAX
  {
    Contiguous(S, ds, G, h);
    assert Sits(S, G, h, |G|);
    assert |G| <= max;
    AloneCrowd(S, ds, G, key, h);
  }

  /** Closing the hole at the end of a crowd sets the bound of its home below probe 256 only. */
  lemma CrowdCleared(S: Space, max: nat, x: Stage, ds': seq<Desc>, h: nat, n: nat)
    requires StageOk(S, max, x) && InCrowd(S, x, h, n, n) && n >= 1 && Cleared(x.ds, ds', x.z, x.h)
    ensures h < |ds'| && ds'[h].bound == if n - 1 < WORD_MAX then n - 1 else HomeBound(x, h)
  {
    assert S.probe(h, S.slot(h, n)) == n && S.probe(h, S.slot(h, x.ds[x.z].probes)) == x.ds[x.z].probes;
  }

  /** The deletion ends with the hole behind the crowd. */
  lemma AloneEnd(S: Space, max: nat, tr: seq<Stage>, h: nat, n: nat, i: nat)
    requires Trace(S, max, tr) && 1 <= i <= n && InCrowd(S, tr[0], h, n, i) && OneHome(S, tr[0].G, h)
    requires StageOk(S, max, Last(tr)) && Last(tr).ds[Last(tr).z].wanted == 0
    ensures InCrowd(S, Last(tr), h, n, n) && OneHome(S, Last(tr).G, h)
    ensures n >= 4 && HomeBound(tr[0], h) == WORD_MAX ==>
              HomeBound(Last(tr), h) == if i < n && i < WORD_MAX then i else WORD_MAX
  {
    CrowdLength(S, max, tr, h, n, i);
    AloneLength(S, max, tr, h, n, i);
    CrowdTrace(S, max, tr, h, n, i, n - i, n);
    TraceKeys(S, max, tr, n - i);
  }

  /** In a map whose keys all have one home, the bound of that home after a deletion: exact below 256
      keys, else still saturated, or the probe of the key removed. */
  lemma AloneBound(S: Space, max: nat, ds: seq<Desc>, G: Layout, key: int, tr: seq<Stage>, ds': seq<Desc>, h: nat)
    requires Good(S, ds, G, max) && Deletes(S, max, ds, G, key, tr, ds') && OneHome(S, G, h)
    ensures Crowd(S, Last(tr).G, h, |G|, |G|) && h < |ds'| && OneHome(S, Last(tr).G, h)
    ensures ds'[h].bound == if |G| <= WORD_MAX then |G| - 1 else if G[key].idx < WORD_MAX then G[key].idx else WORD_MAX
  {
    var n, i := |G|, G[key].idx;
    AloneStart(S, max, ds, G, key, tr[0], h);
    AloneEnd(S, max, tr, h, n, i);
    CrowdCleared(S, max, Last(tr), ds', h, n);
  }

  /** Removal from a map whose keys all have one home: every other key stays within reach of lookups if
      and only if there are at most 255 keys or the key removed sits at probe 255 or beyond. */
  lemma OneHomeExact(S: Space, max: nat, ds: seq<Desc>, G: Layout, key: int, tr: seq<Stage>, ds': seq<Desc>, h: nat)
    requires Good(S, ds, G, max) && Deletes(S, max, ds, G, key, tr, ds') && OneHome(S, G, h)
    ensures Reachable(S, ds', Last(tr).G) <==> |G| <= WORD_MAX || G[key].idx >= WORD_MAX
  {
    AloneBound(S, max, ds, G, key, tr, ds', h);
    var x := Last(tr);
    if |G| > WORD_MAX && G[key].idx < WORD_MAX {
      assert Sits(S, x.G, h, G[key].idx + 1);
    }
  }

  // ---- After the crowd has moved -----------------------------------------------------------------------

  /** The keys of home h sit at the probes 1 to m. */
  ghost predicate Settled(S: Space, G: Layout, h: nat, m: nat) {
    && h < S.cap && m <= S.cap
    && (forall k :: k in G && S.home(k) == h ==> 1 <= G[k].idx <= m)
    && (forall j: nat {:trigger Sits(S, G, h, j)} :: 1 <= j <= m ==> Sits(S, G, h, j))
  }

  lemma SettledApart(S: Space, ds: seq<Desc>, G: Layout, z: nat, h: nat, m: nat, j: nat)
    requires Struct(S, ds, G, z) && Settled(S, G, h, m) && 1 <= j <= m
    ensures S.slot(h, j) != z
  {
    assert Sits(S, G, h, j);
    var k :| k in G && S.home(k) == h && G[k].idx == j;
    assert PlacedAt(S, ds, k, G[k]);
  }

  lemma SettledOther(S: Space, ds: seq<Desc>, G: Layout, max: nat, z: nat, w: nat, o: nat, p: nat, h: nat, m: nat)
    requires Holed(S, ds, G, max, z) && Successor(S, ds, G, z, w, o, p) && Settled(S, G, h, m)
    ensures S.home(ds[o].entry.item.key) != h
  {
    if S.home(ds[o].entry.item.key) == h { SettledApart(S, ds, G, z, h, m, w); }
  }

  /** Shifts elsewhere leave the settled keys and the bound of their home alone. */
  lemma SettledStep(S: Space, max: nat, x: Stage, y: Stage, h: nat, m: nat)
    requires StageOk(S, max, x) && Follows(S, max, x, y) && Settled(S, x.G, h, m)
    ensures Settled(S, y.G, h, m) && HomeBound(y, h) == HomeBound(x, h) && y.h != h
  {
    var mid, w, p :| Moves(S, max, x, y, mid, w, p);
    SettledOther(S, x.ds, x.G, max, x.z, w, y.z, p, h, m);
    forall j: nat | 1 <= j <= m ensures Sits(S, y.G, h, j) {
      assert Sits(S, x.G, h, j);
      var k :| k in x.G && S.home(k) == h && x.G[k].idx == j;
      assert y.G[k].idx == j;
    }
  }

  lemma SettledNext(S: Space, max: nat, tr: seq<Stage>, h: nat, m: nat, t: nat)
    requires Trace(S, max, tr) && 0 < t < |tr| && Settled(S, tr[t - 1].G, h, m)
    ensures Settled(S, tr[t].G, h, m) && HomeBound(tr[t], h) == HomeBound(tr[t - 1], h) && tr[t].h != h
  {
    assert FollowsAt(S, max, tr, t) && StageAt(S, max, tr, t - 1);
    SettledStep(S, max, tr[t - 1], tr[t], h, m);
  }

  lemma {:induction false} SettledTrace(S: Space, max: nat, tr: seq<Stage>, h: nat, m: nat, t0: nat, t: nat)
    requires Trace(S, max, tr) && t0 <= t < |tr| && Settled(S, tr[t0].G, h, m)
    ensures Settled(S, tr[t].G, h, m) && HomeBound(tr[t], h) == HomeBound(tr[t0], h) && (t > t0 ==> tr[t].h != h)
    decreases t
  {
    if t > t0 {
      SettledTrace(S, max, tr, h, m, t0, t - 1);
      SettledNext(S, max, tr, h, m, t);
    }
  }

  lemma CrowdSettled(S: Space, G: Layout, h: nat, n: nat)
    requires Crowd(S, G, h, n, n) && n >= 1
    ensures Settled(S, G, h, n - 1)
  {
  }

  /** A saturated crowd whose last slot another key passes: the keys beyond the one removed are lost. */
  lemma CrowdLost(S: Space, max: nat, ds: seq<Desc>, G: Layout, key: int, tr: seq<Stage>, ds': seq<Desc>,
                  h: nat, n: nat, k: int)
    requires Deletes(S, max, ds, G, key, tr, ds') && InCrowd(S, tr[0], h, n, G[key].idx) && h < |ds|
    requires 4 <= n && 1 <= G[key].idx < n - 1 && G[key].idx < WORD_MAX && ds[h].bound == WORD_MAX
    requires k in tr[0].G && S.home(k) != h && 1 < tr[0].G[k].idx && At(S, k, 1) == S.slot(h, n)
    ensures !Reachable(S, ds', Last(tr).G)
  {
    var i := G[key].idx;
    var t := n - i;
    CrowdLength(S, max, tr, h, n, i);
    CrowdTrace(S, max, tr, h, n, i, t, n);
    CrowdSettled(S, tr[t].G, h, n);
    SettledTrace(S, max, tr, h, n - 1, t, |tr| - 1);
    assert StageAt(S, max, tr, t);
    StillPassed(S, max, tr[t], k);
    assert Sits(S, Last(tr).G, h, i + 1);
  }

  lemma StillPassed(S: Space, max: nat, x: Stage, k: int)
    requires StageOk(S, max, x) && k in x.G && 1 < x.G[k].idx && At(S, k, 1) == x.z
    ensures x.ds[x.z].wanted > 0
  {
    CountedPasser(S, x.ds, x.G, k, 1);
  }

  // ---- Counters do not saturate -------------------------------------------------------------------------

  /** The keys that pass slot s at one of the first m probes of their sequence. */
  ghost function Passing(S: Space, G: Layout, s: nat, m: nat): set<int> {
    set k | k in G && PassesBy(S, k, G[k].idx, s, m)
  }

  ghost predicate PassesBy(S: Space, k: int, n: nat, s: nat, m: nat) {
    exists j :: 1 <= j <= m && j < n && At(S, k, j) == s
  }

  /** The keys that pass slot s at probe j: they have one home. */
  ghost function PassingAt(S: Space, G: Layout, s: nat, j: nat): Layout {
    map k | k in G && j < G[k].idx && At(S, k, j) == s :: G[k]
  }

  lemma PassingAtSize(S: Space, ds: seq<Desc>, G: Layout, max: nat, s: nat, j: nat)
    requires Kept(S, ds, G, max) && s < |ds| && j >= 1
    ensures |PassingAt(S, G, s, j)| <= max
  {
    var P := PassingAt(S, G, s, j);
    forall k, k' | k in P && k' in P && P[k].idx == P[k'].idx ensures k == k' {
      assert S.start(S.slot(S.home(k), j), j) == S.home(k) && S.start(S.slot(S.home(k'), j), j) == S.home(k');
      SameSlot(S, ds, G, -1, k, k');
    }
    Pigeonholes(P, max);
  }

  lemma {:induction false} PassingSize(S: Space, ds: seq<Desc>, G: Layout, max: nat, s: nat, m: nat)
    requires Kept(S, ds, G, max) && s < |ds|
    ensures |Passing(S, G, s, m)| <= m * max
  {
    if m == 0 {
      assert Passing(S, G, s, 0) == {};
    } else {
      PassingSize(S, ds, G, max, s, m - 1);
      PassingAtSize(S, ds, G, max, s, m);
      PassingMore(S, G, s, m);
      UnionSize(Passing(S, G, s, m - 1), PassingAt(S, G, s, m).Keys);
      assert m * max == (m - 1) * max + max;
    }
  }

  lemma PassingMore(S: Space, G: Layout, s: nat, m: nat)
    requires m >= 1
    ensures Passing(S, G, s, m) == Passing(S, G, s, m - 1) + PassingAt(S, G, s, m).Keys
  {
    var A, B, P := Passing(S, G, s, m), Passing(S, G, s, m - 1), PassingAt(S, G, s, m);
    forall k ensures k in A <==> k in B + P.Keys {
      if k in G && PassesBy(S, k, G[k].idx, s, m) && k !in P { assert PassesBy(S, k, G[k].idx, s, m - 1); }
    }
  }

  lemma UnionSize(a: set<int>, b: set<int>)
    ensures |a + b| <= |a| + |b|
  {
    assert a + b == a + (b - a);
    SubsetSize(b - a, b);
  }

  /** The counter of a slot is at most the square of the probe maximum: as long as no bound saturates, it
      does not reach its own limit either. */
  lemma CountFits(S: Space, ds: seq<Desc>, G: Layout, max: nat, s: nat)
    requires Kept(S, ds, G, max) && s < |ds|
    ensures ds[s].wanted <= max * max && (max <= WORD_MAX ==> ds[s].wanted < 0xFFFF)
  {
    var all := Passing(S, G, s, max);
    forall k | k in Passers(S, G, s) ensures k in all {
      var j :| 1 <= j < G[k].idx && At(S, k, j) == s;
      assert 1 <= j <= max && PassesBy(S, k, G[k].idx, s, max);
    }
    SubsetSize(Passers(S, G, s), all);
    PassingSize(S, ds, G, max, s, max);
    if max <= WORD_MAX { SquareBound(max); }
  }

  lemma SquareBound(m: nat)
    requires m <= WORD_MAX
    ensures m * m < 0xFFFF
  {
    assert m * m <= m * WORD_MAX;
  }
}
