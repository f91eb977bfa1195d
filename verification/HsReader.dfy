/**
 Lookups that run concurrently with the writer.

 The writer's history is a list of single stores and of publications of rebuilt maps. A reader only
 loads, so an interleaving is fixed by the moment of the history at which each of its loads happens.
 */
module HsReader {
  import opened Internal
  import opened HsViews

  datatype Event = Stored(st: Store) | Published(v: View)

  /** All maps so far; the last one is current, the others may still have readers. */
  type World = seq<View>

  function Last(w: World): View
    requires |w| > 0
  {
    w[|w| - 1]
  }

  function After(w: World, ev: Event): World {
    if |w| == 0 then w
    else match ev
      case Stored(st) => w[|w| - 1 := Do(Last(w), st)]
      case Published(v) => w + [v]
  }

  /** A rebuilt map holds the same keys. */
  ghost predicate Allowed(w: World, ev: Event) {
    && |w| > 0
    && match ev
       case Stored(st) => Ok(Last(w), st)
       case Published(v) => Good(v) && v.dup.NoDup? && Last(w).dup.NoDup? && forall k :: k in v.D <==> k in Last(w).D
  }

  ghost predicate Moves(w: World, w': World) { exists ev :: Allowed(w, ev) && w' == After(w, ev) }

  ghost predicate AllGood(w: World) { |w| > 0 && forall i :: 0 <= i < |w| ==> Good(w[i]) }

  ghost predicate MovesAt(h: seq<World>, t: nat) { 0 < t < |h| && Moves(h[t - 1], h[t]) }

  /** A history of the writer: the world at each moment. */
  ghost predicate Legal(h: seq<World>) {
    && |h| > 0 && AllGood(h[0])
    && forall t: nat {:trigger MovesAt(h, t)} :: 0 < t < |h| ==> MovesAt(h, t)
  }

  lemma MovesGood(w: World, w': World)
    requires AllGood(w) && Moves(w, w')
    ensures AllGood(w')
  {
    var ev :| Allowed(w, ev) && w' == After(w, ev);
    if ev.Stored? { StoreGood(Last(w), ev.st); }
  }

  lemma {:induction false} WorldGood(h: seq<World>, t: nat)
    requires Legal(h) && t < |h|
    ensures AllGood(h[t])
  {
    if t > 0 {
      WorldGood(h, t - 1);
      assert MovesAt(h, t);
      MovesGood(h[t - 1], h[t]);
    }
  }

  /** What one moment does to one map. */
  ghost predicate Changes(u: View, u': View) { u' == u || exists st :: Ok(u, st) && u' == Do(u, st) }

  lemma MovesMap(w: World, w': World, i: nat)
    requires Moves(w, w') && i < |w|
    ensures |w| <= |w'| && Changes(w[i], w'[i])
    ensures |w| == |w'| || w'[i] == w[i]
  {
    var ev :| Allowed(w, ev) && w' == After(w, ev);
  }

  // ---- What a reader relies on ------------------------------------------------------------------------

  /** Since its generation was g, key k is still at probe j, unless the generation has moved on. */
  ghost predicate Stays(v: View, k: int, g: nat, j: nat) {
    && Sized(v.S, v.m) && v.m.gen[v.S.lane(k)] >= g
    && (v.m.gen[v.S.lane(k)] == g ==> k in v.D && (v.D[k] == j || v.dup == Dup(k, j, false)))
  }

  lemma StaysStep(v: View, st: Store, k: int, g: nat, j: nat)
    requires Good(v) && Ok(v, st) && k in Do(v, st).D && Stays(v, k, g, j)
    ensures Stays(Do(v, st), k, g, j)
  {
  }

  lemma StaysChange(u: View, u': View, k: int, g: nat, j: nat)
    requires Good(u) && Changes(u, u') && k in u'.D && Stays(u, k, g, j)
    ensures Stays(u', k, g, j) && u'.S == u.S
  {
    if u' != u {
      var st :| Ok(u, st) && u' == Do(u, st);
      StaysStep(u, st, k, g, j);
    }
  }

  lemma StaysLoc(v: View, k: int, g: nat, j: nat)
    requires Good(v) && Stays(v, k, g, j) && v.m.gen[v.S.lane(k)] == g
    ensures Loc(v.S, v.m, k, j)
  {
    if v.D[k] == j { assert Loc(v.S, v.m, k, v.D[k]); }
  }

  /** The current set holds key k at every moment from lo to hi. */
  ghost predicate Held(h: seq<World>, k: int, lo: nat, hi: nat) {
    forall t: nat {:trigger h[t]} :: lo <= t <= hi < |h| ==> |h[t]| > 0 && k in Last(h[t]).D
  }

  /** Map i holds key k at moment t. */
  ghost predicate Has(h: seq<World>, i: nat, k: int, t: nat) {
    t < |h| && i < |h[t]| && Good(h[t][i]) && k in h[t][i].D
  }

  /** The map that was current at lo holds the key as long as the set does, even once superseded. */
  lemma {:induction false} HeldInMap(h: seq<World>, k: int, lo: nat, t: nat, hi: nat)
    requires Legal(h) && lo <= t <= hi < |h| && Held(h, k, lo, hi)
    ensures |h[lo]| > 0 && Has(h, |h[lo]| - 1, k, t)
    decreases t
  {
    WorldGood(h, lo);
    WorldGood(h, t);
    if lo < t {
      HeldInMap(h, k, lo, t - 1, hi);
      assert MovesAt(h, t);
      MovesMap(h[t - 1], h[t], |h[lo]| - 1);
    }
  }

  /** From moment tg on the key stays put in map i until its generation moves on. */
  lemma {:induction false} StaysFrom(h: seq<World>, i: nat, k: int, tg: nat, t: nat)
    requires Legal(h) && tg <= t < |h| && forall n: nat {:trigger Has(h, i, k, n)} :: tg <= n <= t ==> Has(h, i, k, n)
    ensures Has(h, i, k, tg) && Has(h, i, k, t) && h[t][i].S == h[tg][i].S
    ensures var u := h[tg][i]; Stays(h[t][i], k, u.m.gen[u.S.lane(k)], u.D[k])
    decreases t
  {
    assert Has(h, i, k, tg) && Has(h, i, k, t);
    if tg < t {
      StaysFrom(h, i, k, tg, t - 1);
      assert MovesAt(h, t);
      MovesMap(h[t - 1], h[t], i);
      var u := h[tg][i];
      StaysChange(h[t - 1][i], h[t][i], k, u.m.gen[u.S.lane(k)], u.D[k]);
    }
  }

  // ---- The lookup ---------------------------------------------------------------------------------------

  /** Map i at moment t. */
  ghost function MapAt(h: seq<World>, i: nat, t: nat): View
    requires |h| > 0 && |h[0]| > 0
  {
    if t < |h| && i < |h[t]| then h[t][i] else h[0][0]
  }

  /** The load of probe p of map i at moment t. */
  ghost function Loaded(h: seq<World>, i: nat, k: int, p: nat, t: nat): Entry
    requires |h| > 0 && |h[0]| > 0
  {
    var u := MapAt(h, i, t);
    if u.S.at(k, p) < |u.m.entries| then u.m.entries[u.S.at(k, p)] else Empty
  }

  predicate IsOf(e: Entry, k: int) { e.Full? && e.item.key == k }

  /** The loop over the probes from p on, each load at its own moment. */
  ghost function Scan(h: seq<World>, i: nat, k: int, p: nat, limit: nat, ts: seq<nat>): Entry
    requires |h| > 0 && |h[0]| > 0
    decreases |ts|
  {
    if p > limit || ts == [] then Empty
    else
      var e := Loaded(h, i, k, p, ts[0]);
      if e.Empty? || IsOf(e, k) then e
      else Scan(h, i, k, p + 1, limit, ts[1..])
  }

  /** The moments at which one pass of the lookup loads the map, the generation, the bound, the probe
      maximum, the entries and the generation again. */
  datatype Pass = Pass(map_: nat, gen: nat, bound: nat, max: nat, entries: seq<nat>, check: nat)

  datatype Result = Retry | Null | Hit(item: Item)

  /** The map a pass works on. */
  ghost function Chosen(h: seq<World>, r: Pass): nat {
    if r.map_ < |h| && |h[r.map_]| > 0 then |h[r.map_]| - 1 else 0
  }

  /** How far a pass probes, from the loads of the bound and of the probe maximum. */
  ghost function Limit(u: View, u': View, k: int): nat {
    var b := if u.S.home(k) < |u.m.bound| then u.m.bound[u.S.home(k)] else 0;
    if b == WORD_MAX then u'.m.max else b
  }

  ghost function Generation(u: View, k: int): nat {
    if u.S.lane(k) < |u.m.gen| then u.m.gen[u.S.lane(k)] else 0
  }

  ghost function PassLimit(h: seq<World>, k: int, r: Pass): nat
    requires |h| > 0 && |h[0]| > 0
  {
    Limit(MapAt(h, Chosen(h, r), r.bound), MapAt(h, Chosen(h, r), r.max), k)
  }

  /** One pass of the lookup. */
  ghost function Get(h: seq<World>, k: int, r: Pass): Result
    requires |h| > 0 && |h[0]| > 0
  {
    var i := Chosen(h, r);
    var e := Scan(h, i, k, 1, PassLimit(h, k, r), r.entries);
    if Generation(MapAt(h, i, r.gen), k) != Generation(MapAt(h, i, r.check), k) then Retry
    else if e.Full? then Hit(e.item)
    else Null
  }

  /** The loads happen in program order, and there are enough of them. */
  ghost predicate Ordered(h: seq<World>, k: int, r: Pass) {
    && |h| > 0 && |h[0]| > 0
    && r.map_ <= r.gen <= r.bound <= r.max <= r.check < |h| && |r.entries| >= PassLimit(h, k, r)
    && (forall i :: 0 <= i < |r.entries| ==> r.max <= r.entries[i] <= r.check)
    && (forall i, j :: 0 <= i < j < |r.entries| ==> r.entries[i] <= r.entries[j])
  }

  /** Key k is at probe j of map i at every moment from lo to hi. */
  ghost predicate Fixed(h: seq<World>, i: nat, k: int, j: nat, lo: nat, hi: nat)
    requires |h| > 0 && |h[0]| > 0
  {
    forall t: nat {:trigger MapAt(h, i, t)} :: lo <= t <= hi ==> Loc(MapAt(h, i, t).S, MapAt(h, i, t).m, k, j)
  }

  lemma {:induction false} ScanFinds(h: seq<World>, i: nat, k: int, p: nat, limit: nat, ts: seq<nat>,
                                     j: nat, lo: nat, hi: nat)
    requires |h| > 0 && |h[0]| > 0 && Fixed(h, i, k, j, lo, hi) && 1 <= p <= j <= limit && |ts| > limit - p
    requires forall n :: 0 <= n < |ts| ==> lo <= ts[n] <= hi
    ensures var e := Scan(h, i, k, p, limit, ts); e.Full? && e.item.key == k
    decreases j - p
  {
    var u := MapAt(h, i, ts[0]);
    assert Loc(u.S, u.m, k, j);
    if p < j {
      assert Used(u.S, u.m, u.S.at(k, p));
      ScanFinds(h, i, k, p + 1, limit, ts[1..], j, lo, hi);
    }
  }

  /** While the generation is the same at both ends it is the same, and the key stays put, in between. */
  lemma StaysPut(h: seq<World>, i: nat, k: int, tg: nat, t: nat, tc: nat)
    requires Legal(h) && tg <= t <= tc < |h|
    requires forall n: nat {:trigger Has(h, i, k, n)} :: tg <= n <= tc ==> Has(h, i, k, n)
    requires Has(h, i, k, tg) && Has(h, i, k, tc) && Generation(h[tg][i], k) == Generation(h[tc][i], k)
    ensures Has(h, i, k, t) && Loc(h[t][i].S, h[t][i].m, k, h[tg][i].D[k])
  {
    StaysFrom(h, i, k, tg, t);
    StaysFrom(h, i, k, t, tc);
    var u := h[tg][i];
    StaysLoc(h[t][i], k, u.m.gen[u.S.lane(k)], u.D[k]);
  }

  lemma LimitReaches(u: View, u': View, k: int, j: nat)
    requires Loc(u.S, u.m, k, j) && Loc(u'.S, u'.m, k, j)
    ensures j <= Limit(u, u', k)
  {
  }

  /** A pass between whose generation loads the key has not moved finds it. */
  lemma UnmovedFound(h: seq<World>, k: int, r: Pass, i: nat)
    requires Legal(h) && Ordered(h, k, r) && i == Chosen(h, r)
    requires forall t: nat {:trigger Has(h, i, k, t)} :: r.gen <= t <= r.check ==> Has(h, i, k, t)
    requires Generation(MapAt(h, i, r.gen), k) == Generation(MapAt(h, i, r.check), k)
    ensures Scan(h, i, k, 1, PassLimit(h, k, r), r.entries).Full?
  {
    assert Has(h, i, k, r.gen) && Has(h, i, k, r.check);
    var j := h[r.gen][i].D[k];
    forall t: nat | r.gen <= t <= r.check ensures Loc(MapAt(h, i, t).S, MapAt(h, i, t).m, k, j) {
      StaysPut(h, i, k, r.gen, t, r.check);
    }
    LimitReaches(MapAt(h, i, r.bound), MapAt(h, i, r.max), k, j);
    assert Loc(MapAt(h, i, r.gen).S, MapAt(h, i, r.gen).m, k, j);
    ScanFinds(h, i, k, 1, PassLimit(h, k, r), r.entries, j, r.gen, r.check);
  }

  /** A lookup that overlaps any stores and rebuilds of the writer never misses a key that the set
      holds throughout: it finds it or retries. */
  lemma NeverMisses(h: seq<World>, k: int, r: Pass)
    requires Legal(h) && Ordered(h, k, r) && Held(h, k, r.map_, r.check)
    ensures Get(h, k, r) != Null
  {
    var i := Chosen(h, r);
    forall t: nat | r.map_ <= t <= r.check ensures Has(h, i, k, t) {
      HeldInMap(h, k, r.map_, t, r.check);
    }
    if Generation(MapAt(h, i, r.gen), k) == Generation(MapAt(h, i, r.check), k) { UnmovedFound(h, k, r, i); }
  }

  // ---- What a lookup finds --------------------------------------------------------------------------------

  /** The object under which a view has the key. */
  ghost predicate Offers(v: View, k: int, item: Item) {
    && k in v.D && v.S.at(k, v.D[k]) < |v.m.entries| && v.m.entries[v.S.at(k, v.D[k])] == Full(item)
  }

  /** The load at which a scan ended; the loads before met other entries. */
  lemma {:induction false} ScanHit(h: seq<World>, i: nat, k: int, p: nat, limit: nat, ts: seq<nat>) returns (n: nat)
    requires |h| > 0 && |h[0]| > 0 && Scan(h, i, k, p, limit, ts).Full?
    ensures n < |ts| && Loaded(h, i, k, p + n, ts[n]) == Scan(h, i, k, p, limit, ts)
    ensures IsOf(Scan(h, i, k, p, limit, ts), k)
    ensures forall m: nat {:trigger ts[m]} :: m < n ==> !IsOf(Loaded(h, i, k, p + m, ts[m]), k)
    decreases |ts|
  {
    var e := Loaded(h, i, k, p, ts[0]);
    if e.Empty? || IsOf(e, k) {
      n := 0;
    } else {
      n := ScanHit(h, i, k, p + 1, limit, ts[1..]);
      n := n + 1;
    }
  }

  /** A superseded map is as it was when it last was current. */
  lemma {:induction false} Frozen(h: seq<World>, lo: nat, t: nat) returns (t': nat)
    requires Legal(h) && lo <= t < |h| && |h[lo]| > 0
    ensures lo <= t' <= t && |h[t']| == |h[lo]| <= |h[t]|
    ensures forall n: nat {:trigger h[n]} :: t' <= n <= t ==> |h[lo]| <= |h[n]| && h[n][|h[lo]| - 1] == Last(h[t'])
    decreases t
  {
    t' := t;
    if lo < t {
      t' := Frozen(h, lo, t - 1);
      assert MovesAt(h, t);
      MovesMap(h[t - 1], h[t], |h[lo]| - 1);
      if |h[t]| == |h[lo]| { t' := t; }
    }
  }

  /** The view still has the same older copy of the same key. */
  ghost predicate SameDup(u: View, v: View) {
    && u.dup.Dup? && v.dup.Dup? && u.dup.key == v.dup.key && u.dup.idx == v.dup.idx && u.S == v.S
    && u.D == v.D && u.m.entries == v.m.entries
  }

  /** The view before the copy that led to view v. */
  ghost predicate BeforeCopy(u: View, v: View) {
    && u.dup.NoDup? && v.dup.Dup? && u.S == v.S && v.dup.key in u.D && u.D[v.dup.key] == v.dup.idx
    && v.S.at(v.dup.key, v.dup.idx) < |u.m.entries| == |v.m.entries|
    && u.m.entries[v.S.at(v.dup.key, v.dup.idx)] == v.m.entries[v.S.at(v.dup.key, v.dup.idx)]
  }

  lemma DupStep(u: View, u': View)
    requires Good(u) && Good(u') && Changes(u, u') && u'.dup.Dup?
    ensures SameDup(u, u') || BeforeCopy(u, u')
  {
    if u' != u { var st :| Ok(u, st) && u' == Do(u, st); }
  }

  ghost predicate DupAt(h: seq<World>, i: nat, n: nat, v: View) {
    n < |h| && i < |h[n]| && SameDup(h[n][i], v)
  }

  lemma DupPrev(h: seq<World>, i: nat, t: nat)
    requires Legal(h) && 0 < t < |h| && i < |h[t - 1]| && i < |h[t]| && h[t][i].dup.Dup?
    ensures SameDup(h[t - 1][i], h[t][i]) || BeforeCopy(h[t - 1][i], h[t][i])
  {
    WorldGood(h, t - 1);
    WorldGood(h, t);
    assert MovesAt(h, t);
    MovesMap(h[t - 1], h[t], i);
    DupStep(h[t - 1][i], h[t][i]);
  }

  /** When the copy was made, or the start. */
  lemma {:induction false} DupOrigin(h: seq<World>, i: nat, lo: nat, t: nat, v: View) returns (tc: nat)
    requires Legal(h) && lo <= t < |h| && i < |h[lo]| && DupAt(h, i, t, v)
    ensures lo <= tc <= t && forall n: nat {:trigger DupAt(h, i, n, v)} :: tc <= n <= t ==> DupAt(h, i, n, v)
    ensures tc > lo ==> i < |h[tc - 1]| && BeforeCopy(h[tc - 1][i], v)
    decreases t
  {
    tc := t;
    if lo < t {
      Grows(h, lo, t - 1);
      DupPrev(h, i, t);
      if DupAt(h, i, t - 1, v) { tc := DupOrigin(h, i, lo, t - 1, v); }
    }
  }

  lemma {:induction false} Grows(h: seq<World>, lo: nat, t: nat)
    requires Legal(h) && lo <= t < |h|
    ensures |h[lo]| <= |h[t]|
    decreases t
  {
    if lo < t {
      Grows(h, lo, t - 1);
      assert MovesAt(h, t);
    }
  }

  /** An entry for the key that is not the current one is the older copy, further out. */
  lemma OlderCopy(v: View, k: int, p: nat, item: Item)
    requires Good(v) && p >= 1 && v.m.entries[v.S.at(k, p)] == Full(item) && item.key == k && !Offers(v, k, item)
    ensures v.dup.Dup? && v.dup.key == k && v.S.at(k, v.dup.idx) == v.S.at(k, p) && v.dup.idx <= p
    ensures k in v.D && 1 <= v.D[k] < v.dup.idx && IsOf(v.m.entries[v.S.at(k, v.D[k])], k)
  {
    assert Known(v, v.S.at(k, p));
    assert Loc(v.S, v.m, k, v.D[k]);
  }

  /** A load after the new copy was made meets it. */
  lemma LoadedAfter(h: seq<World>, i: nat, k: int, q: nat, tq: nat, tc: nat, t: nat, v: View)
    requires |h| > 0 && |h[0]| > 0
    requires v.S.at(k, q) < |v.m.entries| && IsOf(v.m.entries[v.S.at(k, q)], k)
    requires forall n: nat {:trigger DupAt(h, i, n, v)} :: tc <= n <= t ==> DupAt(h, i, n, v)
    requires tq > t ==> tq < |h| && i < |h[tq]| && h[tq][i] == v
    ensures tc <= tq ==> IsOf(Loaded(h, i, k, q, tq), k)
  {
    if tc <= tq <= t { assert DupAt(h, i, tq, v); }
  }

  /** The lookup met the older copy of a key that was being moved: that copy was current when the new
      one had not been made yet. */
  lemma OlderWasCurrent(h: seq<World>, k: int, lo: nat, t: nat, q: nat, tq: nat, item: Item) returns (t0: nat)
    requires Legal(h) && lo <= t < |h| && |h[lo]| == |h[t]| > 0 && |h[0]| > 0 && lo <= tq < |h|
    requires var v := Last(h[t]);
             && Good(v) && v.dup.Dup? && v.dup.key == k && q == v.D[k] && v.S.at(k, v.dup.idx) < |v.m.entries|
             && v.m.entries[v.S.at(k, v.dup.idx)] == Full(item)
             && (tq > t ==> |h[lo]| <= |h[tq]| && h[tq][|h[lo]| - 1] == v)
    requires !IsOf(Loaded(h, |h[lo]| - 1, k, q, tq), k)
    ensures lo <= t0 <= t && |h[t0]| > 0 && Offers(Last(h[t0]), k, item)
  {
    var i, v := |h[lo]| - 1, Last(h[t]);
    assert Loc(v.S, v.m, k, v.D[k]);
    assert DupAt(h, i, t, v);
    var tc := DupOrigin(h, i, lo, t, v);
    LoadedAfter(h, i, k, q, tq, tc, t, v);
    t0 := tc - 1;
    Grows(h, lo, t0);
    Grows(h, t0, t);
  }

  /** What a lookup returns was the set's object for the key at some moment while it ran. */
  lemma HitWasCurrent(h: seq<World>, k: int, r: Pass)
    requires Legal(h) && Ordered(h, k, r) && Get(h, k, r).Hit?
    ensures Get(h, k, r).item.key == k
    ensures exists t: nat :: r.map_ <= t <= r.check && |h[t]| > 0 && Offers(Last(h[t]), k, Get(h, k, r).item)
  {
    var lo, item := r.map_, Get(h, k, r).item;
    WorldGood(h, lo);
    var i := |h[lo]| - 1;
    var n := ScanHit(h, i, k, 1, PassLimit(h, k, r), r.entries);
    var t := Frozen(h, lo, r.entries[n]);
    WorldGood(h, t);
    var v := Last(h[t]);
    assert h[r.entries[n]][i] == v;
    if !Offers(v, k, item) {
      OlderCopy(v, k, 1 + n, item);
      var q := v.D[k];
      var t0 := OlderWasCurrent(h, k, lo, t, q, r.entries[q - 1], item);
    }
  }

  // ---- Lookups that are not disturbed -----------------------------------------------------------------------

  /** The writer does nothing from moment lo to moment hi. */
  ghost predicate Still(h: seq<World>, lo: nat, hi: nat) {
    forall t: nat {:trigger h[t]} :: lo <= t <= hi < |h| ==> h[t] == h[lo]
  }

  lemma StillHeld(h: seq<World>, k: int, r: Pass)
    requires Legal(h) && Ordered(h, k, r) && Still(h, r.map_, r.check)
    requires Scan(h, Chosen(h, r), k, 1, PassLimit(h, k, r), r.entries).Full?
    ensures |h[r.map_]| > 0 && k in Last(h[r.map_]).D
  {
    WorldGood(h, r.map_);
    var v := Last(h[r.map_]);
    var n := ScanHit(h, Chosen(h, r), k, 1, PassLimit(h, k, r), r.entries);
    assert h[r.entries[n]] == h[r.map_];
    assert Known(v, v.S.at(k, 1 + n));
  }

  /** A pass between whose loads the writer stores nothing answers at once, and exactly. */
  lemma StillExact(h: seq<World>, k: int, r: Pass)
    requires Legal(h) && Ordered(h, k, r) && Still(h, r.map_, r.check)
    ensures |h[r.map_]| > 0
    ensures k !in Last(h[r.map_]).D ==> Get(h, k, r) == Null
    ensures k in Last(h[r.map_]).D ==> Get(h, k, r).Hit? && Offers(Last(h[r.map_]), k, Get(h, k, r).item)
  {
    var w := h[r.map_];
    WorldGood(h, r.map_);
    var i := |w| - 1;
    assert h[r.gen] == w && h[r.check] == w;
    if k in Last(w).D {
      NeverMisses(h, k, r);
      HitWasCurrent(h, k, r);
    } else if Scan(h, i, k, 1, PassLimit(h, k, r), r.entries).Full? {
      StillHeld(h, k, r);
    }
  }

  /** The writer bumps the generation of the key in map i at moment t. */
  ghost predicate Signals(h: seq<World>, i: nat, k: int, t: nat) {
    && 0 < t < |h| && i < |h[t - 1]| && i < |h[t]|
    && h[t][i] == Do(h[t - 1][i], Signal(h[t - 1][i].S.lane(k)))
  }

  lemma SignalStep(h: seq<World>, i: nat, k: int, t: nat)
    requires Legal(h) && 0 < t < |h| && i < |h[t - 1]|
    ensures i < |h[t]|
    ensures Generation(h[t][i], k) != Generation(h[t - 1][i], k) ==> Signals(h, i, k, t)
  {
    assert MovesAt(h, t);
    MovesMap(h[t - 1], h[t], i);
  }

  lemma {:induction false} SignalFound(h: seq<World>, i: nat, k: int, lo: nat, hi: nat) returns (t: nat)
    requires Legal(h) && lo <= hi < |h| && i < |h[lo]| && i < |h[hi]|
    requires Generation(h[lo][i], k) != Generation(h[hi][i], k)
    ensures lo < t <= hi && Signals(h, i, k, t)
    decreases hi
  {
    Grows(h, lo, hi - 1);
    SignalStep(h, i, k, hi);
    if Generation(h[hi - 1][i], k) != Generation(h[hi][i], k) {
      t := hi;
    } else {
      t := SignalFound(h, i, k, lo, hi - 1);
    }
  }

  /** A pass is repeated only if the writer bumped the key's generation while it ran. */
  lemma RetryMeansSignal(h: seq<World>, k: int, r: Pass) returns (t: nat)
    requires Legal(h) && Ordered(h, k, r) && Get(h, k, r) == Retry
    ensures r.gen < t <= r.check && Signals(h, Chosen(h, r), k, t)
  {
    WorldGood(h, r.map_);
    Grows(h, r.map_, r.gen);
    Grows(h, r.gen, r.check);
    t := SignalFound(h, Chosen(h, r), k, r.gen, r.check);
  }
}
