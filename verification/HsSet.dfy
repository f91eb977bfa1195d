/** The operations of the SPMC hash set's writer, store by store. */
module HsSet {
  import opened Internal
  import opened HsViews
  import opened HsReader
  import opened HsProbe

  // ---- Contents ------------------------------------------------------------------------------------------

  ghost function ItemAt(v: View, k: int): Item {
    if k in v.D && v.S.at(k, v.D[k]) < |v.m.entries| && v.m.entries[v.S.at(k, v.D[k])].Full?
    then v.m.entries[v.S.at(k, v.D[k])].item
    else Item(k, 0)
  }

  /** The set a view stands for. */
  ghost function ItemsOf(v: View): Items { map k | k in v.D :: ItemAt(v, k) }

  lemma SlotsApart(v: View, k: int, k': int)
    requires Good(v) && k in v.D && k' in v.D && k != k'
    ensures v.S.at(k, v.D[k]) != v.S.at(k', v.D[k'])
  {
    assert Loc(v.S, v.m, k, v.D[k]) && Loc(v.S, v.m, k', v.D[k']);
  }

  /** Writing an entry of key k leaves the other keys' items alone. */
  lemma OtherItem(v: View, st: Store, k: int)
    requires Good(v) && Ok(v, st) && k in v.D && k in Do(v, st).D
    requires match st
             case Insert(_, item, _) => item.key != k
             case Replace(_, item) => item.key != k
             case Copy(_, item, _) => item.key != k
             case _ => true
    ensures ItemAt(Do(v, st), k) == ItemAt(v, k)
  {
    assert Loc(v.S, v.m, k, v.D[k]);
    match st
    case Replace(_, item) => SlotsApart(v, k, item.key);
    case Remove(_, k') => if k' != k { SlotsApart(v, k, k'); }
    case _ =>
  }

  /** An insertion, a replacement or a copy puts its item into the set, and nothing else changes. */
  lemma PutItems(v: View, st: Store)
    requires Good(v) && Ok(v, st) && (st.Insert? || st.Replace? || st.Copy?)
    ensures ItemsOf(Do(v, st)) == ItemsOf(v)[st.item.key := st.item]
  {
    var v', M := Do(v, st), ItemsOf(v)[st.item.key := st.item];
    if st.Replace? { assert Loc(v.S, v.m, st.item.key, v.D[st.item.key]); }
    forall k | k in ItemsOf(v') ensures ItemsOf(v')[k] == M[k] {
      if k != st.item.key { OtherItem(v, st, k); }
    }
    SameMap(ItemsOf(v'), M);
  }

  /** A removal takes out its key; the other stores leave the set alone. */
  lemma OtherItems(v: View, st: Store)
    requires Good(v) && Ok(v, st) && !(st.Insert? || st.Replace? || st.Copy?)
    ensures ItemsOf(Do(v, st)) == if st.Remove? then ItemsOf(v) - {st.key} else ItemsOf(v)
  {
    var v' := Do(v, st);
    forall k | k in v'.D ensures ItemAt(v', k) == ItemAt(v, k) {
      OtherItem(v, st, k);
    }
    SameMap(ItemsOf(v'), if st.Remove? then ItemsOf(v) - {st.key} else ItemsOf(v));
  }

  lemma InsertSize(D: map<int, nat>, k: int, j: nat)
    ensures |D[k := j]| == |D| + if k in D then 0 else 1
  {
    var D' := D[k := j];
    forall x ensures x in D'.Keys <==> x in D.Keys + {k} {}
    assert D'.Keys == D.Keys + {k};
  }

  lemma RemoveSize(D: map<int, nat>, k: int)
    requires k in D
    ensures |D - {k}| == |D| - 1
  {
    var D' := D - {k};
    forall x ensures x in D'.Keys <==> x in D.Keys - {k} {}
    assert D'.Keys == D.Keys - {k};
  }

  // ---- History ---------------------------------------------------------------------------------------------

  lemma LegalMore(h: seq<World>, w: World)
    requires Legal(h) && Moves(h[|h| - 1], w)
    ensures Legal(h + [w])
  {
    var h' := h + [w];
    forall t: nat | 0 < t < |h'| ensures MovesAt(h', t) {
      if t < |h| { assert MovesAt(h, t); }
    }
  }

  lemma StoreMoves(w: World, st: Store)
    requires |w| > 0 && Ok(Last(w), st)
    ensures Moves(w, w[|w| - 1 := Do(Last(w), st)])
  {
    assert Allowed(w, Stored(st));
    assert After(w, Stored(st)) == w[|w| - 1 := Do(Last(w), st)];
  }

  lemma PublishMoves(w: World, v: View)
    requires |w| > 0 && Good(v) && v.dup.NoDup? && Last(w).dup.NoDup? && forall k :: k in v.D <==> k in Last(w).D
    ensures Moves(w, w + [v])
  {
    assert Allowed(w, Published(v));
    assert After(w, Published(v)) == w + [v];
  }

  /** The state of the set: the view of the current map is the last view of the history. */
  ghost predicate Tied(hf: int -> nat, v: View, h: seq<World>, m: Map, limit: nat) {
    && Good(v) && v.m == m && Legal(h) && |h[|h| - 1]| > 0 && Last(h[|h| - 1]) == v
    && Tracks(v.S, hf, |m.entries|) && m.max <= limit && limit == ProbeLimit(|m.entries|)
  }

  lemma TiedStore(hf: int -> nat, v: View, h: seq<World>, m: Map, limit: nat, st: Store)
    requires Tied(hf, v, h, m, limit) && Ok(v, st) && (st.SetMax? ==> st.n <= limit)
    ensures var w := h[|h| - 1];
            Tied(hf, Do(v, st), h + [w[|w| - 1 := Do(v, st)]], Write(m, st), limit)
  {
    StoreGood(v, st);
    StoreMoves(h[|h| - 1], st);
    LegalMore(h, h[|h| - 1][|h[|h| - 1]| - 1 := Do(v, st)]);
  }

  /** Readers that overlap the operations of this writer never miss a key that is held throughout. */
  lemma ReadersFind(hf: int -> nat, v: View, h: seq<World>, m: Map, limit: nat, key: int, r: Pass)
    requires Tied(hf, v, h, m, limit) && Ordered(h, key, r) && Held(h, key, r.map_, r.check)
    ensures HsReader.Get(h, key, r) != Null
  {
    NeverMisses(h, key, r);
  }

  /** What they return was the set's object for the key at some moment while they ran. */
  lemma ReadersCurrent(hf: int -> nat, v: View, h: seq<World>, m: Map, limit: nat, key: int, r: Pass) returns (t: nat)
    requires Tied(hf, v, h, m, limit) && Ordered(h, key, r) && HsReader.Get(h, key, r).Hit?
    ensures r.map_ <= t <= r.check && |h[t]| > 0 && key in ItemsOf(Last(h[t]))
    ensures ItemsOf(Last(h[t]))[key] == HsReader.Get(h, key, r).item
  {
    HitWasCurrent(h, key, r);
    t :| r.map_ <= t <= r.check && |h[t]| > 0 && Offers(Last(h[t]), key, HsReader.Get(h, key, r).item);
  }

  // ---- Rebuilding ------------------------------------------------------------------------------------------

  method NewMap(hf: int -> nat, entries: nat) returns (m: Map, ghost S: Probes)
    ensures |m.entries| >= entries && Tracks(S, hf, |m.entries|) && m.max == 0 && Capped(m)
    ensures Good(View(S, m, map[], NoDup)) && forall s :: 0 <= s < |m.entries| ==> m.entries[s].Empty?
  {
    var cap := MapSize(entries);
    ProbesTrack(hf, cap);
    S := ProbesOf(hf, cap);
    m := Map(seq(cap, _ => Empty), seq(cap, _ => 0), 0, [0, 0]);
  }

  lemma MaxCovers(v: View)
    requires Good(v)
    ensures forall k :: k in v.D ==> v.D[k] <= v.m.max && Covers(v.m.bound[v.S.home(k)], v.D[k])
  {
    forall k | k in v.D ensures v.D[k] <= v.m.max && Covers(v.m.bound[v.S.home(k)], v.D[k]) {
      assert Loc(v.S, v.m, k, v.D[k]);
    }
  }

  /** The store that makes lookups from home slot i probe at least p slots. */
  function BoundStore(i: nat, p: nat): Store { SetBound(i, if p > WORD_MAX then WORD_MAX else p) }

  lemma RaiseOk(v: View, i: nat, p: nat)
    requires Good(v) && v.dup.NoDup? && i < |v.m.bound|
    ensures p > v.m.max ==> Ok(v, SetMax(p))
    ensures v.m.bound[i] < p ==> Ok(v, BoundStore(i, p))
  {
    MaxCovers(v);
  }

  /** No tombstones: the map has only been filled. */
  ghost predicate Filled(m: Map) { forall s :: 0 <= s < |m.entries| ==> !m.entries[s].Tomb? }

  /** Puts an entry into the first empty slot of its sequence, within the probe limit. */
  method Place(hf: int -> nat, m0: Map, item: Item, limit: nat, ghost v: View)
    returns (ok: bool, m: Map, ghost v': View)
    requires Good(v) && v.dup.NoDup? && v.m == m0 && Tracks(v.S, hf, |m0.entries|) && m0.max <= limit
    requires item.key !in v.D && Filled(m0) && Capped(m0)
    ensures ok ==> Good(v') && v'.dup.NoDup? && v'.m == m && v'.S == v.S
    ensures ok ==> |m.entries| == |m0.entries| && m.max <= limit
    ensures ok ==> Filled(m) && Capped(m)
    ensures ok ==> v'.D.Keys == v.D.Keys + {item.key} && ItemsOf(v') == ItemsOf(v)[item.key := item]
    ensures !ok ==> m == m0 && NoGap(v.S, m, item.key, limit + 1)
  {
    m, v' := m0, v;
    var cap := |m.entries|;
    var w, cursor := Start(v.S, hf, cap, item.key);
    var probes := 0;
    while probes < limit
      invariant StandsAt(hf, cap, item.key, w, probes + 1) && cursor == v.S.at(item.key, probes + 1)
      invariant probes <= limit && NoGap(v.S, m, item.key, probes + 1)
    {
      probes := probes + 1;
      if m.entries[cursor].Empty? {
        m, v' := FillSlot(hf, m, item, limit, cursor, probes, v);
        return true, m, v';
      }
      assert Used(v.S, m, v.S.at(item.key, probes));
      w, cursor := Next(v.S, hf, cap, item.key, w, probes);
    }
    ok := false;
  }

  /** Raises the bounds of a map that is not published yet. */
  method Raise(m0: Map, i: nat, p: nat, ghost v: View) returns (m: Map, ghost v': View)
    requires Good(v) && v.dup.NoDup? && v.m == m0 && i < |m0.bound| && Capped(m0)
    ensures Good(v') && v' == v.(m := m) && m.entries == m0.entries && Capped(m) && |m.bound| == |m0.bound|
    ensures m.max == (if p > m0.max then p else m0.max) && Covers(m.bound[i], p) && ItemsOf(v') == ItemsOf(v)
  {
    m, v' := m0, v;
    RaiseOk(v', i, p);
    if p > m.max {
      StoreGood(v', SetMax(p));
      OtherItems(v', SetMax(p));
      m, v' := Write(m, SetMax(p)), Do(v', SetMax(p));
    }
    RaiseOk(v', i, p);
    if m.bound[i] < p {
      StoreGood(v', BoundStore(i, p));
      OtherItems(v', BoundStore(i, p));
      m, v' := Write(m, BoundStore(i, p)), Do(v', BoundStore(i, p));
    }
  }

  method FillSlot(hf: int -> nat, m0: Map, item: Item, limit: nat, slot: nat, p: nat, ghost v: View)
    returns (m: Map, ghost v': View)
    requires Good(v) && v.dup.NoDup? && v.m == m0 && Tracks(v.S, hf, |m0.entries|) && m0.max <= limit
    requires item.key !in v.D && Filled(m0) && Capped(m0) && 1 <= p <= limit && slot == v.S.at(item.key, p)
    requires NoGap(v.S, m0, item.key, p) && m0.entries[slot].Empty?
    ensures Good(v') && v'.dup.NoDup? && v'.m == m && v'.S == v.S && |m.entries| == |m0.entries| && m.max <= limit
    ensures Filled(m) && Capped(m) && v'.D.Keys == v.D.Keys + {item.key} && ItemsOf(v') == ItemsOf(v)[item.key := item]
  {
    m, v' := Raise(m0, hf(item.key) % |m0.entries|, p, v);
    var st := Insert(slot, item, p);
    EmptyFits(v, v', item.key, p, slot);
    StoreGood(v', st);
    PutItems(v', st);
    m, v' := Write(m, st), Do(v', st);
    forall k ensures k in v'.D.Keys <==> k in v.D.Keys + {item.key} {}
  }

  lemma EmptyFits(v: View, v': View, k: int, p: nat, s: nat)
    requires Good(v) && Good(v') && v'.S == v.S && v'.m.entries == v.m.entries && p >= 1 && s == v.S.at(k, p)
    requires NoGap(v.S, v.m, k, p) && v.m.entries[s].Empty?
    ensures Fits(v'.S, v'.m, k, p, s)
  {
    forall q: nat | 1 <= q < p ensures Used(v'.S, v'.m, v'.S.at(k, q)) && v.S.at(k, q) != s {
      assert Used(v.S, v.m, v.S.at(k, q));
    }
  }

  /** The part of the set stored below slot k. */
  ghost function Part(v: View, k: nat): Items {
    map x | x in v.D && v.S.at(x, v.D[x]) < k :: ItemAt(v, x)
  }

  lemma PartSkip(v: View, k: nat)
    requires Good(v) && v.dup.NoDup? && k < |v.m.entries| && !v.m.entries[k].Full?
    ensures Part(v, k + 1) == Part(v, k)
  {
    forall x | x in v.D ensures v.S.at(x, v.D[x]) != k {
      assert Loc(v.S, v.m, x, v.D[x]);
    }
    SameMap(Part(v, k + 1), Part(v, k));
  }

  lemma PartTake(v: View, k: nat)
    requires Good(v) && v.dup.NoDup? && k < |v.m.entries| && v.m.entries[k].Full?
    ensures var item := v.m.entries[k].item; item.key !in Part(v, k) && Part(v, k + 1) == Part(v, k)[item.key := item]
  {
    var item := v.m.entries[k].item;
    assert Known(v, k);
    forall x | x in v.D && x != item.key ensures v.S.at(x, v.D[x]) != k {
      SlotsApart(v, x, item.key);
    }
    SameMap(Part(v, k + 1), Part(v, k)[item.key := item]);
  }

  lemma PartAll(v: View)
    requires Good(v)
    ensures Part(v, |v.m.entries|) == ItemsOf(v)
  {
    forall x | x in v.D ensures v.S.at(x, v.D[x]) < |v.m.entries| {
      assert Loc(v.S, v.m, x, v.D[x]);
    }
    SameMap(Part(v, |v.m.entries|), ItemsOf(v));
  }

  /** The new map holds what the old one stores below slot k. */
  ghost predicate Copied(hf: int -> nat, v: View, m: Map, u: View, limit: nat, k: nat) {
    && Good(u) && u.dup.NoDup? && u.m == m && Tracks(u.S, hf, |m.entries|) && m.max <= limit && Filled(m)
    && Capped(m) && ItemsOf(u) == Part(v, k)
  }

  lemma SameKeys(u: View, M: Items, k: int)
    requires ItemsOf(u) == M
    ensures k in u.D <==> k in M
  {
    assert k in u.D <==> k in ItemsOf(u);
  }

  /** Copies every entry into a new map; fails when an entry finds no slot within the probe limit. */
  method Rebuild(hf: int -> nat, old_: Map, m0: Map, limit: nat, ghost v: View, ghost S: Probes)
    returns (ok: bool, m: Map, ghost u: View)
    requires Good(v) && v.dup.NoDup? && v.m == old_
    requires Good(View(S, m0, map[], NoDup)) && Tracks(S, hf, |m0.entries|) && m0.max <= limit
    requires Capped(m0) && forall s :: 0 <= s < |m0.entries| ==> m0.entries[s].Empty?
    ensures ok ==> Good(u) && u.dup.NoDup? && u.m == m && Tracks(u.S, hf, |m.entries|) && m.max <= limit
    ensures ok ==> |m.entries| == |m0.entries| && ItemsOf(u) == ItemsOf(v) && Capped(m)
    ensures !ok ==> exists key :: key in ItemsOf(v) && NoGap(S, m, key, limit + 1)
  {
    m, u := m0, View(S, m0, map[], NoDup);
    var k := 0;
    SameMap(ItemsOf(u), Part(v, 0));
    while k < |old_.entries|
      invariant k <= |old_.entries| && |m.entries| == |m0.entries| && Copied(hf, v, m, u, limit, k) && u.S == S
    {
      if old_.entries[k].Full? {
        PartTake(v, k);
        SameKeys(u, Part(v, k), old_.entries[k].item.key);
        ok, m, u := Place(hf, m, old_.entries[k].item, limit, u);
        if !ok {
          assert old_.entries[k].item.key in Part(v, k + 1);
          assert old_.entries[k].item.key in ItemsOf(v) && NoGap(S, m, old_.entries[k].item.key, limit + 1);
          return;
        }
      } else {
        PartSkip(v, k);
      }
      k := k + 1;
    }
    PartAll(v);
    ok := true;
  }

  lemma FitsFrame(S: Probes, m: Map, m': Map, k: int, p: nat, s: nat)
    requires Fits(S, m, k, p, s) && Sized(S, m') && m'.entries == m.entries
    ensures Fits(S, m', k, p, s)
  {
    forall q: nat | 1 <= q < p ensures Used(S, m', S.at(k, q)) {
      assert Used(S, m, S.at(k, q));
    }
  }

  // ---- Garbage collection --------------------------------------------------------------------------------

  /** The scan that starts at `seed` comes to slot s at step i or later. */
  ghost predicate Ahead(cap: nat, seed: nat, s: nat, i: nat) {
    cap > 0 && exists t: nat {:trigger Scanned(cap, seed, t)} :: i <= t < cap && Scanned(cap, seed, t) == s
  }

  function Scanned(cap: nat, seed: nat, i: nat): nat
    requires cap > 0
  {
    (i + seed) % cap
  }

  /** Every slot is scanned. */
  lemma AllAhead(cap: nat, seed: nat, s: nat)
    requires s < cap
    ensures Ahead(cap, seed, s, 0)
  {
    var q, r := seed / cap, seed % cap;
    assert seed == cap * q + r;
    var t := if s >= r then s - r else s + cap - r;
    var c := if s >= r then q else q + 1;
    assert t + seed == cap * c + s by {
      if s < r { assert cap * (q + 1) == cap * q + cap; }
    }
    DivModUnique(t + seed, cap, c, s);
    assert Scanned(cap, seed, t) == s;
  }

  /** Bounds gathered so far reach key k, or it is still to be scanned. */
  ghost predicate Gathered(v: View, seed: nat, i: nat, maximum: nat, bounds: seq<nat>) {
    && |bounds| == |v.m.entries|
    && (forall b :: 0 <= b < |bounds| ==> bounds[b] <= maximum && bounds[b] <= WORD_MAX)
    && forall k {:trigger Reached(v, k, maximum, bounds)} :: k in v.D ==>
         Reached(v, k, maximum, bounds) || Ahead(|bounds|, seed, v.S.at(k, v.D[k]), i)
  }

  ghost predicate Reached(v: View, k: int, maximum: nat, bounds: seq<nat>) {
    && k in v.D && v.D[k] <= maximum && v.S.home(k) < |bounds| && Covers(bounds[v.S.home(k)], v.D[k])
  }

  lemma GatherNone(v: View, seed: nat)
    requires Good(v)
    ensures Gathered(v, seed, 0, 0, seq(|v.m.entries|, _ => 0))
  {
    forall k | k in v.D ensures Ahead(|v.m.entries|, seed, v.S.at(k, v.D[k]), 0) {
      assert Loc(v.S, v.m, k, v.D[k]);
      AllAhead(|v.m.entries|, seed, v.S.at(k, v.D[k]));
    }
  }

  /** A slot without an entry is passed over. */
  lemma GatherSkip(v: View, seed: nat, i: nat, maximum: nat, bounds: seq<nat>)
    requires Good(v) && Gathered(v, seed, i, maximum, bounds) && i < |bounds|
    requires !v.m.entries[Scanned(|bounds|, seed, i)].Full?
    ensures Gathered(v, seed, i + 1, maximum, bounds)
  {
    forall k | k in v.D && !Reached(v, k, maximum, bounds)
      ensures Ahead(|bounds|, seed, v.S.at(k, v.D[k]), i + 1)
    {
      assert Loc(v.S, v.m, k, v.D[k]);
      StillAhead(|bounds|, seed, v.S.at(k, v.D[k]), i);
    }
  }

  lemma StillAhead(cap: nat, seed: nat, s: nat, i: nat)
    requires Ahead(cap, seed, s, i) && Scanned(cap, seed, i) != s
    ensures Ahead(cap, seed, s, i + 1)
  {
    var t: nat :| i <= t < cap && Scanned(cap, seed, t) == s;
    assert t != i;
  }

  /** An entry that was scanned, and perhaps moved to probe p, is reached. */
  lemma GatherEntry(v: View, v': View, seed: nat, i: nat, maximum: nat, bounds: seq<nat>, maximum': nat,
                    bounds': seq<nat>, key: int, p: nat)
    requires Good(v) && Gathered(v, seed, i, maximum, bounds) && i < |bounds| && v.dup.NoDup?
    requires key in v.D && v.S.at(key, v.D[key]) == Scanned(|bounds|, seed, i)
    requires v'.S == v.S && v'.D == v.D[key := p] && |v'.m.entries| == |v.m.entries|
    requires maximum' == (if p > maximum then p else maximum) && v.S.home(key) < |bounds|
    requires var c := if p > WORD_MAX then WORD_MAX else p;
             bounds' == if c > bounds[v.S.home(key)] then bounds[v.S.home(key) := c] else bounds
    ensures Gathered(v', seed, i + 1, maximum', bounds')
  {
    forall k | k in v'.D
      ensures Reached(v', k, maximum', bounds') || Ahead(|bounds|, seed, v'.S.at(k, v'.D[k]), i + 1)
    {
      if k != key {
        assert Reached(v, k, maximum, bounds) || Ahead(|bounds|, seed, v.S.at(k, v.D[k]), i);
        if !Reached(v, k, maximum, bounds) {
          SlotsApart(v, k, key);
          StillAhead(|bounds|, seed, v.S.at(k, v.D[k]), i);
        }
      }
    }
  }

  /** Probe numbers only went down. */
  ghost predicate Lowered(D: map<int, nat>, D': map<int, nat>) {
    (forall k :: k in D' <==> k in D) && forall k :: k in D ==> D'[k] <= D[k]
  }

  lemma LoweredOne(D0: map<int, nat>, D: map<int, nat>, k: int, p: nat)
    requires Lowered(D0, D) && k in D && p <= D[k]
    ensures Lowered(D0, D[k := p])
  {
  }

  /** Every bound is zero or was needed by a key of that home. */
  ghost predicate Needed(S: Probes, D: map<int, nat>, bounds: seq<nat>) {
    forall b: nat {:trigger bounds[b]} :: b < |bounds| ==> bounds[b] == 0 || NeededBy(S, D, b, bounds[b])
  }

  ghost predicate NeededBy(S: Probes, D: map<int, nat>, b: nat, n: nat) {
    exists k :: k in D && S.home(k) == b && n <= D[k]
  }

  lemma NeededOne(S: Probes, D: map<int, nat>, bounds: seq<nat>, b: nat, n: nat, k: int)
    requires Needed(S, D, bounds) && b < |bounds| && k in D && S.home(k) == b && n <= D[k]
    ensures Needed(S, D, bounds[b := n])
  {
    assert NeededBy(S, D, b, n);
  }

  lemma GatherAll(v: View, seed: nat, maximum: nat, bounds: seq<nat>)
    requires Gathered(v, seed, |bounds|, maximum, bounds)
    ensures forall k :: k in v.D ==> Reached(v, k, maximum, bounds)
  {
  }

  /** Moving a key to the first tombstone of its sequence leaves none before it. */
  lemma MovedTombs(v: View, k: int, p: nat, first: nat, slot: nat, e: Entry)
    requires Good(v) && k in v.D && 1 <= p < v.D[k] && slot == v.S.at(k, v.D[k]) && e.Full?
    requires NoTomb(v.S, v.m, k, p - 1) && first < |v.m.entries| && slot < |v.m.entries|
    ensures NoTomb(v.S, v.m.(entries := v.m.entries[first := e][slot := Tomb]), k, p - 1)
  {
    assert Loc(v.S, v.m, k, v.D[k]);
  }

  /** Probe p is the first of the key's sequence that meets a tombstone, or the key itself. */
  ghost predicate FirstFree(u: View, key: int, p: nat) {
    && key in u.D && 1 <= p <= u.D[key] && NoTomb(u.S, u.m, key, p - 1)
    && (p < u.D[key] ==> u.S.at(key, p) < |u.m.entries| && u.m.entries[u.S.at(key, p)].Tomb?)
  }

  /** The entry of slot s has moved to probe p of its sequence. */
  ghost predicate MovesTo(u: View, u': View, s: nat, p: nat)
    requires s < |u.m.entries| && u.m.entries[s].Full?
  {
    var item := u.m.entries[s].item;
    && FirstFree(u, item.key, p) && u.S.at(item.key, u.D[item.key]) == s && u'.D == u.D[item.key := p]
    && u'.m.entries == if p == u.D[item.key] then u.m.entries else
         u.m.entries[u.S.at(item.key, p) := Full(item)][s := Tomb]
  }

  /** What the collector does with slot s: nothing if it holds no entry, else its entry moves to the first
      tombstone of its sequence before it. */
  ghost predicate Tidied(u: View, u': View, s: nat) {
    && s < |u.m.entries| && u'.S == u.S
    && if u.m.entries[s].Full? then exists p: nat :: MovesTo(u, u', s, p)
       else u'.D == u.D && u'.m.entries == u.m.entries
  }

  /** The collector has tidied the slots that come first from `seed` on, one after the other. */
  ghost predicate Sweeps(tr: seq<View>, cap: nat, seed: nat) {
    && 0 < |tr| <= cap + 1
    && forall i: nat {:trigger SweptAt(tr, cap, seed, i)} :: i + 1 < |tr| ==> SweptAt(tr, cap, seed, i)
  }

  ghost predicate SweptAt(tr: seq<View>, cap: nat, seed: nat, i: nat) {
    cap > 0 && i + 1 < |tr| && Tidied(tr[i], tr[i + 1], Scanned(cap, seed, i))
  }

  /** How many of the slots looked at held an entry. */
  ghost function Looked(tr: seq<View>, cap: nat, seed: nat, n: nat): nat
    requires cap > 0 && n <= |tr|
  {
    if n == 0 then 0
    else
      var s, u := Scanned(cap, seed, n - 1), tr[n - 1];
      Looked(tr, cap, seed, n - 1) + if s < |u.m.entries| && u.m.entries[s].Full? then 1 else 0
  }

  /** The trace of the first i slots, from view u to view v. */
  ghost predicate Swept(tr: seq<View>, cap: nat, seed: nat, i: nat, u: View, v: View) {
    cap > 0 && Sweeps(tr, cap, seed) && |tr| == i + 1 && tr[0] == u && tr[i] == v
  }

  lemma SweptMore(tr: seq<View>, cap: nat, seed: nat, i: nat, u: View, v: View, v': View)
    requires Swept(tr, cap, seed, i, u, v) && i < cap && Tidied(v, v', Scanned(cap, seed, i))
    ensures Swept(tr + [v'], cap, seed, i + 1, u, v')
    ensures Looked(tr + [v'], cap, seed, i + 1) ==
            Looked(tr, cap, seed, i) + if v.m.entries[Scanned(cap, seed, i)].Full? then 1 else 0
  {
    SweepMore(tr, cap, seed, v');
    LookedSame(tr, v', cap, seed, i);
  }

  /** A collection from view u to view v. */
  ghost predicate Collects(u: View, v: View, seed: nat, tr: seq<View>) {
    && Sweeps(tr, |u.m.entries|, seed) && tr[0] == u && tr[|tr| - 1].S == v.S && tr[|tr| - 1].D == v.D
    && tr[|tr| - 1].m.entries == v.m.entries
  }

  /** As many entries have been looked at as there are cycles, or all slots. */
  ghost predicate Enough(tr: seq<View>, cap: nat, seed: nat, cycles: nat) {
    && cap > 0 && 0 < |tr| <= cap + 1
    && (Looked(tr, cap, seed, |tr| - 1) == cycles ||
          (|tr| == cap + 1 && Looked(tr, cap, seed, |tr| - 1) < cycles))
  }

  lemma SweepMore(tr: seq<View>, cap: nat, seed: nat, u: View)
    requires cap > 0 && Sweeps(tr, cap, seed) && |tr| <= cap
    requires Tidied(tr[|tr| - 1], u, Scanned(cap, seed, |tr| - 1))
    ensures Sweeps(tr + [u], cap, seed)
  {
    var tr' := tr + [u];
    forall i: nat | i + 1 < |tr'| ensures SweptAt(tr', cap, seed, i) {
      if i + 1 < |tr| { assert SweptAt(tr, cap, seed, i); }
    }
  }

  lemma {:induction false} LookedSame(tr: seq<View>, u: View, cap: nat, seed: nat, n: nat)
    requires cap > 0 && n <= |tr|
    ensures Looked(tr + [u], cap, seed, n) == Looked(tr, cap, seed, n)
  {
    if n > 0 { LookedSame(tr, u, cap, seed, n - 1); }
  }

  /** No tombstone comes before an entry that has been looked at. */
  lemma TidiedTombs(u: View, u': View, s: nat) returns (p: nat)
    requires Good(u) && Sized(u'.S, u'.m) && Tidied(u, u', s) && u.m.entries[s].Full?
    ensures var key := u.m.entries[s].item.key;
            key in u'.D && p == u'.D[key] && 1 <= p <= u.D[key] && NoTomb(u'.S, u'.m, key, p - 1)
  {
    var item := u.m.entries[s].item;
    p :| MovesTo(u, u', s, p);
    if p < u.D[item.key] {
      assert Loc(u.S, u.m, item.key, u.D[item.key]);
      forall q: nat | 1 <= q <= p - 1 ensures !u'.m.entries[u'.S.at(item.key, q)].Tomb? {
        assert !u.m.entries[u.S.at(item.key, q)].Tomb?;
      }
    }
  }

  /** No bound exceeds the probe maximum. */
  ghost predicate Capped(m: Map) { forall i :: 0 <= i < |m.bound| ==> m.bound[i] <= m.max }

  /** A set of n entries whose map had cap slots grows to at least twice as many if it is more than half
      full, or has no memory left; otherwise it needs none. */
  ghost predicate KeepsLoad(n: nat, cap: nat, cap': nat, budget: nat, budget': nat) {
    if 2 * n > cap then cap' >= 2 * cap || budget' == 0 else cap' == cap && budget' == budget
  }

  /** Probe p is the first of the key's sequence that meets no entry. */
  ghost predicate FirstRoom(u: View, key: int, p: nat) {
    && p >= 1 && NoGap(u.S, u.m, key, p) && NoTomb(u.S, u.m, key, p - 1)
    && u.S.at(key, p) < |u.m.entries| && !u.m.entries[u.S.at(key, p)].Full?
  }

  class Hs {
    const hf: int -> nat
    var map_: Map
    var n: nat
    var limit: nat
    var budget: nat
    ghost var v: View
    ghost var h: seq<World>

    ghost predicate Sound()
      reads this
    {
      Tied(hf, v, h, map_, limit)
    }

    ghost predicate Valid()
      reads this
    {
      Sound() && v.dup.NoDup? && n == |v.D| && Capped(map_)
    }

    ghost function Contents(): Items
      reads this
    {
      ItemsOf(v)
    }

    /** One store of the writer. */
    method Exec(st: Store)
      requires Sound() && Ok(v, st) && (st.SetMax? ==> st.n <= limit)
      modifies this`map_, this`v, this`h
      ensures Sound() && v == Do(old(v), st) && old(h) <= h
      ensures map_ == Write(old(map_), st)
    {
      TiedStore(hf, v, h, map_, limit, st);
      map_ := Write(map_, st);
      ghost var w := h[|h| - 1];
      v := Do(v, st);
      h := h + [w[|w| - 1 := v]];
    }

    constructor (hf: int -> nat, entries: nat, budget: nat)
      ensures Valid() && Contents() == map[] && this.hf == hf
    {
      this.hf := hf;
      this.budget := budget;
      var m, S := NewMap(hf, entries);
      map_, n, limit := m, 0, ProbeLimit(|m.entries|);
      v, h := View(S, m, map[], NoDup), [[View(S, m, map[], NoDup)]];
    }

    /** The object stored under the key, if any. */
    method Get(key: int) returns (r: Entry)
      requires Valid()
      ensures r == if key in Contents() then Full(Contents()[key]) else Empty
    {
      var slot, first, np;
      slot, first, np, r := Probe(hf, map_, key, BoundGet(map_.bound[hf(key) % |map_.entries|], map_.max), false, v);
    }

    /** Makes lookups from home slot i probe at least p slots. */
    method BoundSet(i: nat, p: nat)
      requires Valid() && i < |map_.bound| && p <= limit
      modifies this`map_, this`v, this`h
      ensures Valid() && old(h) <= h && Contents() == old(Contents())
      ensures v.D == old(v.D) && v.S == old(v.S) && map_.entries == old(map_.entries)
      ensures p <= map_.max && Covers(map_.bound[i], p)
    {
      RaiseOk(v, i, p);
      if p > map_.max {
        OtherItems(v, SetMax(p));
        Exec(SetMax(p));
      }
      RaiseOk(v, i, p);
      if map_.bound[i] < p {
        OtherItems(v, BoundStore(i, p));
        Exec(BoundStore(i, p));
      }
    }

    /** Removes the key and returns the object that was stored under it. */
    method Remove(key: int) returns (r: Entry)
      requires Valid()
      modifies this`map_, this`v, this`h, this`n
      ensures Valid() && old(h) <= h
      ensures r == if key in old(Contents()) then Full(old(Contents())[key]) else Empty
      ensures Contents() == old(Contents()) - {key}
    {
      var slot, first, np;
      slot, first, np, r := Probe(hf, map_, key, BoundGet(map_.bound[hf(key) % |map_.entries|], map_.max), false, v);
      if r.Full? {
        var st := HsViews.Remove(slot, key);
        OtherItems(v, st);
        RemoveSize(v.D, key);
        Exec(st);
        n := n - 1;
      } else {
        SameMap(Contents(), Contents() - {key});
      }
    }

    /** Rebuilds the map with at least the given capacity, doubled until every entry is placed within
        the probe limit, as long as memory lasts, and publishes it. */
    method Grow(capacity: nat) returns (ok: bool)
      requires Valid()
      modifies this
      ensures Valid() && old(h) <= h && Contents() == old(Contents()) && n == old(n)
      ensures budget <= old(budget) && (ok ==> budget < old(budget) && |map_.entries| >= capacity)
      ensures !ok ==> map_ == old(map_) && limit == old(limit) && h == old(h)
      ensures !ok && |old(map_).entries| <= capacity ==> budget == 0
    {
      var size := capacity;
      if |map_.entries| > size {
        return false;
      }
      while budget > 0
        invariant Valid() && size >= capacity && budget <= old(budget)
        invariant map_ == old(map_) && limit == old(limit) && h == old(h) && v == old(v) && n == old(n)
      {
        budget := budget - 1;
        var m, S := NewMap(hf, size);
        ghost var u;
        ok, m, u := Rebuild(hf, map_, m, ProbeLimit(|m.entries|), v, S);
        if ok {
          Publish(m, u);
          return;
        }
        size := 2 * size;
      }
      return false;
    }

    method Publish(m: Map, ghost u: View)
      requires Valid() && Good(u) && u.dup.NoDup? && u.m == m && Tracks(u.S, hf, |m.entries|)
      requires m.max <= ProbeLimit(|m.entries|) && Capped(m) && ItemsOf(u) == Contents()
      modifies this`map_, this`v, this`h, this`limit
      ensures Valid() && old(h) <= h && Contents() == old(Contents()) && map_ == m
    {
      ghost var w := h[|h| - 1];
      forall k ensures k in u.D <==> k in v.D { SameKeys(u, ItemsOf(v), k); SameKeys(v, ItemsOf(v), k); }
      forall k ensures k in u.D.Keys <==> k in v.D.Keys {}
      assert u.D.Keys == v.D.Keys;
      PublishMoves(w, u);
      LegalMore(h, w + [u]);
      map_, limit := m, ProbeLimit(|m.entries|);
      v, h := u, h + [w + [u]];
    }

    /** Moves a key that is held to an earlier tombstone, with a new object: copy, bump the
        generation, delete the older copy. */
    method Move(first: nat, slot: nat, item: Item, p: nat)
      requires Valid() && item.key in v.D && Fits(v.S, map_, item.key, p, first) && map_.entries[first].Tomb?
      requires p < v.D[item.key] && slot == v.S.at(item.key, v.D[item.key])
      modifies this`map_, this`v, this`h
      ensures Valid() && old(h) <= h && Contents() == old(Contents())[item.key := item]
      ensures v.D == old(v.D)[item.key := p] && v.S == old(v.S)
      ensures map_.entries == old(map_.entries)[first := Full(item)][slot := Tomb]
      ensures map_.max == old(map_.max) && map_.bound == old(map_.bound)
    {
      ghost var h0 := h;
      var st := Copy(first, item, p);
      PutItems(v, st);
      InsertSize(v.D, item.key, p);
      Exec(st);
      ghost var h1 := h;
      var g := hf(item.key) % 2;
      OtherItems(v, Signal(g));
      Exec(Signal(g));
      OtherItems(v, Kill(slot));
      Exec(Kill(slot));
    }

    /** Stores an item for a key that is not held, where room was found. */
    method Add(s: nat, item: Item, p: nat)
      requires Valid() && item.key !in v.D && Fits(v.S, map_, item.key, p, s) && !map_.entries[s].Full?
      requires p <= map_.max && Covers(map_.bound[v.S.home(item.key)], p)
      modifies this
      ensures Valid() && old(h) <= h && Contents() == old(Contents())[item.key := item] && n == old(n) + 1
      ensures budget <= old(budget) && KeepsLoad(n, |old(map_.entries)|, |map_.entries|, old(budget), budget)
      ensures 2 * n <= |old(map_.entries)| ==> v.D == old(v.D)[item.key := p]
    {
      var st := Insert(s, item, p);
      PutItems(v, st);
      InsertSize(v.D, item.key, p);
      Exec(st);
      n := n + 1;
      if n * 2 > |map_.entries| {
        var _ := Grow(2 * |map_.entries|);
      }
    }

    /** Looks for the key and for room for it, growing as often as there is none. */
    method Locate(key: int) returns (ok: bool, slot: int, first: int, p: nat, found: Entry)
      requires Valid()
      modifies this
      ensures Valid() && old(h) <= h && Contents() == old(Contents()) && budget <= old(budget)
      ensures !ok ==> budget == 0
      ensures ok ==> Answer(v, key, limit, slot, first, p, found) && !(slot == -1 && first == -1)
      ensures old(HasRoomWithin(v.S, map_, key, limit) || key in v.D) ==>
                && ok && budget == old(budget) && map_ == old(map_) && h == old(h) && v == old(v)
                && limit == old(limit) && n == old(n)
    {
      slot, first, p, found := Probe(hf, map_, key, limit, true, v);
      while slot == -1 && first == -1
        invariant Valid() && old(h) <= h && Contents() == old(Contents()) && budget <= old(budget)
        invariant Answer(v, key, limit, slot, first, p, found)
        invariant old(HasRoomWithin(v.S, map_, key, limit) || key in v.D) ==>
                    && !(slot == -1 && first == -1) && budget == old(budget) && map_ == old(map_) && h == old(h)
                    && v == old(v) && limit == old(limit) && n == old(n)
        decreases budget
      {
        ok := Grow(2 * |map_.entries|);
        if !ok {
          return;
        }
        slot, first, p, found := Probe(hf, map_, key, limit, true, v);
      }
      ok := true;
    }

    /** Stores an item at the place that was found for it. */
    method Fill(slot: int, first: int, p: nat, found: Entry, item: Item)
      requires Valid() && Answer(v, item.key, limit, slot, first, p, found) && !(slot == -1 && first == -1)
      modifies this
      ensures Valid() && old(h) <= h && Contents() == old(Contents())[item.key := item] && budget <= old(budget)
      ensures found.Empty? ==> n == old(n) + 1 && KeepsLoad(n, |old(map_.entries)|, |map_.entries|, old(budget), budget)
      ensures found.Full? ==> n == old(n) && budget == old(budget) && |map_.entries| == |old(map_.entries)|
      ensures found.Full? || 2 * n <= |old(map_.entries)| ==> v.D == old(v.D)[item.key := p]
    {
      var m := map_;
      BoundSet(hf(item.key) % |map_.entries|, p);
      if first != -1 {
        FitsFrame(v.S, m, map_, item.key, p, first);
        if found.Full? {
          Move(first, slot, item, p);
        } else {
          Add(first, item, p);
        }
      } else if found.Full? {
        var st := Replace(slot, item);
        PutItems(v, st);
        InsertSize(v.D, item.key, p);
        Exec(st);
      } else {
        FitsFrame(v.S, m, map_, item.key, p, slot);
        Add(slot, item, p);
      }
    }

    lemma FoundItem(key: int, slot: int, first: int, p: nat, found: Entry)
      requires Valid() && Answer(v, key, limit, slot, first, p, found)
      ensures found == if key in Contents() then Full(Contents()[key]) else Empty
    {
    }

    /** Stores the item and returns the one it replaces; false only when memory runs out. */
    method Set(item: Item) returns (ok: bool, previous: Entry)
      requires Valid()
      modifies this
      ensures Valid() && old(h) <= h && (!ok ==> budget == 0)
      ensures ok ==> previous == if item.key in old(Contents()) then Full(old(Contents())[item.key]) else Empty
      ensures Contents() == if ok then old(Contents())[item.key := item] else old(Contents())
      ensures old(HasRoomWithin(v.S, map_, item.key, limit)) || item.key in old(Contents()) ==> ok
      ensures item.key in old(Contents()) ==> item.key in v.D && FirstFree(old(v), item.key, v.D[item.key])
    {
      var slot, first, p;
      ok, slot, first, p, previous := Locate(item.key);
      if ok {
        FoundItem(item.key, slot, first, p, previous);
        Fill(slot, first, p, previous, item);
      }
    }

    /** Stores the item unless its key is held; with room within the probe limit it needs no memory for that. */
    method Put(item: Item) returns (r: bool)
      requires Valid()
      modifies this
      ensures Valid() && old(h) <= h
      ensures r ==> item.key !in old(Contents())
      ensures !r ==> item.key in old(Contents()) || budget == 0
      ensures old(HasRoomWithin(v.S, map_, item.key, limit)) ==> (r <==> item.key !in old(Contents()))
      ensures old(HasRoomWithin(v.S, map_, item.key, limit)) && r ==>
                n == old(n) + 1 && KeepsLoad(n, |old(map_.entries)|, |map_.entries|, old(budget), budget)
      ensures old(HasRoomWithin(v.S, map_, item.key, limit)) && r && 2 * n <= |old(map_.entries)| ==>
                item.key in v.D && FirstRoom(old(v), item.key, v.D[item.key])
      ensures Contents() == if r then old(Contents())[item.key := item] else old(Contents())
    {
      var ok, slot, first, p, found := Locate(item.key);
      if ok {
        FoundItem(item.key, slot, first, p, found);
      }
      if !ok || found.Full? {
        return false;
      }
      Fill(slot, first, p, found, item);
      r := true;
    }

    /** Replaces the object of a key that is held. */
    method Fas(item: Item) returns (ok: bool, previous: Entry)
      requires Valid()
      modifies this`map_, this`v, this`h
      ensures Valid() && old(h) <= h && (ok <==> item.key in old(Contents()))
      ensures previous == if ok then Full(old(Contents())[item.key]) else Empty
      ensures Contents() == if ok then old(Contents())[item.key := item] else old(Contents())
      ensures ok ==> item.key in v.D && FirstFree(old(v), item.key, v.D[item.key])
    {
      var slot, first, p;
      var bound := BoundGet(map_.bound[hf(item.key) % |map_.entries|], map_.max);
      slot, first, p, previous := Probe(hf, map_, item.key, bound, false, v);
      if previous.Empty? {
        return false, Empty;
      }
      if first != -1 {
        Move(first, slot, item, p);
      } else {
        var st := Replace(slot, item);
        PutItems(v, st);
        Exec(st);
      }
      ok := true;
    }

    /** Moves the entry of a slot to the first tombstone of its sequence, if there is one before it,
        and returns its probe number: no tombstone precedes it then. */
    method Tidy(s: nat) returns (p: nat)
      requires Valid() && s < |map_.entries| && map_.entries[s].Full?
      modifies this`map_, this`v, this`h
      ensures Valid() && old(h) <= h && Contents() == old(Contents()) && p <= limit
      ensures v.S == old(v.S) && |map_.entries| == |old(map_.entries)|
      ensures map_.max == old(map_.max) && map_.bound == old(map_.bound)
      ensures var k := old(map_.entries[s].item.key);
              && k in old(v.D) && old(v.S.at(k, v.D[k])) == s && v.D == old(v.D)[k := p] && p <= old(v.D[k])
              && p >= 1 && NoTomb(v.S, map_, k, p - 1)
      ensures Tidied(old(v), v, s)
    {
      var item := map_.entries[s].item;
      ghost var u := v;
      assert Known(v, s);
      var bound := BoundGet(map_.bound[hf(item.key) % |map_.entries|], map_.max);
      var slot, first, found;
      slot, first, p, found := Probe(hf, map_, item.key, bound, false, v);
      SameMap(Contents(), Contents()[item.key := item]);
      if first != -1 {
        MovedTombs(v, item.key, p, first, slot, Full(item));
        Move(first, slot, item, p);
      }
      assert MovesTo(u, v, s, p);
    }

    /** Stores new bounds that reach every key. */
    method StoreBounds(maximum: nat, bounds: seq<nat>)
      requires Sound() && v.dup.NoDup? && n == |v.D| && maximum <= limit && |bounds| == |map_.entries|
      requires forall k :: k in v.D ==> Reached(v, k, maximum, bounds)
      requires forall b :: 0 <= b < |bounds| ==> bounds[b] <= maximum && bounds[b] <= WORD_MAX
      modifies this`map_, this`v, this`h
      ensures Valid() && old(h) <= h && Contents() == old(Contents())
      ensures map_.max == maximum && map_.bound == bounds && v.D == old(v.D) && v.S == old(v.S)
      ensures map_.entries == old(map_.entries)
    {
      if maximum != map_.max {
        forall k | k in v.D ensures v.D[k] <= maximum { assert Reached(v, k, maximum, bounds); }
        OtherItems(v, SetMax(maximum));
        Exec(SetMax(maximum));
      }
      var i := 0;
      while i < |bounds|
        invariant i <= |bounds| == |map_.entries| && Sound() && old(h) <= h && Contents() == old(Contents())
        invariant v.D == old(v.D) && v.S == old(v.S) && v.dup.NoDup? && map_.max == maximum
        invariant map_.entries == old(map_.entries)
        invariant forall b :: 0 <= b < i ==> map_.bound[b] == bounds[b]
      {
        var st := SetBound(i, bounds[i]);
        forall k | k in v.D && v.S.home(k) == i ensures Covers(bounds[i], v.D[k]) {
          assert Reached(old(v), k, maximum, bounds);
        }
        OtherItems(v, st);
        Exec(st);
        i := i + 1;
      }
      assert map_.bound == bounds;
    }

    /** Moves entries into earlier tombstones. A full collection, asked for with zero cycles, also lowers
        the probe bounds to what the remaining entries need; otherwise as many entries as there are
        cycles are looked at. */
    method Gc(cycles: nat, seed: nat) returns (ok: bool, ghost tr: seq<View>)
      requires Valid()
      modifies this
      ensures Valid() && old(h) <= h && Contents() == old(Contents()) && n == old(n)
      ensures !ok ==> budget == 0
      ensures Lowered(old(v.D), v.D) && v.S == old(v.S)
      ensures ok && cycles == 0 ==> Needed(v.S, old(v.D), map_.bound)
      ensures ok && n > 0 ==> Collects(old(v), v, seed, tr) && (cycles == 0 ==> |tr| == |map_.entries| + 1)
      ensures ok && n > 0 && cycles > 0 ==> Enough(tr, |map_.entries|, seed, cycles)
    {
      tr := [];
      if n == 0 {
        assert v.D == map[];
        StoreBounds(0, seq(|map_.entries|, _ => 0));
        ok := true;
        return;
      }
      if cycles == 0 {
        if budget == 0 {
          ok := false;
          return;
        }
        budget := budget - 1;
        tr := Collect(seed);
      } else {
        tr := Glean(cycles, seed);
      }
      ok := true;
    }

    method Collect(seed: nat) returns (ghost tr: seq<View>)
      requires Valid()
      modifies this`map_, this`v, this`h
      ensures Valid() && old(h) <= h && Contents() == old(Contents())
      ensures Lowered(old(v.D), v.D) && v.S == old(v.S) && Needed(v.S, old(v.D), map_.bound)
      ensures Collects(old(v), v, seed, tr) && |tr| == |map_.entries| + 1
    {
      var maximum, bounds;
      maximum, bounds, tr := Gather(seed);
      GatherAll(v, seed, maximum, bounds);
      StoreBounds(maximum, bounds);
    }

    /** Tidies every entry and notes the bounds that are needed. */
    method Gather(seed: nat) returns (maximum: nat, bounds: seq<nat>, ghost tr: seq<View>)
      requires Valid()
      modifies this`map_, this`v, this`h
      ensures Valid() && old(h) <= h && Contents() == old(Contents()) && |map_.entries| == |old(map_.entries)|
      ensures Gathered(v, seed, |bounds|, maximum, bounds) && maximum <= limit && |bounds| == |map_.entries|
      ensures Lowered(old(v.D), v.D) && v.S == old(v.S) && Needed(v.S, old(v.D), bounds)
      ensures Swept(tr, |map_.entries|, seed, |map_.entries|, old(v), v)
    {
      tr := [v];
      var cap := |map_.entries|;
      maximum, bounds := 0, seq(cap, _ => 0);
      GatherNone(v, seed);
      var i := 0;
      while i < cap
        invariant i <= cap == |map_.entries| && Valid() && old(h) <= h && Contents() == old(Contents())
        invariant Gathered(v, seed, i, maximum, bounds) && maximum <= limit
        invariant Lowered(old(v.D), v.D) && v.S == old(v.S) && Needed(v.S, old(v.D), bounds)
        invariant Swept(tr, cap, seed, i, old(v), v)
      {
        ghost var v0 := v;
        maximum, bounds := NoteSlot(Scanned(cap, seed, i), seed, i, maximum, bounds, old(v.D));
        SweptMore(tr, cap, seed, i, old(v), v0, v);
        tr := tr + [v];
        i := i + 1;
      }
    }

    method NoteSlot(s: nat, ghost seed: nat, ghost i: nat, maximum: nat, bounds: seq<nat>, ghost D0: map<int, nat>)
      returns (maximum': nat, bounds': seq<nat>)
      requires Valid() && s < |map_.entries| && i < |map_.entries|
      requires s == Scanned(|map_.entries|, seed, i) && Gathered(v, seed, i, maximum, bounds) && maximum <= limit
      requires Lowered(D0, v.D) && Needed(v.S, D0, bounds)
      modifies this`map_, this`v, this`h
      ensures Valid() && old(h) <= h && Contents() == old(Contents()) && |map_.entries| == |old(map_.entries)|
      ensures Gathered(v, seed, i + 1, maximum', bounds') && maximum' <= limit
      ensures Lowered(D0, v.D) && v.S == old(v.S) && Needed(v.S, D0, bounds') && Tidied(old(v), v, s)
    {
      maximum', bounds' := maximum, bounds;
      if map_.entries[s].Full? {
        maximum', bounds' := Note(s, seed, i, maximum, bounds, D0);
      } else {
        GatherSkip(v, seed, i, maximum, bounds);
      }
    }

    method Note(s: nat, ghost seed: nat, ghost i: nat, maximum: nat, bounds: seq<nat>, ghost D0: map<int, nat>)
      returns (maximum': nat, bounds': seq<nat>)
      requires Valid() && s < |map_.entries| && map_.entries[s].Full? && i < |map_.entries|
      requires s == Scanned(|map_.entries|, seed, i) && Gathered(v, seed, i, maximum, bounds) && maximum <= limit
      requires Lowered(D0, v.D) && Needed(v.S, D0, bounds)
      modifies this`map_, this`v, this`h
      ensures Valid() && old(h) <= h && Contents() == old(Contents()) && |map_.entries| == |old(map_.entries)|
      ensures Gathered(v, seed, i + 1, maximum', bounds') && maximum' <= limit
      ensures Lowered(D0, v.D) && v.S == old(v.S) && Needed(v.S, D0, bounds') && Tidied(old(v), v, s)
    {
      var key := map_.entries[s].item.key;
      ghost var v0 := v;
      var p := Tidy(s);
      maximum' := if p > maximum then p else maximum;
      var c := if p > WORD_MAX then WORD_MAX else p;
      var o := hf(key) % |map_.entries|;
      bounds' := if c > bounds[o] then bounds[o := c] else bounds;
      GatherEntry(v0, v, seed, i, maximum, bounds, maximum', bounds', key, p);
      LoweredOne(D0, v0.D, key, p);
      if c > bounds[o] { NeededOne(v.S, D0, bounds, o, c, key); }
    }

    /** Tidies the entry of a slot, if it has one. */
    method Visit(s: nat, ghost D0: map<int, nat>) returns (full: bool)
      requires Valid() && s < |map_.entries| && Lowered(D0, v.D)
      modifies this`map_, this`v, this`h
      ensures Valid() && old(h) <= h && Contents() == old(Contents()) && |map_.entries| == |old(map_.entries)|
      ensures map_.max == old(map_.max) && map_.bound == old(map_.bound) && v.S == old(v.S)
      ensures Lowered(D0, v.D) && Tidied(old(v), v, s) && (full <==> old(v.m.entries[s].Full?))
    {
      full := map_.entries[s].Full?;
      if full {
        ghost var D, key := v.D, map_.entries[s].item.key;
        var p := Tidy(s);
        LoweredOne(D0, D, key, p);
      }
    }

    method Glean(cycles: nat, seed: nat) returns (ghost tr: seq<View>)
      requires Valid() && cycles > 0
      modifies this`map_, this`v, this`h
      ensures Valid() && old(h) <= h && Contents() == old(Contents())
      ensures Lowered(old(v.D), v.D) && v.S == old(v.S)
      ensures map_.max == old(map_.max) && map_.bound == old(map_.bound)
      ensures Collects(old(v), v, seed, tr) && Enough(tr, |map_.entries|, seed, cycles)
    {
      tr := [v];
      var left, i, cap := cycles, 0, |map_.entries|;
      while i < cap
        invariant i <= cap == |map_.entries| && left > 0 && Valid() && old(h) <= h && Contents() == old(Contents())
        invariant Lowered(old(v.D), v.D) && v.S == old(v.S)
        invariant map_.max == old(map_.max) && map_.bound == old(map_.bound)
        invariant Swept(tr, cap, seed, i, old(v), v)
        invariant left + Looked(tr, cap, seed, i) == cycles
      {
        var s := Scanned(cap, seed, i);
        ghost var v0 := v;
        var full := Visit(s, old(v.D));
        SweptMore(tr, cap, seed, i, old(v), v0, v);
        tr := tr + [v];
        i := i + 1;
        left := if full then left - 1 else left;
        if left == 0 {
          break;
        }
      }
    }
  }
}
