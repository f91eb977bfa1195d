/**
 The SPMC hash set as its readers see it: a map whose entries, probe bounds and generation counters
 one writer changes by single stores.

 The probe sequence of a key is a function from probe numbers to slots. Nothing is assumed of it but
 that its slots exist, so the theory holds whether or not it visits a slot twice.
 */
module HsViews {
  import opened Internal

  datatype Entry = Empty | Tomb | Full(item: Item)

  /** The words of a map that readers load. */
  datatype Map = Map(entries: seq<Entry>, bound: seq<nat>, max: nat, gen: seq<nat>)

  /** A bound of this value stands for the map's probe maximum. */
  const WORD_MAX := 255

  /** The home slot, the generation counter and the probed slots of every key. */
  datatype Probes = Probes(cap: nat, home: int -> nat, lane: int -> nat, at: (int, nat) -> nat)

  ghost predicate Ranged(S: Probes) {
    && S.cap > 0
    && (forall k: int :: S.home(k) < S.cap)
    && (forall k: int :: S.lane(k) < 2)
    && (forall k: int, j: nat :: S.at(k, j) < S.cap)
  }

  /** A second, older copy of a key that is about to be deleted; `told` once the generation of the
      key has been bumped. */
  datatype Dup = NoDup | Dup(key: int, idx: nat, told: bool)

  /** A map together with the probe number of every key it holds. */
  datatype View = View(S: Probes, m: Map, D: map<int, nat>, dup: Dup)

  ghost predicate Sized(S: Probes, m: Map) {
    Ranged(S) && |m.entries| == S.cap && |m.bound| == S.cap && |m.gen| == 2
  }

  ghost predicate Used(S: Probes, m: Map, s: nat) { s < |m.entries| && !m.entries[s].Empty? }

  /** No empty slot among the probes before j. */
  ghost predicate NoGap(S: Probes, m: Map, k: int, j: nat) {
    forall p: nat {:trigger S.at(k, p)} :: 1 <= p < j ==> Used(S, m, S.at(k, p))
  }

  /** Slot `S.at(k, j)` is not probed before j. */
  ghost predicate FirstAt(S: Probes, k: int, j: nat) {
    forall p: nat {:trigger S.at(k, p)} :: 1 <= p < j ==> S.at(k, p) != S.at(k, j)
  }

  predicate Covers(b: nat, j: nat) { j <= b || b == WORD_MAX }

  /** A lookup that starts now and sees no change finds key k at probe j. */
  ghost predicate Loc(S: Probes, m: Map, k: int, j: nat) {
    && Sized(S, m) && 1 <= j <= m.max && Covers(m.bound[S.home(k)], j)
    && m.entries[S.at(k, j)].Full? && m.entries[S.at(k, j)].item.key == k
    && NoGap(S, m, k, j) && FirstAt(S, k, j)
  }

  /** The entry of slot s is the one the view knows of, or the older copy. */
  ghost predicate Known(v: View, s: nat) {
    && s < |v.m.entries| && v.m.entries[s].Full?
    && var k := v.m.entries[s].item.key;
    k in v.D && (s == v.S.at(k, v.D[k]) || (v.dup.Dup? && v.dup.key == k && s == v.S.at(k, v.dup.idx)))
  }

  ghost predicate Good(v: View) {
    && Sized(v.S, v.m)
    && (forall k {:trigger Loc(v.S, v.m, k, v.D[k])} :: k in v.D ==> Loc(v.S, v.m, k, v.D[k]))
    && (forall s: nat {:trigger Known(v, s)} ::
          s < |v.m.entries| && v.m.entries[s].Full? ==> Known(v, s))
    && (v.dup.Dup? ==>
          && v.dup.key in v.D && Loc(v.S, v.m, v.dup.key, v.dup.idx) && v.D[v.dup.key] < v.dup.idx
          && v.S.at(v.dup.key, v.dup.idx) != v.S.at(v.dup.key, v.D[v.dup.key]))
    && (forall i :: 0 <= i < |v.m.bound| ==> v.m.bound[i] <= WORD_MAX)
  }

  // ---- The stores of the writer --------------------------------------------------------------------

  datatype Store =
    | SetMax(n: nat)
    | SetBound(i: nat, n: nat)
    | Insert(slot: nat, item: Item, j: nat)   // a key that was not held
    | Replace(slot: nat, item: Item)          // the object of a key, in place
    | Copy(slot: nat, item: Item, j: nat)     // an earlier copy of a key
    | Signal(g: nat)                          // the generation counter
    | Kill(slot: nat)                         // the older copy
    | Remove(slot: nat, key: int)

  function Put(m: Map, s: nat, e: Entry): Map {
    if s < |m.entries| then m.(entries := m.entries[s := e]) else m
  }

  /** What a store does to the words of the map. */
  function Write(m: Map, st: Store): Map {
    match st
    case SetMax(n) => m.(max := n)
    case SetBound(i, n) => if i < |m.bound| then m.(bound := m.bound[i := n]) else m
    case Insert(s, item, _) => Put(m, s, Full(item))
    case Replace(s, item) => Put(m, s, Full(item))
    case Copy(s, item, _) => Put(m, s, Full(item))
    case Signal(g) => if g < |m.gen| then m.(gen := m.gen[g := m.gen[g] + 1]) else m
    case Kill(s) => Put(m, s, Tomb)
    case Remove(s, _) => Put(m, s, Tomb)
  }

  function Do(v: View, st: Store): View {
    var v := v.(m := Write(v.m, st));
    match st
    case Insert(_, item, j) => v.(D := v.D[item.key := j])
    case Copy(_, item, j) =>
      if item.key in v.D then v.(D := v.D[item.key := j], dup := Dup(item.key, v.D[item.key], false)) else v
    case Signal(g) =>
      if v.dup.Dup? && v.S.lane(v.dup.key) == g then v.(dup := v.dup.(told := true)) else v
    case Kill(_) => v.(dup := NoDup)
    case Remove(_, k) => v.(D := v.D - {k})
    case _ => v
  }

  /** Room for key k at probe j. */
  ghost predicate Fits(S: Probes, m: Map, k: int, j: nat, s: nat) {
    Sized(S, m) && 1 <= j && s == S.at(k, j) && NoGap(S, m, k, j) && FirstAt(S, k, j)
  }

  /** The discipline of the writer: a key is copied to an earlier tombstone, its generation is bumped,
      and only then is the older copy deleted; bounds change only while there is no older copy. */
  ghost predicate Ok(v: View, st: Store) {
    match st
    case SetMax(n) => v.dup.NoDup? && forall k :: k in v.D ==> v.D[k] <= n
    case SetBound(i, n) =>
      v.dup.NoDup? && n <= WORD_MAX && forall k :: k in v.D && v.S.home(k) == i ==> Covers(n, v.D[k])
    case Insert(s, item, j) =>
      && v.dup.NoDup? && item.key !in v.D && Fits(v.S, v.m, item.key, j, s) && !v.m.entries[s].Full?
      && j <= v.m.max && Covers(v.m.bound[v.S.home(item.key)], j)
    case Replace(s, item) => v.dup.NoDup? && item.key in v.D && s == v.S.at(item.key, v.D[item.key])
    case Copy(s, item, j) =>
      && v.dup.NoDup? && item.key in v.D && Fits(v.S, v.m, item.key, j, s) && v.m.entries[s].Tomb?
      && j < v.D[item.key]
    case Signal(g) => g < 2
    case Kill(s) => v.dup.Dup? && v.dup.told && s == v.S.at(v.dup.key, v.dup.idx)
    case Remove(s, k) => v.dup.NoDup? && k in v.D && s == v.S.at(k, v.D[k])
  }

  // ---- The invariant -----------------------------------------------------------------------------------

  lemma NoGapPut(S: Probes, m: Map, k: int, j: nat, s: nat, e: Entry)
    requires NoGap(S, m, k, j) && !e.Empty?
    ensures NoGap(S, Put(m, s, e), k, j)
  {
    forall p: nat | 1 <= p < j ensures Used(S, Put(m, s, e), S.at(k, p)) {
      assert Used(S, m, S.at(k, p));
    }
  }

  /** A key stays where it is when another slot is written. */
  lemma LocPut(S: Probes, m: Map, k: int, j: nat, s: nat, e: Entry)
    requires Loc(S, m, k, j) && !e.Empty? && (s == S.at(k, j) ==> e.Full? && e.item.key == k)
    ensures Loc(S, Put(m, s, e), k, j)
  {
    NoGapPut(S, m, k, j, s, e);
  }

  lemma LocOther(S: Probes, m: Map, m': Map, k: int, j: nat)
    requires Loc(S, m, k, j) && m'.entries == m.entries && Sized(S, m')
    requires j <= m'.max && Covers(m'.bound[S.home(k)], j)
    ensures Loc(S, m', k, j)
  {
    forall p: nat | 1 <= p < j ensures Used(S, m', S.at(k, p)) {
      assert Used(S, m, S.at(k, p));
    }
  }

  lemma BoundsGood(v: View, st: Store)
    requires Good(v) && Ok(v, st) && (st.SetMax? || st.SetBound? || st.Signal?)
    ensures Good(Do(v, st))
  {
    var v' := Do(v, st);
    forall k | k in v'.D ensures Loc(v'.S, v'.m, k, v'.D[k]) {
      assert Loc(v.S, v.m, k, v.D[k]);
      LocOther(v.S, v.m, v'.m, k, v.D[k]);
    }
    forall s: nat | s < |v'.m.entries| && v'.m.entries[s].Full? ensures Known(v', s) {
      assert Known(v, s);
    }
    if v.dup.Dup? { LocOther(v.S, v.m, v'.m, v.dup.key, v.dup.idx); }
  }

  /** The keys other than the written one keep their places. */
  lemma OthersStay(v: View, k: int, s: nat, e: Entry, k': int)
    requires Good(v) && v.dup.NoDup? && k' in v.D && k' != k && !e.Empty?
    requires s < |v.m.entries| && (v.m.entries[s].Full? ==> v.m.entries[s].item.key == k)
    ensures Loc(v.S, Put(v.m, s, e), k', v.D[k'])
  {
    assert Loc(v.S, v.m, k', v.D[k']);
    LocPut(v.S, v.m, k', v.D[k'], s, e);
  }

  lemma InsertGood(v: View, st: Store)
    requires Good(v) && st.Insert? && Ok(v, st)
    ensures Good(Do(v, st))
  {
    var v', k := Do(v, st), st.item.key;
    forall k' | k' in v'.D ensures Loc(v'.S, v'.m, k', v'.D[k']) {
      if k' == k { NoGapPut(v.S, v.m, k, st.j, st.slot, Full(st.item)); }
      else { OthersStay(v, k, st.slot, Full(st.item), k'); }
    }
    forall s: nat | s < |v'.m.entries| && v'.m.entries[s].Full? ensures Known(v', s) {
      if s != st.slot { assert Known(v, s); }
    }
  }

  lemma ReplaceGood(v: View, st: Store)
    requires Good(v) && st.Replace? && Ok(v, st)
    ensures Good(Do(v, st))
  {
    var v', k := Do(v, st), st.item.key;
    assert Loc(v.S, v.m, k, v.D[k]);
    forall k' | k' in v'.D ensures Loc(v'.S, v'.m, k', v'.D[k']) {
      assert Loc(v.S, v.m, k', v.D[k']);
      LocPut(v.S, v.m, k', v.D[k'], st.slot, Full(st.item));
    }
    forall s: nat | s < |v'.m.entries| && v'.m.entries[s].Full? ensures Known(v', s) {
      if s != st.slot { assert Known(v, s); }
    }
  }

  lemma CopyGood(v: View, st: Store)
    requires Good(v) && st.Copy? && Ok(v, st)
    ensures Good(Do(v, st))
  {
    var v', k, e := Do(v, st), st.item.key, Full(st.item);
    assert Loc(v.S, v.m, k, v.D[k]);
    LocPut(v.S, v.m, k, v.D[k], st.slot, e);
    NoGapPut(v.S, v.m, k, st.j, st.slot, e);
    forall k' | k' in v'.D ensures Loc(v'.S, v'.m, k', v'.D[k']) {
      if k' != k { OthersStay(v, k, st.slot, e, k'); }
    }
    forall s: nat | s < |v'.m.entries| && v'.m.entries[s].Full? ensures Known(v', s) {
      if s != st.slot { assert Known(v, s); }
    }
  }

  lemma KillGood(v: View, st: Store)
    requires Good(v) && st.Kill? && Ok(v, st)
    ensures Good(Do(v, st))
  {
    var v' := Do(v, st);
    forall k | k in v'.D ensures Loc(v'.S, v'.m, k, v'.D[k]) {
      assert Loc(v.S, v.m, k, v.D[k]);
      LocPut(v.S, v.m, k, v.D[k], st.slot, Tomb);
    }
    forall s: nat | s < |v'.m.entries| && v'.m.entries[s].Full? ensures Known(v', s) {
      assert Known(v, s);
    }
  }

  lemma RemoveGood(v: View, st: Store)
    requires Good(v) && st.Remove? && Ok(v, st)
    ensures Good(Do(v, st))
  {
    var v', k := Do(v, st), st.key;
    assert Loc(v.S, v.m, k, v.D[k]);
    forall k' | k' in v'.D ensures Loc(v'.S, v'.m, k', v'.D[k']) {
      OthersStay(v, k, st.slot, Tomb, k');
    }
    forall s: nat | s < |v'.m.entries| && v'.m.entries[s].Full? ensures Known(v', s) {
      assert Known(v, s);
    }
  }

  /** Every store of a disciplined writer leaves every key findable. */
  lemma StoreGood(v: View, st: Store)
    requires Good(v) && Ok(v, st)
    ensures Good(Do(v, st))
  {
    match st
    case Insert(_, _, _) => InsertGood(v, st);
    case Replace(_, _) => ReplaceGood(v, st);
    case Copy(_, _, _) => CopyGood(v, st);
    case Kill(_) => KillGood(v, st);
    case Remove(_, _) => RemoveGood(v, st);
    case _ => BoundsGood(v, st);
  }
}
