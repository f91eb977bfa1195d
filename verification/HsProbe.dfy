/** The probe sequence of the SPMC hash set, and searches along it. */
module HsProbe {
  import opened Internal
  import opened HsViews

  /** Slots in a cache line. */
  const LINE := 8

  /** The hash without its lowest bits, one more than the capacity has, shifted down by one more at each level. The
      bit of weight eight is always clear. */
  function Stride(cap: nat, h: nat, level: nat): nat
    requires cap > 0
  {
    var r := h / (2 * cap) / Pow2(level);
    r / LINE * (2 * LINE) + r % LINE
  }

  /** From the line probed at `level` to the next one, after so many probes. */
  function NextOffset(cap: nat, offset: nat, h: nat, level: nat, probes: nat): nat
    requires cap > 0
  {
    (offset + probes / LINE + (Stride(cap, h, level) + LINE)) % cap
  }

  function Offset(cap: nat, h: nat, level: nat): nat
    requires cap > 0
  {
    if level == 0 then h % cap else NextOffset(cap, Offset(cap, h, level - 1), h, level - 1, LINE * level)
  }

  /** The slots of a line in turn, starting from the offset. */
  function Cursor(offset: nat, j: nat): nat { offset / LINE * LINE + (j + offset) % LINE }

  /** The slot of probe p >= 1 of hash h. */
  function Slot(cap: nat, h: nat, p: nat): nat
    requires cap > 0
  {
    if p == 0 then 0 else Cursor(Offset(cap, h, (p - 1) / LINE), (p - 1) % LINE)
  }

  /** S holds the sequences of a map of capacity cap with hash function hf. */
  ghost predicate Tracks(S: Probes, hf: int -> nat, cap: nat) {
    && Capacity(cap) && cap > 0 && S.cap == cap && Ranged(S)
    && (forall k: int {:trigger hf(k)} :: S.home(k) == hf(k) % cap && S.lane(k) == hf(k) % 2)
    && (forall k: int, p: nat {:trigger Slot(cap, hf(k), p)} :: S.at(k, p) == Slot(cap, hf(k), p))
  }

  ghost function ProbesOf(hf: int -> nat, cap: nat): Probes
    requires cap > 0
  {
    Probes(cap, k => hf(k) % cap, k => hf(k) % 2, (k, p) => Slot(cap, hf(k), p))
  }

  lemma CursorInRange(cap: nat, lines: nat, offset: nat, j: nat)
    requires cap == LINE * lines && offset < cap
    ensures Cursor(offset, j) < cap
  {
    assert offset / LINE < lines;
  }

  lemma {:induction false} EightLines(k: nat) returns (lines: nat)
    requires k >= 3
    ensures Pow2(k) == LINE * lines && Pow2(k) > 0
  {
    assert Pow2(k) == 2 * Pow2(k - 1) && Pow2(k - 1) == 2 * Pow2(k - 2);
    assert Pow2(k - 2) == 2 * Pow2(k - 3);
    lines := Pow2(k - 3);
  }

  lemma ProbesTrack(hf: int -> nat, cap: nat)
    requires Capacity(cap)
    ensures cap > 0 && Tracks(ProbesOf(hf, cap), hf, cap)
  {
    var k: nat :| k >= 3 && cap == Pow2(k);
    var lines := EightLines(k);
    forall k: int, p: nat ensures Slot(cap, hf(k), p) < cap {
      if p > 0 { CursorInRange(cap, lines, Offset(cap, hf(k), (p - 1) / LINE), (p - 1) % LINE); }
    }
  }

  /** A position in the sequence of a key: the line, its level and the slot within the line. */
  datatype Walk = Walk(offset: nat, level: nat, j: nat)

  /** The walk stands at probe p. */
  ghost predicate StandsAt(hf: int -> nat, cap: nat, key: int, w: Walk, p: nat) {
    && cap > 0 && w.j < LINE && p == LINE * w.level + w.j + 1
    && forall l: nat {:trigger Offset(cap, hf(key), l)} :: l == w.level ==> w.offset == Offset(cap, hf(key), l)
  }

  method Start(ghost S: Probes, hf: int -> nat, cap: nat, key: int) returns (w: Walk, cursor: nat)
    requires Tracks(S, hf, cap)
    ensures StandsAt(hf, cap, key, w, 1) && cursor == S.at(key, 1)
  {
    w := Walk(hf(key) % cap, 0, 0);
    cursor := Cursor(w.offset, 0);
    assert Slot(cap, hf(key), 1) == cursor;
  }

  method Next(ghost S: Probes, hf: int -> nat, cap: nat, key: int, w: Walk, ghost p: nat)
    returns (w': Walk, cursor: nat)
    requires Tracks(S, hf, cap) && StandsAt(hf, cap, key, w, p)
    ensures StandsAt(hf, cap, key, w', p + 1) && cursor == S.at(key, p + 1)
  {
    if w.j + 1 < LINE {
      w' := w.(j := w.j + 1);
    } else {
      w' := Walk(NextOffset(cap, w.offset, hf(key), w.level, LINE * (w.level + 1)), w.level + 1, 0);
      assert w.offset == Offset(cap, hf(key), w.level);
    }
    cursor := Cursor(w'.offset, w'.j);
    Position(w'.level, w'.j);
    assert w'.offset == Offset(cap, hf(key), w'.level);
    assert Slot(cap, hf(key), p + 1) == cursor;
  }

  lemma Position(level: nat, j: nat)
    requires j < LINE
    ensures (LINE * level + j) / LINE == level && (LINE * level + j) % LINE == j
  {
  }

  // ---- Searching ---------------------------------------------------------------------------------------

  function BoundGet(b: nat, max: nat): nat { if b == WORD_MAX then max else b }

  /** The first p probes meet neither an empty slot nor the key. */
  ghost predicate Missed(S: Probes, m: Map, key: int, p: nat) {
    forall q: nat {:trigger S.at(key, q)} :: 1 <= q <= p ==>
      && Used(S, m, S.at(key, q))
      && (m.entries[S.at(key, q)].Full? ==> m.entries[S.at(key, q)].item.key != key)
  }

  /** None of the first p probes meets a tombstone. */
  ghost predicate NoTomb(S: Probes, m: Map, key: int, p: nat) {
    forall q: nat {:trigger S.at(key, q)} :: 1 <= q <= p ==>
      S.at(key, q) < |m.entries| && !m.entries[S.at(key, q)].Tomb?
  }

  lemma MissedMore(S: Probes, m: Map, key: int, p: nat)
    requires Missed(S, m, key, p) && Used(S, m, S.at(key, p + 1))
    requires var e := m.entries[S.at(key, p + 1)]; e.Full? ==> e.item.key != key
    ensures Missed(S, m, key, p + 1)
  {
  }

  /** A key missed up to an empty slot or to its bound is not held. */
  lemma NotHeld(v: View, key: int, p: nat)
    requires Good(v) && Missed(v.S, v.m, key, p)
    ensures key in v.D ==>
              Used(v.S, v.m, v.S.at(key, p + 1)) && p < BoundGet(v.m.bound[v.S.home(key)], v.m.max)
  {
    if key in v.D {
      assert Loc(v.S, v.m, key, v.D[key]);
      assert Used(v.S, v.m, v.S.at(key, v.D[key]));
    }
  }

  /** The probe that meets the key is the one the view knows. */
  lemma IsHeld(v: View, key: int, p: nat)
    requires Good(v) && v.dup.NoDup? && p >= 1 && Missed(v.S, v.m, key, p - 1)
    requires var e := v.m.entries[v.S.at(key, p)]; e.Full? && e.item.key == key
    ensures key in v.D && v.D[key] == p
  {
    assert Known(v, v.S.at(key, p));
    assert Loc(v.S, v.m, key, v.D[key]);
    assert v.S.at(key, v.D[key]) == v.S.at(key, p);
  }

  /** The first tombstone or empty slot of a sequence has room for the key. */
  lemma HasRoom(S: Probes, m: Map, key: int, n: nat, p: nat)
    requires Sized(S, m) && 1 <= n <= p + 1 && Missed(S, m, key, p)
    requires var e := m.entries[S.at(key, n)]; e.Empty? || (e.Tomb? && NoTomb(S, m, key, n - 1))
    ensures Fits(S, m, key, n, S.at(key, n))
  {
    forall q: nat | 1 <= q < n ensures Used(S, m, S.at(key, q)) {}
  }

  /** One of the first n probes of the key meets a slot that holds no entry. */
  ghost predicate HasRoomWithin(S: Probes, m: Map, key: int, n: nat) {
    exists p: nat {:trigger S.at(key, p)} ::
      1 <= p <= n && S.at(key, p) < |m.entries| && !m.entries[S.at(key, p)].Full?
  }

  /** What a search finds: the slot of the key, the first tombstone before it, room for it; no tombstone
      comes before probe n. */
  ghost predicate Answer(v: View, key: int, limit: nat, slot: int, first: int, n: nat, found: Entry) {
    && !found.Tomb? && (found.Full? <==> key in v.D)
    && (found.Full? ==> slot == v.S.at(key, v.D[key]) && slot < |v.m.entries| && found == v.m.entries[slot]
                        && (first == -1 ==> n == v.D[key]) && (first != -1 ==> n < v.D[key]) && n <= limit)
    && (found.Full? || first != -1 ==> n >= 1 && NoTomb(v.S, v.m, key, n - 1))
    && (first != -1 ==> first >= 0 && n <= limit && Fits(v.S, v.m, key, n, first) && v.m.entries[first].Tomb?)
    && (found.Empty? && first == -1 && slot != -1 ==>
          slot >= 0 && n >= 1 && n <= limit && Fits(v.S, v.m, key, n, slot) && v.m.entries[slot].Empty?
          && NoTomb(v.S, v.m, key, n - 1))
    && (slot == -1 && first == -1 ==> !HasRoomWithin(v.S, v.m, key, limit))
  }

  /** The search met neither the key nor an empty slot. */
  lemma NoAnswer(v: View, key: int, limit: nat, first: int, n: nat, p: nat)
    requires Good(v) && Missed(v.S, v.m, key, p) && p <= limit && BoundGet(v.m.bound[v.S.home(key)], v.m.max) <= p
    requires if first != -1 then Reusable(v, key, first, n, p) else p == limit && NoTomb(v.S, v.m, key, p)
    ensures Answer(v, key, limit, -1, first, n, Empty)
  {
    NotHeld(v, key, p);
    if first != -1 { HasRoom(v.S, v.m, key, n, p); }
  }

  /** The search ended at an empty slot. */
  lemma EmptyAnswer(v: View, key: int, limit: nat, first: int, n: nat, p: nat)
    requires Good(v) && Missed(v.S, v.m, key, p) && p + 1 <= limit && v.m.entries[v.S.at(key, p + 1)].Empty?
    requires if first != -1 then Reusable(v, key, first, n, p) else n == p + 1 && NoTomb(v.S, v.m, key, p)
    ensures Answer(v, key, limit, v.S.at(key, p + 1), first, n, Empty)
  {
    NotHeld(v, key, p);
    HasRoom(v.S, v.m, key, n, p);
  }

  /** The search ended at the key. */
  lemma FoundAnswer(v: View, key: int, limit: nat, first: int, n: nat, p: nat)
    requires Good(v) && v.dup.NoDup? && Missed(v.S, v.m, key, p) && p + 1 <= limit
    requires var e := v.m.entries[v.S.at(key, p + 1)]; e.Full? && e.item.key == key
    requires if first != -1 then Reusable(v, key, first, n, p) else n == p + 1 && NoTomb(v.S, v.m, key, p)
    ensures Answer(v, key, limit, v.S.at(key, p + 1), first, n, v.m.entries[v.S.at(key, p + 1)])
  {
    IsHeld(v, key, p + 1);
    if first != -1 { HasRoom(v.S, v.m, key, n, p); }
  }

  /** Slot `first` is the first tombstone, at probe n of those up to p. */
  ghost predicate Reusable(v: View, key: int, first: int, n: nat, p: nat) {
    && Sized(v.S, v.m) && 1 <= n <= p && first == v.S.at(key, n) && NoTomb(v.S, v.m, key, n - 1)
    && v.m.entries[v.S.at(key, n)].Tomb?
  }

  /** After p probes neither the key nor an empty slot has been met; `first` is the first tombstone, if any. */
  ghost predicate Looking(v: View, key: int, first: int, n: nat, p: nat) {
    && Missed(v.S, v.m, key, p)
    && if first == -1 then NoTomb(v.S, v.m, key, p) else Reusable(v, key, first, n, p)
  }

  /** One probe, after p of them. */
  method ProbeSlot(m: Map, key: int, ghost limit: nat, cursor: nat, p: nat, first: int, n: nat, ghost v: View)
    returns (done: bool, first': int, n': nat, found: Entry)
    requires Good(v) && v.dup.NoDup? && v.m == m && Looking(v, key, first, n, p) && p < limit
    requires cursor == v.S.at(key, p + 1) && cursor < |m.entries|
    ensures done ==> Answer(v, key, limit, cursor, first', n', found)
    ensures !done ==> Looking(v, key, first', n', p + 1)
  {
    first', n', found := first, if first == -1 then p + 1 else n, m.entries[cursor];
    if found.Empty? {
      EmptyAnswer(v, key, limit, first', n', p);
      done := true;
    } else if found.Full? && found.item.key == key {
      FoundAnswer(v, key, limit, first', n', p);
      done := true;
    } else {
      if found.Tomb? && first == -1 {
        first' := cursor;
      }
      MissedMore(v.S, m, key, p);
      done := false;
    }
  }

  /** Looks for the key within the limit, or, for an insertion, within the bound of its home and, as
      long as no tombstone was met, on to the limit. */
  method Probe(hf: int -> nat, m: Map, key: int, limit: nat, insert: bool, ghost v: View)
    returns (slot: int, first: int, n: nat, found: Entry)
    requires Good(v) && v.dup.NoDup? && v.m == m && Tracks(v.S, hf, |m.entries|)
    requires BoundGet(m.bound[v.S.home(key)], m.max) <= limit
    ensures Answer(v, key, limit, slot, first, n, found)
  {
    var cap := |m.entries|;
    var bound := BoundGet(m.bound[hf(key) % cap], m.max);
    var probeLimit := if insert then bound else limit;
    var w, cursor := Start(v.S, hf, cap, key);
    var probes := 0;
    first, n := -1, 0;
    while true
      invariant StandsAt(hf, cap, key, w, probes + 1) && cursor == v.S.at(key, probes + 1)
      invariant probes <= probeLimit <= limit && (probeLimit == limit || (probeLimit == bound && insert))
      invariant Looking(v, key, first, n, probes)
      decreases limit - probes
    {
      if probes == probeLimit {
        if probeLimit == limit || first != -1 {
          n := if first == -1 then probes + 1 else n;
          NoAnswer(v, key, limit, first, n, probes);
          return -1, first, n, Empty;
        }
        probeLimit := limit;
      }
      var done;
      done, first, n, found := ProbeSlot(m, key, limit, cursor, probes, first, n, v);
      if done {
        return cursor, first, n, found;
      }
      probes := probes + 1;
      w, cursor := Next(v.S, hf, cap, key, w, probes);
    }
  }
}
