/**
 More records than a reclamation's array has room for. ck_hp_member_cache goes on to the end of the
 record list whatever fits, and so always reports that nothing was left out: with one hazard pointer
 per record, CACHE records is as far as the reclamation can be trusted.
 */
module HpOverflow {
  import opened HpStack

  /** Every snapshot is within its array, and every entry that a pop relies on is alive. */
  ghost predicate Sound(s: State) {
    && (forall t: nat {:trigger s.recs[t]} :: t < |s.recs| && Scanning(s.recs[t]) ==>
          |s.recs[t].pc.cache| <= CACHE)
    && (forall t: nat {:trigger s.recs[t]} :: t < |s.recs| && Popping(s.recs[t]) ==>
          Live(s.nodes, s.recs[t].pc.x))
  }

  lemma FewRecordsSound(n: nat, evs: seq<Event>)
    requires |Run(n, evs).recs| <= CACHE
    ensures Sound(Run(n, evs))
  {
    RunInv(n, evs);
    var s := Run(n, evs);
    forall t: nat | t < |s.recs| ensures RecOk(s.nodes, t, s.recs[t]) && CacheOk(|s.recs|, s.recs[t]) {
    }
  }

  // ---- Building a schedule -----------------------------------------------------------------------

  ghost predicate Reaches(n: nat, evs: seq<Event>, s: State) { Run(n, evs) == s }

  lemma Extend(n: nat, evs: seq<Event>, s: State, ev: Event, s': State)
    requires Reaches(n, evs, s) && Step(s, ev) == s'
    ensures Reaches(n, evs + [ev], s')
  {
    assert (evs + [ev])[..|evs|] == evs;
  }

  /** A record whose pop has published the entry y and not yet checked the head again. */
  function Waiter(y: int): Rec { Rec(true, y, Check(y, First), []) }

  function Crowd(k: nat, y: int): (q: seq<Rec>)
    ensures |q| == k && forall i :: 0 <= i < k ==> q[i] == Waiter(y)
  {
    if k == 0 then [] else Crowd(k - 1, y) + [Waiter(y)]
  }

  /** A new record starts to pop the entry on top. */
  lemma Join(n: nat, pre: seq<Event>, s: State) returns (evs: seq<Event>)
    requires Reaches(n, pre, s) && s.head >= 0
    ensures Reaches(n, evs, s.(recs := s.recs + [Waiter(s.head)]))
  {
    var t := |s.recs|;
    var r := Rec(true, -1, Idle, []);
    evs := pre;
    var s1 := s.(recs := s.recs + [r]);
    Extend(n, evs, s, Register, s1);
    evs := evs + [Register];
    var s2 := s.(recs := s.recs + [r.(pc := Load)]);
    assert SetPC(s1, t, Load) == s2;
    Extend(n, evs, s1, Pop(t), s2);
    evs := evs + [Pop(t)];
    var s3 := s.(recs := s.recs + [r.(pc := Guard(s.head, First))]);
    assert SetPC(s2, t, Guard(s.head, First)) == s3;
    Extend(n, evs, s2, Go(t), s3);
    evs := evs + [Go(t)];
    var s4 := s.(recs := s.recs + [Waiter(s.head)]);
    assert SetRec(s3, t, Waiter(s.head)) == s4;
    Extend(n, evs, s3, Go(t), s4);
    evs := evs + [Go(t)];
  }

  lemma {:induction false} Gather(n: nat, pre: seq<Event>, s: State, k: nat) returns (evs: seq<Event>)
    requires Reaches(n, pre, s) && s.head >= 0
    ensures Reaches(n, evs, s.(recs := s.recs + Crowd(k, s.head)))
  {
    if k == 0 {
      evs := pre;
      assert s.recs + [] == s.recs;
    } else {
      var front := Gather(n, pre, s, k - 1);
      var s' := s.(recs := s.recs + Crowd(k - 1, s.head));
      evs := Join(n, front, s');
      assert s'.recs + [Waiter(s.head)] == s.recs + Crowd(k, s.head);
    }
  }

  /** A snapshot of k copies of one pointer. */
  function Fill(k: nat, y: int): (c: seq<int>)
    ensures |c| == k && forall x :: x in c ==> x == y
  {
    if k == 0 then [] else Fill(k - 1, y) + [y]
  }

  /** What the snapshot holds after k more records that publish y. */
  function Filled(c: nat, k: nat): nat
    requires c <= CACHE + 1
  {
    if c + k <= CACHE + 1 then c + k else CACHE + 1
  }

  /** Thread t has come to record i and copied c times y. */
  function Looking(s: State, t: nat, i: nat, c: nat, y: int): State
    requires t < |s.recs|
  {
    SetPC(s, t, Scan(i, Fill(c, y)))
  }

  lemma LookingTwice(s: State, t: nat, i: nat, c: nat, i': nat, c': nat, y: int)
    requires t < |s.recs|
    ensures Looking(Looking(s, t, i, c, y), t, i', c', y) == Looking(s, t, i', c', y)
  {
  }

  /** Looking at one record that publishes y, as far as there is room. */
  lemma ScanOne(n: nat, pre: seq<Event>, s: State, t: nat, i: nat, c: nat, y: int)
    returns (evs: seq<Event>)
    requires t < i - 1 < |s.recs| && s.recs[i - 1] == Waiter(y) && y >= 0
    requires c <= CACHE + 1 && Reaches(n, pre, Looking(s, t, i, c, y))
    ensures Reaches(n, evs, Looking(s, t, i - 1, Filled(c, 1), y))
  {
    var s0 := Looking(s, t, i, c, y);
    var s2 := Looking(s, t, i - 1, Filled(c, 1), y);
    LookingTwice(s, t, i, c, i - 1, Filled(c, 1), y);
    evs := pre;
    if c <= CACHE {
      var s1 := SetPC(s, t, Peek(i, Fill(c, y)));
      assert SetPC(s0, t, s1.recs[t].pc) == s1 && SetPC(s1, t, s2.recs[t].pc) == s2;
      Extend(n, evs, s0, Go(t), s1);
      evs := evs + [Go(t)];
      Extend(n, evs, s1, Go(t), s2);
    } else {
      Extend(n, evs, s0, Go(t), s2);
    }
    evs := evs + [Go(t)];
  }

  /** Looking at records b to m - 1, all of which publish y. */
  lemma {:induction false} ScanCrowd(n: nat, pre: seq<Event>, s: State, t: nat, b: nat, m: nat, c: nat, d: nat, y: int)
    returns (evs: seq<Event>)
    requires t < b <= m <= |s.recs| && y >= 0 && c <= CACHE + 1 && d == Filled(c, m - b)
    requires forall j :: b <= j < m ==> s.recs[j] == Waiter(y)
    requires Reaches(n, pre, Looking(s, t, m, c, y))
    ensures Reaches(n, evs, Looking(s, t, b, d, y))
    decreases m
  {
    if m == b {
      evs := pre;
    } else {
      evs := ScanOne(n, pre, s, t, m, c, y);
      evs := ScanCrowd(n, evs, s, t, b, m - 1, Filled(c, 1), d, y);
    }
  }

  lemma ReclaimMove(n: nat, pre: seq<Event>, s: State, t: nat, y: int)
    requires Reaches(n, pre, s) && Ready(s, t)
    ensures Reaches(n, pre + [Reclaim(t)], Looking(s, t, |s.recs|, 0, y))
  {
    Extend(n, pre, s, Reclaim(t), Looking(s, t, |s.recs|, 0, y));
  }

  /** A crowd of k gathers, and record t of the others reclaims. */
  lemma Snapshot(n: nat, pre: seq<Event>, s: State, t: nat, k: nat) returns (evs: seq<Event>)
    requires Reaches(n, pre, s) && s.head >= 0 && Ready(s, t)
    ensures Reaches(n, evs, Looking(s.(recs := s.recs + Crowd(k, s.head)), t, |s.recs|,
                                    Filled(0, k), s.head))
  {
    evs := Gather(n, pre, s, k);
    var s1 := s.(recs := s.recs + Crowd(k, s.head));
    ReclaimMove(n, evs, s1, t, s.head);
    evs := evs + [Reclaim(t)];
    evs := ScanCrowd(n, evs, s1, t, |s.recs|, |s.recs| + k, 0, Filled(0, k), s.head);
  }

  // ---- Too many records --------------------------------------------------------------------------

  /** Records 0 and 1, and two entries that link to nothing. */
  function Two(a: Rec, b: Rec, head: int, x: Status, y: Status, st: seq<nat>): State {
    State(head, [Node(-1, x), Node(-1, y)], [a, b], st)
  }

  const NEW: Rec := Rec(true, -1, Idle, [])

  /** Record 0 has verified entry 0 and relies on it. */
  const HOLDER: Rec := Rec(true, 0, Next(0), [])

  lemma Registered() returns (evs: seq<Event>)
    ensures Reaches(2, evs, Two(NEW, NEW, -1, Free, Free, []))
  {
    evs := [];
    var s1 := State(-1, [Node(-1, Free), Node(-1, Free)], [NEW], []);
    assert Init(2).nodes == s1.nodes;
    Extend(2, evs, Init(2), Register, s1);
    evs := evs + [Register];
    Extend(2, evs, s1, Register, Two(NEW, NEW, -1, Free, Free, []));
    evs := evs + [Register];
  }

  /** Record 1 pushes entry 0. */
  lemma Pushed() returns (evs: seq<Event>)
    ensures Reaches(2, evs, Two(NEW, NEW, 0, Stacked, Free, [0]))
  {
    evs := Registered();
    Extend(2, evs, Two(NEW, NEW, -1, Free, Free, []), Alloc(1, 0), Two(NEW, NEW, -1, Owned(1), Free, []));
    evs := evs + [Alloc(1, 0)];
    var b1, b2 := NEW.(pc := PushLink(0, -1)), NEW.(pc := PushCas(0, -1));
    Extend(2, evs, Two(NEW, NEW, -1, Owned(1), Free, []), Push(1, 0), Two(NEW, b1, -1, Owned(1), Free, []));
    evs := evs + [Push(1, 0)];
    Extend(2, evs, Two(NEW, b1, -1, Owned(1), Free, []), Go(1), Two(NEW, b2, -1, Owned(1), Free, []));
    evs := evs + [Go(1)];
    Extend(2, evs, Two(NEW, b2, -1, Owned(1), Free, []), Go(1), Two(NEW, NEW, 0, Stacked, Free, [0]));
    evs := evs + [Go(1)];
  }

  /** Record 0 starts to pop it. */
  lemma Held(pre: seq<Event>) returns (evs: seq<Event>)
    requires Reaches(2, pre, Two(NEW, NEW, 0, Stacked, Free, [0]))
    ensures Reaches(2, evs, Two(HOLDER, NEW, 0, Stacked, Free, [0]))
  {
    evs := pre;
    var a1, a2, a3 := NEW.(pc := Load), NEW.(pc := Guard(0, First)), Waiter(0);
    Extend(2, evs, Two(NEW, NEW, 0, Stacked, Free, [0]), Pop(0), Two(a1, NEW, 0, Stacked, Free, [0]));
    evs := evs + [Pop(0)];
    Extend(2, evs, Two(a1, NEW, 0, Stacked, Free, [0]), Go(0), Two(a2, NEW, 0, Stacked, Free, [0]));
    evs := evs + [Go(0)];
    Extend(2, evs, Two(a2, NEW, 0, Stacked, Free, [0]), Go(0), Two(a3, NEW, 0, Stacked, Free, [0]));
    evs := evs + [Go(0)];
    Extend(2, evs, Two(a3, NEW, 0, Stacked, Free, [0]), Go(0), Two(HOLDER, NEW, 0, Stacked, Free, [0]));
    evs := evs + [Go(0)];
  }

  const POPPED: Rec := Rec(true, 0, Idle, [])

  /** Record 1 pops it. */
  lemma Popped(pre: seq<Event>) returns (evs: seq<Event>)
    requires Reaches(2, pre, Two(HOLDER, NEW, 0, Stacked, Free, [0]))
    ensures Reaches(2, evs, Two(HOLDER, POPPED, -1, Out(1), Free, []))
  {
    evs := pre;
    var b1, b2, b3 := NEW.(pc := Load), NEW.(pc := Guard(0, First)), Waiter(0);
    var h, b4 := HOLDER, POPPED.(pc := Cas(0, -1));
    Extend(2, evs, Two(h, NEW, 0, Stacked, Free, [0]), Pop(1), Two(h, b1, 0, Stacked, Free, [0]));
    evs := evs + [Pop(1)];
    Extend(2, evs, Two(h, b1, 0, Stacked, Free, [0]), Go(1), Two(h, b2, 0, Stacked, Free, [0]));
    evs := evs + [Go(1)];
    Extend(2, evs, Two(h, b2, 0, Stacked, Free, [0]), Go(1), Two(h, b3, 0, Stacked, Free, [0]));
    evs := evs + [Go(1)];
    Extend(2, evs, Two(h, b3, 0, Stacked, Free, [0]), Go(1), Two(h, h, 0, Stacked, Free, [0]));
    evs := evs + [Go(1)];
    Extend(2, evs, Two(h, h, 0, Stacked, Free, [0]), Go(1), Two(h, b4, 0, Stacked, Free, [0]));
    evs := evs + [Go(1)];
    Extend(2, evs, Two(h, b4, 0, Stacked, Free, [0]), Go(1), Two(h, POPPED, -1, Out(1), Free, []));
    evs := evs + [Go(1)];
  }

  /** Record 1 with entry 0 retired, its hazard pointer being p. */
  function Retirer(p: int): Rec { Rec(true, p, Idle, [0]) }

  function Staged(p: int): State { Two(HOLDER, Retirer(p), 1, Retired(1), Stacked, [1]) }

  /** Record 1 retires it and pushes entry 1. */
  lemma Stage() returns (evs: seq<Event>)
    ensures Reaches(2, evs, Staged(0))
  {
    evs := Pushed();
    evs := Held(evs);
    evs := Popped(evs);
    var h, b := HOLDER, Retirer(0);
    assert [0] + POPPED.pending == [0];
    Extend(2, evs, Two(h, POPPED, -1, Out(1), Free, []), Retire(1, 0), Two(h, b, -1, Retired(1), Free, []));
    evs := evs + [Retire(1, 0)];
    Extend(2, evs, Two(h, b, -1, Retired(1), Free, []), Alloc(1, 1), Two(h, b, -1, Retired(1), Owned(1), []));
    evs := evs + [Alloc(1, 1)];
    var b1, b2 := b.(pc := PushLink(1, -1)), b.(pc := PushCas(1, -1));
    Extend(2, evs, Two(h, b, -1, Retired(1), Owned(1), []), Push(1, 1), Two(h, b1, -1, Retired(1), Owned(1), []));
    evs := evs + [Push(1, 1)];
    Extend(2, evs, Two(h, b1, -1, Retired(1), Owned(1), []), Go(1), Two(h, b2, -1, Retired(1), Owned(1), []));
    evs := evs + [Go(1)];
    Extend(2, evs, Two(h, b2, -1, Retired(1), Owned(1), []), Go(1), Staged(0));
    evs := evs + [Go(1)];
  }

  /** With one record more than the array has room for, every record holding a pointer, a reclamation
      stores past the end of its array. */
  lemma ArrayOverrun() returns (evs: seq<Event>)
    ensures |Run(2, evs).recs| == CACHE + 1
    ensures Scanning(Run(2, evs).recs[1]) && |Run(2, evs).recs[1].pc.cache| == CACHE + 1
  {
    var k := CACHE - 1;
    evs := Stage();
    evs := Snapshot(2, evs, Staged(0), 1, k);
    var s := Staged(0).(recs := Staged(0).recs + Crowd(k, 1));
    evs := LookAt(evs, s, 2, Fill(k, 1));
    evs := LookAt(evs, s, 1, Fill(k, 1) + [0]);
    assert |Fill(k, 1) + [0] + [0]| == CACHE + 1;
  }

  /** Record 1 copies the hazard pointer of record i - 1, which is entry 0. */
  lemma LookAt(pre: seq<Event>, s: State, i: nat, cache: seq<int>) returns (evs: seq<Event>)
    requires 0 < i <= |s.recs| && 1 < |s.recs| && |cache| <= CACHE
    requires Reaches(2, pre, SetPC(s, 1, Scan(i, cache)))
    requires s.recs[i - 1].used && s.recs[i - 1].hz == 0
    ensures Reaches(2, evs, SetPC(s, 1, Scan(i - 1, cache + [0])))
  {
    var s0, s1, s2 := SetPC(s, 1, Scan(i, cache)), SetPC(s, 1, Peek(i, cache)), SetPC(s, 1, Scan(i - 1, cache + [0]));
    assert SetPC(s0, 1, s1.recs[1].pc) == s1 && SetPC(s1, 1, s2.recs[1].pc) == s2;
    evs := pre;
    Extend(2, evs, s0, Go(1), s1);
    evs := evs + [Go(1)];
    Extend(2, evs, s1, Go(1), s2);
    evs := evs + [Go(1)];
  }

  /** Record 1 passes over record i - 1, the array being full. */
  lemma PassOver(pre: seq<Event>, s: State, i: nat, cache: seq<int>) returns (evs: seq<Event>)
    requires 0 < i <= |s.recs| && 1 < |s.recs| && |cache| > CACHE
    requires Reaches(2, pre, SetPC(s, 1, Scan(i, cache)))
    ensures Reaches(2, evs, SetPC(s, 1, Scan(i - 1, cache)))
  {
    var s0, s1 := SetPC(s, 1, Scan(i, cache)), SetPC(s, 1, Scan(i - 1, cache));
    assert SetPC(s0, 1, s1.recs[1].pc) == s1;
    Extend(2, pre, s0, Go(1), s1);
    evs := pre + [Go(1)];
  }

  /** Record 1 destroys the one entry it has retired. */
  lemma Destroys(pre: seq<Event>, s: State, cache: seq<int>) returns (evs: seq<Event>)
    requires 1 < |s.recs| && 0 < |s.nodes| && s.recs[1].pending == [0] && 0 !in cache
    requires Reaches(2, pre, SetPC(s, 1, Scan(0, cache)))
    ensures Run(2, evs).nodes == s.nodes[0 := s.nodes[0].(status := Free)]
    ensures |Run(2, evs).recs| == |s.recs| && Run(2, evs).recs[0] == s.recs[0]
  {
    var s0, s1 := SetPC(s, 1, Scan(0, cache)), SetPC(s, 1, Sweep(0, cache));
    assert SetPC(s0, 1, s1.recs[1].pc) == s1;
    evs := pre;
    Extend(2, evs, s0, Go(1), s1);
    evs := evs + [Go(1)];
    Extend(2, evs, s1, Go(1), Advance(s1, 1));
    evs := evs + [Go(1)];
  }

  /** Even if that store did no harm: with CACHE + 1 newer records holding another entry, the entry
      that record 0 has verified and is about to read is destroyed. */
  lemma HeldDestroyed() returns (evs: seq<Event>)
    ensures |Run(2, evs).recs| == CACHE + 3
    ensures Run(2, evs).recs[0] == HOLDER && 0 < |Run(2, evs).nodes| && Run(2, evs).nodes[0].status == Free
  {
    var k := CACHE + 1;
    evs := Stage();
    Extend(2, evs, Staged(0), Clear(1), Staged(-1));
    evs := evs + [Clear(1)];
    evs := Snapshot(2, evs, Staged(-1), 1, k);
    var s := Staged(-1).(recs := Staged(-1).recs + Crowd(k, 1));
    evs := PassOver(evs, s, 2, Fill(k, 1));
    evs := PassOver(evs, s, 1, Fill(k, 1));
    evs := Destroys(evs, s, Fill(k, 1));
  }

  /** Reclamation is sound in every schedule of at most `count` records exactly if the array has room
      for them. */
  lemma RecordsExact(count: nat)
    ensures (forall n, evs :: |Run(n, evs).recs| <= count ==> Sound(Run(n, evs))) <==> count <= CACHE
  {
    if count <= CACHE {
      forall n, evs | |Run(n, evs).recs| <= count ensures Sound(Run(n, evs)) {
        FewRecordsSound(n, evs);
      }
    } else {
      var evs := ArrayOverrun();
      assert !Sound(Run(2, evs));
    }
  }
}
