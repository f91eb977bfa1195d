/**
 The one exit of synchronize that proves nothing.

 ck_epoch_scan clears its "active seen" flag even when it resumes in the middle of the list, so
 a first pass that had to resume can take the `active == false` break although a record before
 the resumption point is inside a section. The schedule below does that, and lets the barrier
 run a callback while a section older than its ck_epoch_call is open.
 */
module EpochCounterexample {
  import opened EpochModel
  import opened EpochInvariant
  import opened EpochSafety
  import opened EpochCallbacks

  /** Record 2 with its section open. */
  const INSIDE: Rec := OpenSection(FRESH_REC.(active := 1, epoch := 1), Plain, 1)

  /** Record 1, active but without a snapshot. */
  const SLOW: Rec := FRESH_REC.(active := 1, pc := BeginLoad(false))

  const LOADED: Rec := FRESH_REC.(active := 1, pc := BeginStore(false, 1))

  /** Record 1 once its section is over. */
  const OVER: Rec := FRESH_REC.(epoch := 1, serials := 1)

  /** Three records: record 0 will call the barrier. */
  lemma Registered() returns (evs: seq<Event>)
    ensures Reaches(evs, 3, State(1, [FRESH_REC, FRESH_REC, FRESH_REC]))
  {
    evs := [];
    Extend(evs, 0, INIT, Register, State(1, [FRESH_REC]));
    evs := evs + [Register];
    Extend(evs, 1, State(1, [FRESH_REC]), Register, State(1, [FRESH_REC, FRESH_REC]));
    evs := evs + [Register];
    Extend(evs, 2, State(1, [FRESH_REC, FRESH_REC]), Register,
           State(1, [FRESH_REC, FRESH_REC, FRESH_REC]));
    evs := evs + [Register];
  }

  /** A step of record r that leaves the global epoch alone. */
  lemma Move(evs: seq<Event>, n: nat, s: State, r: nat, op: Op, y: Rec, s': State)
    requires Reaches(evs, n, s) && r < |s.recs| && s.recs[r].used && !s.recs[r].pc.Idle?
    requires Continue(s, r) == Upd(s, r, y) && s' == Upd(s, r, y)
    ensures Reaches(evs + [Do(r, op)], n + 1, s')
  {
    Extend(evs, n, s, Do(r, op), s');
  }

  /** Record 2 opens a section; record 1 sets its active flag and stalls. */
  lemma Opened() returns (evs: seq<Event>)
    ensures Reaches(evs, 7, State(1, [FRESH_REC, SLOW, INSIDE]))
  {
    var x := FRESH_REC;
    evs := Registered();
    Extend(evs, 3, State(1, [x, x, x]), Do(2, Begin(false)), State(1, [x, x, SLOW]));
    evs := evs + [Do(2, Begin(false))];
    Move(evs, 4, State(1, [x, x, SLOW]), 2, Poll, LOADED, State(1, [x, x, LOADED]));
    evs := evs + [Do(2, Poll)];
    Move(evs, 5, State(1, [x, x, LOADED]), 2, Poll, INSIDE, State(1, [x, x, INSIDE]));
    evs := evs + [Do(2, Poll)];
    Extend(evs, 6, State(1, [x, x, INSIDE]), Do(1, Begin(false)), State(1, [x, SLOW, INSIDE]));
    evs := evs + [Do(1, Begin(false))];
  }

  const TARGET: Section := Section(2, 0)
  const THE_ENTRY: Entry := Entry(7, 1, {TARGET}, 7, map[])
  const THE_JOB: Job := Job(false, true, 1, 0, false, {TARGET}, 8)
  const RESUMED: Job := Job(false, true, 1, 0, true, {TARGET}, 8)

  /** Record 0 after its ck_epoch_call, at program counter `pc`. */
  function Caller(pc: PC): Rec { Deferred(FRESH_REC, THE_ENTRY).(pc := pc) }

  lemma Calling(pre: seq<Event>) returns (evs: seq<Event>)
    requires Reaches(pre, 7, State(1, [FRESH_REC, SLOW, INSIDE]))
    ensures Reaches(evs, 9, State(1, [Caller(Head(THE_JOB, 1)), SLOW, INSIDE])) && pre <= evs
    ensures Reaches(evs[..8], 8, State(1, [Caller(Idle), SLOW, INSIDE]))
  {
    var s := State(1, [FRESH_REC, SLOW, INSIDE]);
    var s1 := State(1, [Caller(Idle), SLOW, INSIDE]);
    assert AllOpen(s) == {TARGET} && AllOpen(s1) == {TARGET};
    evs := pre;
    Extend(evs, 7, s, Do(0, Call(7)), s1);
    evs := evs + [Do(0, Call(7))];
    ghost var called := evs;
    Extend(evs, 8, s1, Do(0, Synchronize(true)), State(1, [Caller(Head(THE_JOB, 1)), SLOW, INSIDE]));
    evs := evs + [Do(0, Synchronize(true))];
    assert evs[..8] == called;
  }

  /** Record 0 moves from program counter `pc` to `pc'`. */
  lemma CallerMoves(evs: seq<Event>, n: nat, pc: PC, pc': PC, x1: Rec)
    requires Reaches(evs, n, State(1, [Caller(pc), x1, INSIDE])) && !pc.Idle?
    requires Continue(State(1, [Caller(pc), x1, INSIDE]), 0) ==
             Upd(State(1, [Caller(pc), x1, INSIDE]), 0, Caller(pc'))
    ensures Reaches(evs + [Do(0, Poll)], n + 1, State(1, [Caller(pc'), x1, INSIDE]))
  {
    Move(evs, n, State(1, [Caller(pc), x1, INSIDE]), 0, Poll, Caller(pc'),
         State(1, [Caller(pc'), x1, INSIDE]));
  }

  /** Record 2 is active at the current epoch: the scan passes it. */
  lemma PassingInside(pre: seq<Event>) returns (evs: seq<Event>)
    requires Reaches(pre, 9, State(1, [Caller(Head(THE_JOB, 1)), SLOW, INSIDE]))
    ensures Reaches(evs, 13, State(1, [Caller(Look(THE_JOB, 1, 1, true, LoadState)), SLOW, INSIDE]))
    ensures pre <= evs
  {
    var j := THE_JOB;
    evs := pre;
    CallerMoves(evs, 9, Head(j, 1), Look(j, 1, 2, false, LoadState), SLOW);
    evs := evs + [Do(0, Poll)];
    CallerMoves(evs, 10, Look(j, 1, 2, false, LoadState), Look(j, 1, 2, false, LoadActive), SLOW);
    evs := evs + [Do(0, Poll)];
    CallerMoves(evs, 11, Look(j, 1, 2, false, LoadActive), Look(j, 1, 2, true, LoadEpoch), SLOW);
    evs := evs + [Do(0, Poll)];
    CallerMoves(evs, 12, Look(j, 1, 2, true, LoadEpoch), Look(j, 1, 1, true, LoadState), SLOW);
    evs := evs + [Do(0, Poll)];
  }

  /** Record 1 is active at another epoch: the scan stops there and, the global epoch being
      unchanged, is resumed there with the flag cleared. */
  lemma StoppingAtSlow(pre: seq<Event>) returns (evs: seq<Event>)
    requires Reaches(pre, 13, State(1, [Caller(Look(THE_JOB, 1, 1, true, LoadState)), SLOW, INSIDE]))
    ensures Reaches(evs, 17, State(1, [Caller(Look(RESUMED, 1, 1, false, LoadState)), SLOW, INSIDE]))
    ensures pre <= evs
  {
    var j := THE_JOB;
    evs := pre;
    CallerMoves(evs, 13, Look(j, 1, 1, true, LoadState), Look(j, 1, 1, true, LoadActive), SLOW);
    evs := evs + [Do(0, Poll)];
    CallerMoves(evs, 14, Look(j, 1, 1, true, LoadActive), Look(j, 1, 1, true, LoadEpoch), SLOW);
    evs := evs + [Do(0, Poll)];
    CallerMoves(evs, 15, Look(j, 1, 1, true, LoadEpoch), Recheck(j, 1, 1), SLOW);
    evs := evs + [Do(0, Poll)];
    CallerMoves(evs, 16, Recheck(j, 1, 1), Look(RESUMED, 1, 1, false, LoadState), SLOW);
    evs := evs + [Do(0, Poll)];
  }

  /** Record 1 stores its snapshot, opens its section and closes it. */
  lemma SlowFinishes(pre: seq<Event>, c: Rec) returns (evs: seq<Event>)
    requires Reaches(pre, 17, State(1, [c, SLOW, INSIDE]))
    ensures Reaches(evs, 20, State(1, [c, OVER, INSIDE])) && pre <= evs
  {
    evs := pre;
    Move(evs, 17, State(1, [c, SLOW, INSIDE]), 1, Poll, LOADED, State(1, [c, LOADED, INSIDE]));
    evs := evs + [Do(1, Poll)];
    Move(evs, 18, State(1, [c, LOADED, INSIDE]), 1, Poll, INSIDE, State(1, [c, INSIDE, INSIDE]));
    evs := evs + [Do(1, Poll)];
    assert Ended(INSIDE, 0) == OVER;
    Extend(evs, 19, State(1, [c, INSIDE, INSIDE]), Do(1, End(0)), State(1, [c, OVER, INSIDE]));
    evs := evs + [Do(1, End(0))];
  }

  /** The rest of the list is inactive, so synchronize returns. */
  lemma Returning(pre: seq<Event>) returns (evs: seq<Event>)
    requires Reaches(pre, 20, State(1, [Caller(Look(RESUMED, 1, 1, false, LoadState)), OVER, INSIDE]))
    ensures pre <= evs && Reaches(evs, 24,
      State(1, [Caller(Publish(RESUMED, 1, 0, LENGTH, SyncQuiet(0, true))), OVER, INSIDE]))
  {
    var j := RESUMED;
    evs := pre;
    CallerMoves(evs, 20, Look(j, 1, 1, false, LoadState), Look(j, 1, 1, false, LoadActive), OVER);
    evs := evs + [Do(0, Poll)];
    CallerMoves(evs, 21, Look(j, 1, 1, false, LoadActive), Look(j, 1, 0, false, LoadState), OVER);
    evs := evs + [Do(0, Poll)];
    CallerMoves(evs, 22, Look(j, 1, 0, false, LoadState), Look(j, 1, 0, false, LoadActive), OVER);
    evs := evs + [Do(0, Poll)];
    CallerMoves(evs, 23, Look(j, 1, 0, false, LoadActive),
                Publish(j, 1, 0, LENGTH, SyncQuiet(0, true)), OVER);
    evs := evs + [Do(0, Poll)];
  }

  lemma StillOpen(pre: seq<Event>, evs: seq<Event>, at: nat, c: Rec, d: Rec, c': Rec, d': Rec)
    requires pre <= evs && Reaches(pre, at, State(1, [c, d, INSIDE]))
    requires Run(evs) == State(1, [c', d', INSIDE])
    ensures at <= |evs| && IsOpen(Run(evs[..at]), TARGET) && !ClosedSince(evs, at)
  {
    assert evs[..at] == pre;
    assert IsOpen(Run(evs), TARGET);
  }

  /** Synchronize returns although the section of record 2 was open when it started. */
  lemma SynchronizeFails() returns (evs: seq<Event>)
    ensures |evs| == 24 && Returns(evs, 0, 8, SyncQuiet(0, true)) && !ClosedSince(evs, 8)
    ensures Run(evs) ==
            State(1, [Caller(Publish(RESUMED, 1, 0, LENGTH, SyncQuiet(0, true))), OVER, INSIDE])
    ensures Reaches(evs[..7], 7, State(1, [FRESH_REC, SLOW, INSIDE]))
  {
    var e7 := Opened();
    var e9 := Calling(e7);
    var e13 := PassingInside(e9);
    var e17 := StoppingAtSlow(e13);
    var e20 := SlowFinishes(e17, Caller(Look(RESUMED, 1, 1, false, LoadState)));
    evs := Returning(e20);
    assert e7 <= e9 <= e13 <= e17 <= e20 <= evs;
    assert e7 <= evs;
    assert evs[..7] == e7;
    var e8 := e9[..8];
    assert evs[..8] == e8;
    StillOpen(e8, evs, 8, Caller(Idle), SLOW,
              Caller(Publish(RESUMED, 1, 0, LENGTH, SyncQuiet(0, true))), OVER);
  }

  lemma CallerLists(pc: PC)
    ensures Caller(pc).pending == [[], [THE_ENTRY], [], []]
  {
    assert [THE_ENTRY] + [] == [THE_ENTRY];
  }

  /** The barrier dispatches the empty list 0 and takes list 1. */
  lemma Dispatching(pre: seq<Event>) returns (evs: seq<Event>, c: Rec)
    requires Reaches(pre, 24,
      State(1, [Caller(Publish(RESUMED, 1, 0, LENGTH, SyncQuiet(0, true))), OVER, INSIDE]))
    ensures pre <= evs && Reaches(evs, 27, State(1, [c, OVER, INSIDE]))
    ensures c.pc == Drain(Dispatch(8, SyncQuiet(0, true), 2, LENGTH, [THE_ENTRY], 0))
  {
    var exit := SyncQuiet(0, true);
    evs := pre;
    CallerLists(Idle);
    var c0 := Caller(Publish(RESUMED, 1, 0, LENGTH, exit));
    var c1 := Caller(Drain(Dispatch(8, exit, 0, LENGTH, [], 0))).(epoch := 1);
    Move(evs, 24, State(1, [c0, OVER, INSIDE]), 0, Poll, c1, State(1, [c1, OVER, INSIDE]));
    evs := evs + [Do(0, Poll)];
    var c2 := DrainStep(c1);
    assert c2.pc == Drain(Dispatch(8, exit, 1, LENGTH, [], 0));
    Move(evs, 25, State(1, [c1, OVER, INSIDE]), 0, Poll, c2, State(1, [c2, OVER, INSIDE]));
    evs := evs + [Do(0, Poll)];
    c := DrainStep(c2);
    Move(evs, 26, State(1, [c2, OVER, INSIDE]), 0, Poll, c, State(1, [c, OVER, INSIDE]));
    evs := evs + [Do(0, Poll)];
  }

  /** The barrier goes on to run a callback although the section of record 2 was open when it
      was deferred. */
  lemma BarrierFails() returns (evs: seq<Event>)
    ensures Runs(evs, 0, THE_ENTRY, 8, SyncQuiet(0, true))
    ensures THE_ENTRY.calledAt <= |evs| && !ClosedSince(evs, THE_ENTRY.calledAt)
  {
    var e24 := SynchronizeFails();
    var c;
    evs, c := Dispatching(e24);
    assert e24[..7] <= evs;
    StillOpen(e24[..7], evs, 7, FRESH_REC, SLOW, c, OVER);
  }

  /** The ways synchronize, as opposed to poll, leaves its loop. */
  ghost predicate SyncExit(exit: Exit) { !exit.Busy? && !exit.Quiet? && !exit.PollTick? }

  /** The exits after which every section that synchronize had to wait for is closed, in every
      schedule, are exactly the exits other than the break of a resumed first pass. */
  lemma JustifiedExits(exit: Exit)
    requires SyncExit(exit)
    ensures (forall evs, r: nat, at: nat :: at <= |evs| && Returns(evs, r, at, exit) ==>
               ClosedSince(evs, at))
            <==> !Unjustified(exit)
  {
    if Unjustified(exit) {
      var evs := SynchronizeFails();
      assert Returns(evs, 0, 8, exit);
    } else {
      forall evs, r: nat, at: nat | at <= |evs| && Returns(evs, r, at, exit)
        ensures ClosedSince(evs, at)
      {
        SynchronizeSafe(evs, r, at, exit);
      }
    }
  }

  /** The exits after which callbacks deferred before the poll or barrier was called, in every
      schedule, run only once the sections open at their deferral have closed are exactly the exits
      other than that break. (For callbacks deferred by callbacks of the same dispatch see
      EpochCallbacks.SameDispatchSafe.) */
  lemma JustifiedCallbacks(exit: Exit)
    ensures (forall evs, r: nat, en: Entry, since: nat ::
               en.calledAt <= since && en.calledAt <= |evs| && Runs(evs, r, en, since, exit) ==>
               ClosedSince(evs, en.calledAt))
            <==> !Unjustified(exit)
  {
    if Unjustified(exit) {
      var evs := BarrierFails();
      assert Runs(evs, 0, THE_ENTRY, 8, exit);
    } else {
      forall evs, r: nat, en: Entry, since: nat
        | en.calledAt <= since && en.calledAt <= |evs| && Runs(evs, r, en, since, exit)
        ensures ClosedSince(evs, en.calledAt)
      {
        CallbackSafe(evs, r, en, since, exit);
      }
    }
  }
}
