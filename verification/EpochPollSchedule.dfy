/**
 A poll that finds every record inactive and yet runs a callback inside a section open at its
 deferral. Record 0 defers a callback at epoch 1, the epoch advances to 2, and record 0 polls
 while record 1 is inactive. The callback, of list 1, is called; record 1 opens a section at
 epoch 2; the callback defers another one, to list 2, which the same poll then runs.
 */
module EpochPollSchedule {
  import opened EpochModel
  import opened EpochInvariant
  import opened EpochSafety
  import opened EpochCallbacks

  /** Record 1 on its way into its section at epoch 1, inside it, and out of it. */
  const ENTERING: Rec := FRESH_REC.(active := 1, pc := BeginLoad(false))
  const STORING: Rec := FRESH_REC.(active := 1, pc := BeginStore(false, 1))
  const READING: Rec := OpenSection(FRESH_REC.(active := 1, epoch := 1), Plain, 1)
  const LEFT: Rec := FRESH_REC.(epoch := 1, serials := 1)

  /** Its second section, at epoch 2. */
  const ENTERING2: Rec := LEFT.(active := 1, pc := BeginLoad(false))
  const STORING2: Rec := LEFT.(active := 1, pc := BeginStore(false, 2))
  const READING2: Rec := OpenSection(LEFT.(active := 1, epoch := 2), Plain, 2)

  const FIRST: Entry := Entry(7, 1, {Section(1, 0)}, 5, map[])
  const TICKING: Job := Job(true, false, 1, 0, false, {Section(1, 0)}, 6)
  const QUIET: Job := Job(true, false, 2, 0, false, {}, 18)

  /** Record 0 with its callback deferred, holding epoch e, at program counter `pc`. */
  function Poller(e: nat, pc: PC): Rec { Deferred(FRESH_REC, FIRST).(epoch := e, pc := pc) }

  lemma PollerLists(e: nat, pc: PC)
    ensures Poller(e, pc).pending == [[], [FIRST], [], []]
    ensures Poller(e, pc).pending[0 := []] == Poller(e, pc).pending
    ensures Poller(e, pc).pending[2 := []] == Poller(e, pc).pending
  {
    assert [FIRST] + [] == [FIRST];
  }

  /** A step of record r in the middle of an operation. */
  lemma Next(evs: seq<Event>, n: nat, s: State, r: nat, s': State)
    requires Reaches(evs, n, s) && r < |s.recs| && s.recs[r].used && !s.recs[r].pc.Idle?
    requires Continue(s, r) == s'
    ensures Reaches(evs + [Do(r, Poll)], n + 1, s')
  {
    Extend(evs, n, s, Do(r, Poll), s');
  }

  lemma Registered() returns (evs: seq<Event>)
    ensures Reaches(evs, 2, State(1, [FRESH_REC, FRESH_REC]))
  {
    evs := [];
    Extend(evs, 0, INIT, Register, State(1, [FRESH_REC]));
    evs := evs + [Register];
    Extend(evs, 1, State(1, [FRESH_REC]), Register, State(1, [FRESH_REC, FRESH_REC]));
    evs := evs + [Register];
  }

  /** Record 1 opens a section at epoch 1. */
  lemma Entered() returns (evs: seq<Event>)
    ensures Reaches(evs, 5, State(1, [FRESH_REC, READING]))
  {
    var x := FRESH_REC;
    evs := Registered();
    Extend(evs, 2, State(1, [x, x]), Do(1, Begin(false)), State(1, [x, ENTERING]));
    evs := evs + [Do(1, Begin(false))];
    Next(evs, 3, State(1, [x, ENTERING]), 1, State(1, [x, STORING]));
    evs := evs + [Do(1, Poll)];
    Next(evs, 4, State(1, [x, STORING]), 1, State(1, [x, READING]));
    evs := evs + [Do(1, Poll)];
  }

  /** Record 0 moves from program counter `pc` to `pc'`. */
  lemma PollerMoves(evs: seq<Event>, n: nat, g: nat, e: nat, pc: PC, pc': PC, y: Rec)
    requires Reaches(evs, n, State(g, [Poller(e, pc), y])) && !pc.Idle?
    requires Continue(State(g, [Poller(e, pc), y]), 0) ==
             Upd(State(g, [Poller(e, pc), y]), 0, Poller(e, pc'))
    ensures Reaches(evs + [Do(0, Poll)], n + 1, State(g, [Poller(e, pc'), y]))
  {
    Next(evs, n, State(g, [Poller(e, pc), y]), 0, State(g, [Poller(e, pc'), y]));
  }

  /** Record 0 defers its callback and polls. */
  lemma Polling(pre: seq<Event>) returns (evs: seq<Event>)
    requires Reaches(pre, 5, State(1, [FRESH_REC, READING]))
    ensures Reaches(evs, 7, State(1, [Poller(0, Head(TICKING, 1)), READING]))
  {
    var s := State(1, [FRESH_REC, READING]);
    var s1 := State(1, [Poller(0, Idle), READING]);
    assert AllOpen(s) == {Section(1, 0)} && AllOpen(s1) == {Section(1, 0)};
    evs := pre;
    Extend(evs, 5, s, Do(0, Call(7)), s1);
    evs := evs + [Do(0, Call(7))];
    Extend(evs, 6, s1, Do(0, Poll), State(1, [Poller(0, Head(TICKING, 1)), READING]));
    evs := evs + [Do(0, Poll)];
  }

  /** Everyone active holds epoch 1. */
  lemma Scanned(pre: seq<Event>) returns (evs: seq<Event>)
    requires Reaches(pre, 7, State(1, [Poller(0, Head(TICKING, 1)), READING]))
    ensures Reaches(evs, 13, State(1, [Poller(0, Tick(TICKING, 1)), READING]))
  {
    var j := TICKING;
    var y := READING;
    evs := pre;
    PollerMoves(evs, 7, 1, 0, Head(j, 1), Look(j, 1, 1, false, LoadState), y);
    evs := evs + [Do(0, Poll)];
    PollerMoves(evs, 8, 1, 0, Look(j, 1, 1, false, LoadState), Look(j, 1, 1, false, LoadActive), y);
    evs := evs + [Do(0, Poll)];
    PollerMoves(evs, 9, 1, 0, Look(j, 1, 1, false, LoadActive), Look(j, 1, 1, true, LoadEpoch), y);
    evs := evs + [Do(0, Poll)];
    PollerMoves(evs, 10, 1, 0, Look(j, 1, 1, true, LoadEpoch), Look(j, 1, 0, true, LoadState), y);
    evs := evs + [Do(0, Poll)];
    PollerMoves(evs, 11, 1, 0, Look(j, 1, 0, true, LoadState), Look(j, 1, 0, true, LoadActive), y);
    evs := evs + [Do(0, Poll)];
    PollerMoves(evs, 12, 1, 0, Look(j, 1, 0, true, LoadActive), Tick(j, 1), y);
    evs := evs + [Do(0, Poll)];
  }

  /** The epoch advances to 2. */
  lemma Advanced(pre: seq<Event>) returns (evs: seq<Event>)
    requires Reaches(pre, 13, State(1, [Poller(0, Tick(TICKING, 1)), READING]))
    ensures Reaches(evs, 15,
      State(2, [Poller(2, Drain(Dispatch(6, PollTick, 2, 3, [], 0))), READING]))
  {
    var s := State(1, [Poller(0, Tick(TICKING, 1)), READING]);
    var x := Poller(0, Publish(TICKING, 2, 2, 3, PollTick));
    assert TickNext(2, Tick(TICKING, 1)) == Publish(TICKING, 2, 2, 3, PollTick);
    evs := pre;
    Next(evs, 13, s, 0, State(2, [x, READING]));
    evs := evs + [Do(0, Poll)];
    assert Published(x) == Poller(2, Drain(Dispatch(6, PollTick, 2, 3, [], 0)));
    Next(evs, 14, State(2, [x, READING]), 0, State(2, [Published(x), READING]));
    evs := evs + [Do(0, Poll)];
  }

  /** The empty list 2 is dispatched. */
  lemma Dispatched(pre: seq<Event>) returns (evs: seq<Event>)
    requires Reaches(pre, 15,
      State(2, [Poller(2, Drain(Dispatch(6, PollTick, 2, 3, [], 0))), READING]))
    ensures Reaches(evs, 17, State(2, [Poller(2, Idle), READING]))
  {
    evs := pre;
    PollerLists(2, Idle);
    PollerMoves(evs, 15, 2, 2, Drain(Dispatch(6, PollTick, 2, 3, [], 0)),
                Drain(Dispatch(6, PollTick, 3, 3, [], 0)), READING);
    evs := evs + [Do(0, Poll)];
    PollerMoves(evs, 16, 2, 2, Drain(Dispatch(6, PollTick, 3, 3, [], 0)), Idle, READING);
    evs := evs + [Do(0, Poll)];
  }

  /** Record 1 closes its section. */
  lemma Closing(pre: seq<Event>, x: Rec) returns (evs: seq<Event>)
    requires Reaches(pre, 17, State(2, [x, READING]))
    ensures Reaches(evs, 18, State(2, [x, LEFT]))
  {
    assert Ended(READING, 0) == LEFT;
    Extend(pre, 17, State(2, [x, READING]), Do(1, End(0)), State(2, [x, LEFT]));
    evs := pre + [Do(1, End(0))];
  }

  /** Record 0 polls again and sees nobody active. */
  lemma Inactive(pre: seq<Event>) returns (evs: seq<Event>)
    requires Reaches(pre, 18, State(2, [Poller(2, Idle), LEFT]))
    ensures Reaches(evs, 24, State(2, [Poller(2, Publish(QUIET, 2, 0, LENGTH, Quiet)), LEFT]))
  {
    var j := QUIET;
    var s := State(2, [Poller(2, Idle), LEFT]);
    assert AllOpen(s) == {};
    evs := pre;
    Extend(evs, 18, s, Do(0, Poll), State(2, [Poller(2, Head(j, 2)), LEFT]));
    evs := evs + [Do(0, Poll)];
    PollerMoves(evs, 19, 2, 2, Head(j, 2), Look(j, 2, 1, false, LoadState), LEFT);
    evs := evs + [Do(0, Poll)];
    PollerMoves(evs, 20, 2, 2, Look(j, 2, 1, false, LoadState), Look(j, 2, 1, false, LoadActive), LEFT);
    evs := evs + [Do(0, Poll)];
    PollerMoves(evs, 21, 2, 2, Look(j, 2, 1, false, LoadActive), Look(j, 2, 0, false, LoadState), LEFT);
    evs := evs + [Do(0, Poll)];
    PollerMoves(evs, 22, 2, 2, Look(j, 2, 0, false, LoadState), Look(j, 2, 0, false, LoadActive), LEFT);
    evs := evs + [Do(0, Poll)];
    PollerMoves(evs, 23, 2, 2, Look(j, 2, 0, false, LoadActive), Publish(j, 2, 0, LENGTH, Quiet), LEFT);
    evs := evs + [Do(0, Poll)];
  }

  const AT_FIRST: Dispatch := Dispatch(18, Quiet, 2, LENGTH, [FIRST], 0)

  /** Lists 0 and 1 are taken, and the callback of list 1 is called. */
  lemma Calling(pre: seq<Event>) returns (evs: seq<Event>, x: Rec)
    requires Reaches(pre, 24, State(2, [Poller(2, Publish(QUIET, 2, 0, LENGTH, Quiet)), LEFT]))
    ensures Reaches(evs, 28, State(2, [x, LEFT]))
    ensures x.used && x.open == map[] && x.pc.Idle? && x.frames == [AT_FIRST]
  {
    evs := pre;
    PollerLists(2, Idle);
    var x0 := Poller(2, Publish(QUIET, 2, 0, LENGTH, Quiet));
    var x1 := Poller(2, Drain(Dispatch(18, Quiet, 0, LENGTH, [], 0)));
    Next(evs, 24, State(2, [x0, LEFT]), 0, State(2, [x1, LEFT]));
    evs := evs + [Do(0, Poll)];
    var x2 := Poller(2, Drain(Dispatch(18, Quiet, 1, LENGTH, [], 0)));
    PollerMoves(evs, 25, 2, 2, x1.pc, x2.pc, LEFT);
    evs := evs + [Do(0, Poll)];
    var x3 := DrainStep(x2);
    assert x3.pc == Drain(AT_FIRST);
    Next(evs, 26, State(2, [x2, LEFT]), 0, State(2, [x3, LEFT]));
    evs := evs + [Do(0, Poll)];
    x := DrainStep(x3);
    Next(evs, 27, State(2, [x3, LEFT]), 0, State(2, [x, LEFT]));
    evs := evs + [Do(0, Poll)];
  }

  /** Record 1 opens its second section while the callback is in progress. */
  lemma Reentered(pre: seq<Event>, x: Rec) returns (evs: seq<Event>)
    requires Reaches(pre, 28, State(2, [x, LEFT]))
    ensures Reaches(evs, 31, State(2, [x, READING2]))
  {
    evs := pre;
    Extend(evs, 28, State(2, [x, LEFT]), Do(1, Begin(false)), State(2, [x, ENTERING2]));
    evs := evs + [Do(1, Begin(false))];
    Next(evs, 29, State(2, [x, ENTERING2]), 1, State(2, [x, STORING2]));
    evs := evs + [Do(1, Poll)];
    Next(evs, 30, State(2, [x, STORING2]), 1, State(2, [x, READING2]));
    evs := evs + [Do(1, Poll)];
  }

  /** Poll leaves by its "all inactive" exit, justified for every callback deferred before it, and
      runs a callback inside a section that was open when the callback was deferred. */
  lemma PollFails(id: nat) returns (evs: seq<Event>, en: Entry)
    ensures Runs(evs, 0, en, 18, Quiet) && en.id == id
    ensures en.calledAt <= |evs| && !ClosedSince(evs, en.calledAt)
  {
    var e5 := Entered();
    var e7 := Polling(e5);
    var e13 := Scanned(e7);
    var e15 := Advanced(e13);
    var e17 := Dispatched(e15);
    var e18 := Closing(e17, Poller(2, Idle));
    var e24 := Inactive(e18);
    var e28, x := Calling(e24);
    var e31 := Reentered(e28, x);
    assert IsOpen(Run(e31), Section(1, 1));
    var post := LateRun(e31, 0, AT_FIRST, id);
    evs := e31 + [Do(0, Call(id))] + post;
    en := Deferral(Run(e31), 0, id, 31);
    OpenThroughout(e31, [Do(0, Call(id))], post);
  }
}
