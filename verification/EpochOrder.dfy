/**
 Which dispatch an entry belongs to. Callbacks may defer, and a dispatch goes through its lists
 in order, so an entry deferred by a callback can be reached by the dispatch that is running
 that callback. The invariant here ties every waiting entry to every dispatch under way.
 */
module EpochOrder {
  import opened EpochModel
  import opened EpochInvariant

  /** The entry was deferred by a callback of the dispatch exactly if it was deferred after the
      dispatch's poll or barrier was called. */
  ghost predicate EntryOrder(d: Dispatch, en: Entry) {
    && (d.since in en.within <==> d.since < en.calledAt)
    && (d.since in en.within && d.exit.PollTick? ==> en.within[d.since] == d.end)
  }

  /** An entry being run that a callback of the same dispatch deferred went to a list the
      dispatch had still to take. */
  ghost predicate QueueOrder(d: Dispatch) {
    forall k :: 0 <= k < |d.queue| ==>
      && EntryOrder(d, d.queue[k])
      && (d.since in d.queue[k].within ==>
            d.queue[k].within[d.since] <= d.queue[k].epoch % LENGTH)
  }

  /** Entry `en` waits in list m. If the dispatch has passed that list, one of its callbacks
      deferred the entry after the list was taken. */
  ghost predicate PendingOrder(d: Dispatch, en: Entry, m: nat) {
    && EntryOrder(d, en)
    && (d.next <= m < d.end && d.since in en.within ==> en.within[d.since] <= m)
    && (m < d.next && (d.exit.PollTick? ==> m + 1 == d.end) ==>
          d.since in en.within && m < en.within[d.since])
  }

  ghost predicate ListsOrder(x: Rec, d: Dispatch) {
    forall m, k :: 0 <= m < |x.pending| && 0 <= k < |x.pending[m]| ==>
      PendingOrder(d, x.pending[m][k], m)
  }

  ghost predicate DispatchOrder(x: Rec, d: Dispatch) { QueueOrder(d) && ListsOrder(x, d) }

  ghost predicate Dated(en: Entry, now: nat) {
    en.calledAt < now && forall key :: key in en.within ==> key < en.calledAt
  }

  ghost predicate AllDated(x: Rec, now: nat) {
    forall m, k :: 0 <= m < |x.pending| && 0 <= k < |x.pending[m]| ==> Dated(x.pending[m][k], now)
  }

  ghost predicate Before(q: seq<Entry>, now: nat) { forall k :: 0 <= k < |q| ==> q[k].calledAt < now }

  /** The dispatch was called, and what it has taken deferred, before `now`. */
  ghost predicate Earlier(d: Dispatch, now: nat) { d.since < now && Before(d.queue, now) }

  /** The dispatches in progress were called one inside the other, all before `now`. */
  ghost predicate Nested(frames: seq<Dispatch>, now: nat) {
    && (forall k :: 0 <= k < |frames| ==> Earlier(frames[k], now))
    && (forall j, k :: 0 <= j < k < |frames| ==> Earlier(frames[j], frames[k].since))
  }

  ghost predicate Order(x: Rec, now: nat) {
    && AllDated(x, now) && Nested(x.frames, now)
    && (forall k :: 0 <= k < |x.frames| ==> DispatchOrder(x, x.frames[k]))
    && (x.pc.Drain? ==>
          Earlier(x.pc.d, now) && Nested(x.frames, x.pc.d.since) && DispatchOrder(x, x.pc.d))
    && (Scanning(x) ==>
          && x.pc.job.startedAt < now && Nested(x.frames, x.pc.job.startedAt)
          && AllDated(x, x.pc.job.startedAt))
  }

  // ---- What is in progress ------------------------------------------------------------

  lemma WithinAt(frames: seq<Dispatch>, now: nat, k: nat)
    requires Nested(frames, now) && k < |frames|
    ensures frames[k].since in Within(frames) && Within(frames)[frames[k].since] == frames[k].next
  {
    var outer := frames[..|frames| - 1];
    if k < |outer| {
      assert outer[k] == frames[k];
      WithinAt(outer, now, k);
    }
  }

  lemma WithinOnly(frames: seq<Dispatch>, key: nat) returns (k: nat)
    requires key in Within(frames)
    ensures k < |frames| && frames[k].since == key && Within(frames)[key] == frames[k].next
  {
    k := |frames| - 1;
    if frames[k].since != key { k := WithinOnly(frames[..k], key); }
  }

  // ---- Every step keeps the order -------------------------------------------------------

  lemma LaterOrder(x: Rec, now: nat)
    requires Order(x, now)
    ensures Order(x, now + 1)
  {
  }

  /** A step that leaves lists and dispatches alone. */
  lemma QuietOrder(x: Rec, y: Rec, now: nat)
    requires Order(x, now) && y.pending == x.pending && y.frames == x.frames
    requires !Working(y) || (Scanning(x) && Scanning(y) && y.pc.job.startedAt == x.pc.job.startedAt)
    ensures Order(y, now + 1)
  {
  }

  lemma CallDispatchOrder(x: Rec, en: Entry, d: Dispatch)
    requires |x.pending| == LENGTH && DispatchOrder(x, d)
    requires DispatchShape(d) && d.queue != []
    requires d.since < en.calledAt && d.since in en.within && en.within[d.since] == d.next
    ensures DispatchOrder(Deferred(x, en), d)
  {
    var y := Deferred(x, en);
    forall m, k | 0 <= m < |y.pending| && 0 <= k < |y.pending[m]|
      ensures PendingOrder(d, y.pending[m][k], m)
    {
      if m != en.epoch % LENGTH { assert PendingOrder(d, x.pending[m][k], m); }
      else if k > 0 { assert PendingOrder(d, x.pending[m][k - 1], m); }
    }
  }

  lemma CallDated(x: Rec, en: Entry, now: nat)
    requires |x.pending| == LENGTH && AllDated(x, now) && Dated(en, now + 1)
    ensures AllDated(Deferred(x, en), now + 1)
  {
    var y := Deferred(x, en);
    forall m, k | 0 <= m < |y.pending| && 0 <= k < |y.pending[m]|
      ensures Dated(y.pending[m][k], now + 1)
    {
      if m != en.epoch % LENGTH { assert Dated(x.pending[m][k], now); }
      else if k > 0 { assert Dated(x.pending[m][k - 1], now); }
    }
  }

  lemma CallOrder(s: State, x: Rec, en: Entry, now: nat)
    requires |x.pending| == LENGTH && FramesInv(s, x) && x.pc.Idle? && Order(x, now)
    requires en.calledAt == now && en.within == Within(x.frames)
    ensures Order(Deferred(x, en), now + 1)
  {
    forall key | key in en.within ensures key < now {
      var k := WithinOnly(x.frames, key);
    }
    CallDated(x, en, now);
    forall k | 0 <= k < |x.frames| ensures DispatchOrder(Deferred(x, en), x.frames[k]) {
      WithinAt(x.frames, now, k);
      CallDispatchOrder(x, en, x.frames[k]);
    }
  }

  lemma StartOrder(x: Rec, y: Rec, now: nat)
    requires Order(x, now) && y.pc.Head? && y.pc.job.startedAt == now
    requires y.pending == x.pending && y.frames == x.frames
    ensures Order(y, now + 1)
  {
  }

  lemma PublishOrder(s: State, x: Rec, now: nat)
    requires |x.pending| == LENGTH && x.pc.Publish? && JobInv(s, x) && Order(x, now)
    ensures Order(Published(x), now + 1)
  {
    var y := Published(x);
    if y.pc.Drain? {
      forall m, k | 0 <= m < |y.pending| && 0 <= k < |y.pending[m]|
        ensures PendingOrder(y.pc.d, y.pending[m][k], m)
      {
        assert Dated(x.pending[m][k], x.pc.job.startedAt);
      }
    }
  }

  /** Taking list m off, for a dispatch other than the one that takes it. */
  lemma TakenOrder(x: Rec, y: Rec, m: nat, d: Dispatch)
    requires |x.pending| == LENGTH && m < LENGTH && y.pending == x.pending[m := []]
    requires DispatchOrder(x, d)
    ensures DispatchOrder(y, d)
  {
    forall n, k | 0 <= n < |y.pending| && 0 <= k < |y.pending[n]|
      ensures PendingOrder(d, y.pending[n][k], n)
    {
      assert PendingOrder(d, x.pending[n][k], n);
    }
  }

  /** For the dispatch that takes it. */
  lemma TakingOrder(s: State, x: Rec, y: Rec, d: Dispatch, d': Dispatch)
    requires |x.pending| == LENGTH && d.next < d.end <= LENGTH && ListInv(s, x)
    requires DispatchOrder(x, d) && y.pending == x.pending[d.next := []]
    requires d' == d.(next := d.next + 1, queue := x.pending[d.next], ran := 0)
    ensures DispatchOrder(y, d')
  {
    forall n, k | 0 <= n < |y.pending| && 0 <= k < |y.pending[n]|
      ensures PendingOrder(d', y.pending[n][k], n)
    {
      assert PendingOrder(d, x.pending[n][k], n);
    }
    forall k | 0 <= k < |d'.queue|
      ensures EntryOrder(d', d'.queue[k])
      ensures d'.since in d'.queue[k].within ==>
                d'.queue[k].within[d'.since] <= d'.queue[k].epoch % LENGTH
    {
      assert PendingOrder(d, x.pending[d.next][k], d.next);
      assert EntryInv(s, x.pending[d.next][k], d.next);
    }
  }

  lemma TakeOrder(s: State, x: Rec, now: nat)
    requires |x.pending| == LENGTH && x.pc.Drain? && x.pc.d.queue == []
    requires ListInv(s, x) && DispatchShape(x.pc.d) && Order(x, now)
    ensures Order(DrainStep(x), now + 1)
  {
    var d := x.pc.d;
    var y := DrainStep(x);
    if d.next < d.end {
      TakingOrder(s, x, y, d, y.pc.d);
      forall k | 0 <= k < |y.frames| ensures DispatchOrder(y, y.frames[k]) {
        TakenOrder(x, y, d.next, x.frames[k]);
      }
      assert AllDated(y, now + 1) by {
        forall m, k | 0 <= m < |y.pending| && 0 <= k < |y.pending[m]|
          ensures Dated(y.pending[m][k], now + 1)
        {
          assert Dated(x.pending[m][k], now);
        }
      }
    } else {
      QuietOrder(x, y, now);
    }
  }

  lemma DrainOrder(s: State, x: Rec, now: nat)
    requires |x.pending| == LENGTH && x.pc.Drain?
    requires ListInv(s, x) && DispatchShape(x.pc.d) && Order(x, now)
    ensures Order(DrainStep(x), now + 1)
  {
    if x.pc.d.queue == [] {
      TakeOrder(s, x, now);
    } else {
      var y := DrainStep(x);
      forall k | 0 <= k < |y.frames| ensures DispatchOrder(y, y.frames[k]) {
        assert k < |x.frames| ==> DispatchOrder(x, x.frames[k]);
      }
    }
  }

  lemma ReturnOrder(x: Rec, now: nat)
    requires x.frames != [] && x.pc.Idle? && Order(x, now)
    requires forall k :: 0 <= k < |x.frames| ==> x.frames[k].queue != []
    ensures Order(Returned(x), now + 1)
  {
    var y := Returned(x);
    var d := x.frames[|x.frames| - 1];
    assert DispatchOrder(x, d);
    forall m, k | 0 <= m < |y.pending| && 0 <= k < |y.pending[m]|
      ensures PendingOrder(y.pc.d, y.pending[m][k], m)
    {
      assert PendingOrder(d, x.pending[m][k], m);
    }
    forall k | 0 <= k < |y.frames| ensures DispatchOrder(y, y.frames[k]) {
      assert DispatchOrder(x, x.frames[k]);
    }
  }

  lemma ScanOrder(s: State, r: nat, now: nat)
    requires Inv(s) && r < |s.recs| && Order(s.recs[r], now)
    requires Scanning(s.recs[r]) && !s.recs[r].pc.Publish?
    ensures Order(Continue(s, r).recs[r], now + 1)
  {
    var x := s.recs[r];
    assert JobInv(s, x);
    var y := Continue(s, r).recs[r];
    if x.pc.Look? { assert y.pc == LookNext(s, x.pc); }
    QuietOrder(x, y, now);
  }

  lemma ContinueOrder(s: State, r: nat, now: nat)
    requires Inv(s) && r < |s.recs| && s.recs[r].used && !s.recs[r].pc.Idle?
    requires Order(s.recs[r], now)
    ensures Order(Continue(s, r).recs[r], now + 1)
  {
    var x := s.recs[r];
    assert RecInv(x, s.g) && WorkInv(s, x);
    if x.pc.Drain? {
      DrainOrder(s, x, now);
    } else if x.pc.Publish? {
      PublishOrder(s, x, now);
    } else if Scanning(x) {
      ScanOrder(s, r, now);
    } else {
      QuietNextRec(x, s.g);
      QuietOrder(x, QuietNext(x, s.g), now);
    }
  }

  lemma BeginsOrder(s: State, r: nat, op: Op, now: nat)
    requires Inv(s) && r < |s.recs| && s.recs[r].used && s.recs[r].pc.Idle?
    requires MayStart(s.recs[r], op) && Order(s.recs[r], now)
    ensures Order(Start(s, r, op, now).recs[r], now + 1)
  {
    var x := s.recs[r];
    assert RecInv(x, s.g) && WorkInv(s, x);
    match op
    case Call(id) => CallOrder(s, x, Deferral(s, r, id, now), now);
    case Poll => StartOrder(x, Start(s, r, op, now).recs[r], now);
    case Synchronize(_) => StartOrder(x, Start(s, r, op, now).recs[r], now);
    case Return => ReturnOrder(x, now);
    case _ =>
      QuietStartRec(x, s.g, op);
      QuietOrder(x, QuietStart(x, op), now);
  }

  lemma StepOrder(s: State, ev: Event, now: nat, j: nat)
    requires Inv(s) && j < |s.recs| && Order(s.recs[j], now)
    ensures j < |Step(s, ev, now).recs| && Order(Step(s, ev, now).recs[j], now + 1)
  {
    LaterOrder(s.recs[j], now);
    if ev.Do? && ev.r < |s.recs| && s.recs[ev.r].used {
      if !s.recs[ev.r].pc.Idle? {
        ContinueFrame(s, ev.r);
        if ev.r == j { ContinueOrder(s, j, now); }
      } else if MayStart(s.recs[ev.r], ev.op) {
        if ev.r == j { BeginsOrder(s, j, ev.op, now); }
      }
    } else if ev.Recycle? && ev.r == j {
      assert RecInv(s.recs[j], s.g);
      if !s.recs[j].used { QuietOrder(s.recs[j], s.recs[j].(used := true), now); }
    }
  }

  /** The order of deferrals and dispatches holds in every reachable state. */
  lemma {:induction false} RunOrder(evs: seq<Event>)
    ensures forall r :: 0 <= r < |Run(evs).recs| ==> Order(Run(evs).recs[r], |evs|)
  {
    if evs != [] {
      var front := evs[..|evs| - 1];
      var ev := evs[|evs| - 1];
      RunOrder(front);
      RunInv(front);
      forall r | 0 <= r < |Run(evs).recs| ensures Order(Run(evs).recs[r], |evs|) {
        if r < |Run(front).recs| {
          StepOrder(Run(front), ev, |front|, r);
        } else {
          NewRecords(Run(front), ev, |front|, r);
        }
      }
    }
  }

  // ---- Lists are stacks -------------------------------------------------------------------------------------

  ghost predicate NewestFirst(q: seq<Entry>) { forall i, j :: 0 <= i < j < |q| ==> q[j].calledAt < q[i].calledAt }

  ghost predicate Stacked(x: Rec) {
    && (forall m :: 0 <= m < |x.pending| ==> NewestFirst(x.pending[m]))
    && (forall k :: 0 <= k < |x.frames| ==> NewestFirst(x.frames[k].queue))
    && (x.pc.Drain? ==> NewestFirst(x.pc.d.queue))
  }

  lemma CallStacked(x: Rec, en: Entry, now: nat)
    requires |x.pending| == LENGTH && Stacked(x) && x.pc.Idle? && AllDated(x, now) && en.calledAt == now
    ensures Stacked(Deferred(x, en))
  {
    var y, slot := Deferred(x, en), en.epoch % LENGTH;
    forall k | 0 <= k < |x.pending[slot]| ensures x.pending[slot][k].calledAt < now {
      assert Dated(x.pending[slot][k], now);
    }
    forall m | 0 <= m < |y.pending| ensures NewestFirst(y.pending[m]) {
      assert NewestFirst(x.pending[m]);
    }
  }

  lemma DrainStacked(x: Rec)
    requires x.pc.Drain? && Stacked(x)
    ensures Stacked(DrainStep(x))
  {
    var y := DrainStep(x);
    forall m | 0 <= m < |y.pending| ensures NewestFirst(y.pending[m]) {
      assert m < |x.pending| ==> NewestFirst(x.pending[m]);
    }
  }

  lemma ReturnStacked(x: Rec)
    requires x.frames != [] && x.pc.Idle? && Stacked(x)
    ensures Stacked(Returned(x))
  {
    assert NewestFirst(x.frames[|x.frames| - 1].queue);
  }

  /** A step that leaves lists and dispatches alone. */
  lemma QuietStacked(x: Rec, y: Rec)
    requires Stacked(x) && y.pending == x.pending && y.frames == x.frames
    requires y.pc.Drain? ==> y.pc.d.queue == []
    ensures Stacked(y)
  {
  }

  lemma ContinueStacked(s: State, r: nat)
    requires Inv(s) && r < |s.recs| && s.recs[r].used && !s.recs[r].pc.Idle? && Stacked(s.recs[r])
    ensures Stacked(Continue(s, r).recs[r])
  {
    var x := s.recs[r];
    assert RecInv(x, s.g) && JobInv(s, x);
    if x.pc.Drain? {
      DrainStacked(x);
    } else if Scanning(x) {
      QuietStacked(x, Continue(s, r).recs[r]);
    } else {
      QuietNextRec(x, s.g);
      QuietStacked(x, QuietNext(x, s.g));
    }
  }

  lemma StartStacked(s: State, r: nat, op: Op, now: nat)
    requires Inv(s) && r < |s.recs| && s.recs[r].used && s.recs[r].pc.Idle? && MayStart(s.recs[r], op)
    requires Stacked(s.recs[r]) && AllDated(s.recs[r], now)
    ensures Stacked(Start(s, r, op, now).recs[r])
  {
    var x := s.recs[r];
    assert RecInv(x, s.g);
    match op
    case Call(id) => CallStacked(x, Deferral(s, r, id, now), now);
    case Return => ReturnStacked(x);
    case Poll => QuietStacked(x, Start(s, r, op, now).recs[r]);
    case Synchronize(_) => QuietStacked(x, Start(s, r, op, now).recs[r]);
    case _ =>
      QuietStartRec(x, s.g, op);
      QuietStacked(x, QuietStart(x, op));
  }

  lemma StepStacked(s: State, ev: Event, now: nat, j: nat)
    requires Inv(s) && j < |s.recs| && Stacked(s.recs[j]) && AllDated(s.recs[j], now)
    ensures j < |Step(s, ev, now).recs| && Stacked(Step(s, ev, now).recs[j])
  {
    if ev.Do? && ev.r < |s.recs| && s.recs[ev.r].used {
      if !s.recs[ev.r].pc.Idle? {
        ContinueFrame(s, ev.r);
        if ev.r == j { ContinueStacked(s, j); }
      } else if MayStart(s.recs[ev.r], ev.op) {
        if ev.r == j { StartStacked(s, j, ev.op, now); }
      }
    } else if ev.Recycle? && ev.r == j {
      assert RecInv(s.recs[j], s.g);
      if !s.recs[j].used { QuietStacked(s.recs[j], s.recs[j].(used := true)); }
    }
  }

  lemma {:induction false} RunStacked(evs: seq<Event>, r: nat)
    requires r < |Run(evs).recs|
    ensures Stacked(Run(evs).recs[r])
  {
    if evs != [] {
      var front := evs[..|evs| - 1];
      if r < |Run(front).recs| {
        RunInv(front);
        RunOrder(front);
        RunStacked(front, r);
        assert Order(Run(front).recs[r], |front|);
        StepStacked(Run(front), evs[|evs| - 1], |front|, r);
      } else {
        NewRecords(Run(front), evs[|evs| - 1], |front|, r);
      }
    }
  }

  /** The callbacks of a list are called newest first. */
  lemma NewestCalledFirst(evs: seq<Event>, r: nat, k: nat)
    requires r < |Run(evs).recs| && Run(evs).recs[r].pc.Drain? && 0 < k < |Run(evs).recs[r].pc.d.queue|
    ensures Run(evs).recs[r].pc.d.queue[k].calledAt < Run(evs).recs[r].pc.d.queue[0].calledAt
  {
    RunStacked(evs, r);
  }
}
