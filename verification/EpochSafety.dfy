/** What the epoch machine guarantees over whole schedules. */
module EpochSafety {
  import opened EpochModel
  import opened EpochInvariant
  import opened EpochOrder

  // ---- Entries and jobs remember the schedule -----------------------------------------

  /** The entry was deferred by an event of the schedule, and recorded what was open and which
      callbacks were in progress then. */
  ghost predicate EntryHist(evs: seq<Event>, r: nat, en: Entry) {
    && en.calledAt < |evs| && evs[en.calledAt] == Do(r, Call(en.id))
    && r < |Run(evs[..en.calledAt]).recs|
    && en == Deferral(Run(evs[..en.calledAt]), r, en.id, en.calledAt)
  }

  ghost predicate JobHist(evs: seq<Event>, r: nat, job: Job) {
    && job.startedAt < |evs|
    && evs[job.startedAt] == Do(r, if job.poll then Poll else Synchronize(job.reclaim))
    && job.start == Run(evs[..job.startedAt]).g
    && job.targets == AllOpen(Run(evs[..job.startedAt]))
  }

  ghost predicate ListHist(evs: seq<Event>, r: nat, q: seq<Entry>) {
    forall k :: 0 <= k < |q| ==> EntryHist(evs, r, q[k])
  }

  ghost predicate PcHist(evs: seq<Event>, r: nat, pc: PC) {
    && (pc.Drain? ==> ListHist(evs, r, pc.d.queue))
    && (pc.Head? || pc.Look? || pc.Recheck? || pc.Tick? || pc.Publish? ==>
          JobHist(evs, r, pc.job))
  }

  ghost predicate RecHist(evs: seq<Event>, r: nat, x: Rec) {
    && (forall m :: 0 <= m < |x.pending| ==> ListHist(evs, r, x.pending[m]))
    && (forall k :: 0 <= k < |x.frames| ==> ListHist(evs, r, x.frames[k].queue))
    && PcHist(evs, r, x.pc)
  }

  ghost predicate Hist(evs: seq<Event>) {
    forall r :: 0 <= r < |Run(evs).recs| ==> RecHist(evs, r, Run(evs).recs[r])
  }

  lemma HistExtends(evs: seq<Event>, ev: Event, r: nat, x: Rec)
    requires RecHist(evs, r, x)
    ensures RecHist(evs + [ev], r, x)
  {
    assert forall c :: 0 <= c < |evs| ==> (evs + [ev])[..c] == evs[..c];
    forall q | ListHist(evs, r, q) ensures ListHist(evs + [ev], r, q) {
      forall k | 0 <= k < |q| ensures EntryHist(evs + [ev], r, q[k]) {
        assert EntryHist(evs, r, q[k]);
      }
    }
  }

  /** A scan keeps its job. */
  lemma ScanHist(evs: seq<Event>, s: State, r: nat, pc: PC)
    requires PcHist(evs, r, pc)
    ensures pc.Look? && pc.cur < |s.recs| ==> PcHist(evs, r, LookNext(s, pc))
    ensures pc.Recheck? ==> PcHist(evs, r, RecheckNext(s.g, pc))
    ensures pc.Tick? ==> PcHist(evs, r, TickNext(s.g, pc))
  {
  }

  /** What a running record does to its lists and job. */
  lemma ContinueHist(evs: seq<Event>, s: State, r: nat)
    requires r < |s.recs| && RecHist(evs, r, s.recs[r])
    requires !s.recs[r].pc.Idle? && |s.recs[r].pending| == LENGTH
    ensures RecHist(evs, r, Continue(s, r).recs[r])
  {
    var x := s.recs[r];
    var y := Continue(s, r).recs[r];
    if x.pc.Drain? {
      assert y == DrainStep(x);
      forall m | 0 <= m < |y.pending| ensures ListHist(evs, r, y.pending[m]) {
        assert ListHist(evs, r, x.pending[m]);
      }
    } else if x.pc.Look? || x.pc.Recheck? {
      ScanHist(evs, s, r, x.pc);
    } else if x.pc.Tick? {
      ScanHist(evs, s.(g := Ticked(s.g, x.pc.e)), r, x.pc);
    } else if x.pc.Head? || x.pc.Publish? {
      assert y.pending == x.pending;
    } else {
      assert y == QuietNext(x, s.g);
    }
  }

  lemma CallHist(evs: seq<Event>, r: nat, x: Rec, en: Entry)
    requires RecHist(evs, r, x) && EntryHist(evs, r, en) && |x.pending| == LENGTH
    ensures RecHist(evs, r, Deferred(x, en))
  {
    var y := Deferred(x, en);
    forall m | 0 <= m < |y.pending| ensures ListHist(evs, r, y.pending[m]) {
      assert ListHist(evs, r, x.pending[m]);
    }
  }

  lemma ReturnHist(evs: seq<Event>, r: nat, x: Rec)
    requires RecHist(evs, r, x) && x.frames != []
    ensures RecHist(evs, r, Returned(x))
  {
    var q := x.frames[|x.frames| - 1].queue;
    assert ListHist(evs, r, q);
    assert ListHist(evs, r, if q == [] then [] else q[1..]);
  }

  lemma StartHist(evs: seq<Event>, s: State, r: nat, op: Op)
    requires s == Run(evs) && r < |s.recs| && RecHist(evs, r, s.recs[r])
    requires s.recs[r].pc.Idle? && MayStart(s.recs[r], op)
    ensures RecHist(evs + [Do(r, op)], r, Start(s, r, op, |evs|).recs[r])
  {
    var evs' := evs + [Do(r, op)];
    HistExtends(evs, Do(r, op), r, s.recs[r]);
    assert evs'[..|evs|] == evs;
    if op.Call? {
      CallHist(evs', r, s.recs[r], Deferral(s, r, op.id, |evs|));
    } else if op.Return? {
      ReturnHist(evs', r, s.recs[r]);
    }
  }

  /** The record that moves, and the records that do not. */
  lemma StepRecHist(evs: seq<Event>, ev: Event, s: State, j: nat)
    requires s == Run(evs) && j < |s.recs| && RecHist(evs, j, s.recs[j]) && |s.recs[j].pending| == LENGTH
    ensures j < |Step(s, ev, |evs|).recs|
    ensures RecHist(evs + [ev], j, Step(s, ev, |evs|).recs[j])
  {
    HistExtends(evs, ev, j, s.recs[j]);
    if ev.Do? && ev.r < |s.recs| && s.recs[ev.r].used {
      if !s.recs[ev.r].pc.Idle? {
        ContinueFrame(s, ev.r);
        if ev.r == j { ContinueHist(evs + [ev], s, j); }
      } else if MayStart(s.recs[ev.r], ev.op) {
        if ev.r == j { StartHist(evs, s, j, ev.op); }
      }
    }
  }

  lemma NewRecHist(evs: seq<Event>, s: State, ev: Event, now: nat, j: nat)
    requires |s.recs| <= j < |Step(s, ev, now).recs|
    ensures RecHist(evs, j, Step(s, ev, now).recs[j])
  {
    NewRecords(s, ev, now, j);
  }

  lemma StepHist(front: seq<Event>, evs: seq<Event>, s: State, s': State)
    requires |evs| == |front| + 1 && evs == front + [evs[|front|]] && Inv(s)
    requires s == Run(front) && s' == Step(s, evs[|front|], |front|)
    requires forall j :: 0 <= j < |s.recs| ==> RecHist(front, j, s.recs[j])
    ensures forall j :: 0 <= j < |s'.recs| ==> RecHist(evs, j, s'.recs[j])
  {
    forall j | 0 <= j < |s'.recs| ensures RecHist(evs, j, s'.recs[j]) {
      if j < |s.recs| {
        assert RecInv(s.recs[j], s.g);
        StepRecHist(front, evs[|front|], s, j);
      } else {
        NewRecHist(evs, s, evs[|front|], |front|, j);
      }
    }
  }

  lemma RunAppend(front: seq<Event>, evs: seq<Event>)
    requires |evs| == |front| + 1 && evs[..|front|] == front
    ensures evs == front + [evs[|front|]] && Run(evs) == Step(Run(front), evs[|front|], |front|)
  {
  }

  lemma {:induction false} RunHist(evs: seq<Event>)
    ensures Hist(evs)
  {
    if evs != [] {
      var front := evs[..|evs| - 1];
      RunHist(front);
      RunInv(front);
      RunAppend(front, evs);
      StepHist(front, evs, Run(front), Run(evs));
    }
  }

  // ---- Reclamation ---------------------------------------------------------------------

  /** Every section open after the first `at` events of the schedule is closed by its end. */
  ghost predicate ClosedSince(evs: seq<Event>, at: nat)
    requires at <= |evs|
  {
    forall w :: IsOpen(Run(evs[..at]), w) ==> !IsOpen(Run(evs), w)
  }

  /** Record r is about to run the callback `en`, dispatched by the poll or barrier that was
      called at event `since` and left its loop by `exit`. */
  ghost predicate Runs(evs: seq<Event>, r: nat, en: Entry, since: nat, exit: Exit) {
    && r < |Run(evs).recs| && Run(evs).recs[r].pc.Drain?
    && var d := Run(evs).recs[r].pc.d;
       d.since == since && d.exit == exit && d.queue != [] && d.queue[0] == en
  }

  /** What every reachable state knows of the callback about to be run. */
  lemma RunsFacts(evs: seq<Event>, r: nat, en: Entry, since: nat, exit: Exit)
    requires Runs(evs, r, en, since, exit)
    ensures EntryHist(evs, r, en) && EntryOrder(Run(evs).recs[r].pc.d, en)
    ensures since < en.calledAt ==>
              since in en.within && en.within[since] <= en.epoch % LENGTH && !exit.PollTick?
    ensures !Unjustified(exit) && en.calledAt <= since ==> AllClosed(Run(evs), en.waiters)
  {
    RunInv(evs);
    RunHist(evs);
    RunOrder(evs);
    var x := Run(evs).recs[r];
    assert RecHist(evs, r, x) && WorkInv(Run(evs), x) && Order(x, |evs|);
    assert EntryHist(evs, r, x.pc.d.queue[0]) && EntryOrder(x.pc.d, x.pc.d.queue[0]);
  }

  /** Unless the barrier's synchronize left by the one exit that proves nothing, poll and
      barrier run a callback deferred before they were called only once every section open at
      its ck_epoch_call has closed. */
  lemma CallbackSafe(evs: seq<Event>, r: nat, en: Entry, since: nat, exit: Exit)
    requires Runs(evs, r, en, since, exit) && !Unjustified(exit) && en.calledAt <= since
    ensures en.calledAt < |evs| && evs[en.calledAt] == Do(r, Call(en.id))
    ensures ClosedSince(evs, en.calledAt)
  {
    RunsFacts(evs, r, en, since, exit);
  }

  /** Any other callback was deferred by a callback `d.queue[0]` of the same dispatch, which
      goes through all lists, and from an earlier list. */
  lemma CallbackLate(evs: seq<Event>, r: nat, en: Entry, since: nat, exit: Exit)
    returns (k: nat)
    requires Runs(evs, r, en, since, exit) && since < en.calledAt
    ensures en.calledAt < |evs| && evs[en.calledAt] == Do(r, Call(en.id)) && !exit.PollTick?
    ensures var s := Run(evs[..en.calledAt]);
            && r < |s.recs| && k < |s.recs[r].frames| && s.recs[r].frames[k].since == since
            && s.recs[r].frames[k].queue != []
            && s.recs[r].frames[k].queue[0].epoch % LENGTH < en.epoch % LENGTH
  {
    RunsFacts(evs, r, en, since, exit);
    var before := evs[..en.calledAt];
    k := WithinOnly(Run(before).recs[r].frames, since);
    RunInv(before);
    assert FramesInv(Run(before), Run(before).recs[r]);
  }

  /** After a tick poll dispatches one list, and all its callbacks are safe. */
  lemma TickCallbackSafe(evs: seq<Event>, r: nat, en: Entry, since: nat)
    requires Runs(evs, r, en, since, PollTick)
    ensures en.calledAt < |evs| && ClosedSince(evs, en.calledAt)
  {
    RunsFacts(evs, r, en, since, PollTick);
  }

  /** Record r is returning from synchronize, called at event `at`, by `exit`. */
  ghost predicate Returns(evs: seq<Event>, r: nat, at: nat, exit: Exit) {
    && r < |Run(evs).recs| && Run(evs).recs[r].pc.Publish?
    && !Run(evs).recs[r].pc.job.poll && Run(evs).recs[r].pc.exit == exit
    && Run(evs).recs[r].pc.job.startedAt == at
  }

  lemma SynchronizeSafe(evs: seq<Event>, r: nat, at: nat, exit: Exit)
    requires Returns(evs, r, at, exit) && !Unjustified(exit)
    ensures at < |evs| && evs[at].Do? && evs[at].r == r && evs[at].op.Synchronize?
    ensures ClosedSince(evs, at)
  {
    RunInv(evs);
    RunHist(evs);
    var x := Run(evs).recs[r];
    assert RecHist(evs, r, x) && WorkInv(Run(evs), x);
  }

  // ---- Snapshots, buckets and counters ---------------------------------------------------

  /** Records inside a section hold the global epoch or the one before it. */
  lemma SnapshotWindow(evs: seq<Event>, r: nat)
    requires r < |Run(evs).recs| && Run(evs).recs[r].active > 0
    requires !Run(evs).recs[r].pc.BeginLoad? && !Run(evs).recs[r].pc.BeginStore?
    ensures Run(evs).g - 1 <= Run(evs).recs[r].epoch <= Run(evs).g
  {
    RunInv(evs);
    assert RecInv(Run(evs).recs[r], Run(evs).g);
  }

  /** The global epoch is advanced by nothing but increments of one. */
  lemma EpochGrowsByOne(evs: seq<Event>)
    requires evs != []
    ensures var before := Run(evs[..|evs| - 1]).g; before <= Run(evs).g <= before + 1
  {
    var s := Run(evs[..|evs| - 1]);
    var ev := evs[|evs| - 1];
    assert Run(evs) == Step(s, ev, |evs| - 1);
    if ev.Do? && ev.r < |s.recs| { ContinueFrame(s, ev.r); }
  }

  /** Two buckets suffice: sections sharing a bucket share an epoch, sections in different
      buckets are one epoch apart, and no open section is older than the record's epoch. */
  lemma TwoBucketsSuffice(evs: seq<Event>, r: nat, j: nat, k: nat)
    requires r < |Run(evs).recs|
    requires j in Run(evs).recs[r].open && k in Run(evs).recs[r].open
    ensures var x := Run(evs).recs[r];
            && x.epoch <= x.open[j].epoch <= x.epoch + 1
            && (x.open[j].bucket.In? && x.open[k].bucket.In? ==>
                  (x.open[j].bucket == x.open[k].bucket <==> x.open[j].epoch == x.open[k].epoch))
  {
    RunInv(evs);
    OpenPair(Run(evs).recs[r], Run(evs).g, j, k);
  }

  lemma OpenPair(x: Rec, g: nat, j: nat, k: nat)
    requires RecInv(x, g) && j in x.open && k in x.open
    ensures x.epoch <= x.open[j].epoch <= x.epoch + 1
    ensures x.open[j].bucket.In? && x.open[k].bucket.In? ==>
              (x.open[j].bucket == x.open[k].bucket <==> x.open[j].epoch == x.open[k].epoch)
  {
    assert |x.open| > 0;
    if x.open[j].bucket.In? { assert j in Refs(x.open, x.open[j].bucket.i); }
    if x.open[k].bucket.In? { assert k in Refs(x.open, x.open[k].bucket.i); }
  }

  /** Closing the last section of the older bucket moves the record to the epoch of every
      section that is still open. */
  lemma OlderBucketReleased(evs: seq<Event>, r: nat, i: nat)
    requires r < |Run(evs).recs| && Run(evs).recs[r].pc == DelRef(i)
    requires var x := Run(evs).recs[r];
             && |x.bucket| == 2 && i < 2
             && (forall k :: k in x.open ==> x.open[k].bucket != In(i))
             && (forall k :: k in x.open ==> x.open[k].epoch > x.bucket[i].epoch)
             && x.open != map[]
    ensures var y := Release(Run(evs).recs[r], i);
            forall k :: k in y.open ==> y.epoch == y.open[k].epoch
  {
    RunInv(evs);
    var x := Run(evs).recs[r];
    assert RecInv(x, Run(evs).g);
    NoRefs(x.open, i);
    forall k | k in x.open ensures x.open[k].bucket == In((i + 1) % 2) {
      assert !x.open[k].bucket.Plain?;
    }
    var k :| k in x.open;
    assert k in Refs(x.open, (i + 1) % 2);
  }

  /** Between operations n_pending is the number of callbacks waiting in the four lists and in
      the lists taken off by dispatches whose callbacks are in progress; with n_dispatch it
      accounts for every callback deferred. */
  lemma PendingIsExact(evs: seq<Event>, r: nat)
    requires r < |Run(evs).recs| && Run(evs).recs[r].pc.Idle?
    ensures var x := Run(evs).recs[r];
            && |x.pending| == LENGTH
            && x.nPending == Total(x.pending) + Taken(x.frames)
            && (x.frames == [] ==> x.nPending == Total(x.pending))
            && x.nPending + x.nDispatch == x.calls
  {
    RunInv(evs);
    assert RecInv(Run(evs).recs[r], Run(evs).g);
  }
}
