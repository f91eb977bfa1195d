/**
 What barrier and poll have done when they return. A call is followed through the schedule, across the
 callbacks it runs and whatever these do, until the record is back at the depth of the call.
 */
module EpochCalls {
  import opened EpochModel
  import opened EpochInvariant
  import opened EpochOrder
  import opened EpochSafety
  import opened EpochCallbacks

  // ---- A call under way -----------------------------------------------------------------------------------

  /** The call will dispatch list m: it is a barrier, or has chosen its lists and m is among them. */
  ghost predicate WillTake(pc: PC, m: nat)
    requires pc.Head? || pc.Look? || pc.Recheck? || pc.Tick? || pc.Publish?
  {
    if pc.Publish? then pc.next <= m < pc.end else pc.job.reclaim && !pc.job.poll
  }

  /** The call of event `at`, made at callback depth D, is under way and takes list m. */
  ghost predicate Inside(x: Rec, at: nat, D: nat, m: nat) {
    || (Scanning(x) && x.pc.job.startedAt == at && |x.frames| == D && WillTake(x.pc, m))
    || (x.pc.Drain? && x.pc.d.since == at && |x.frames| == D && Takes(x.pc.d, m))
    || (|x.frames| > D && x.frames[D].since == at && Takes(x.frames[D], m))
  }

  lemma ScanInside(s: State, r: nat, at: nat, D: nat, m: nat)
    requires Inv(s) && r < |s.recs| && Scanning(s.recs[r]) && !s.recs[r].pc.Publish? && m < LENGTH
    requires s.recs[r].pc.job.startedAt == at && |s.recs[r].frames| == D && WillTake(s.recs[r].pc, m)
    ensures Inside(Continue(s, r).recs[r], at, D, m)
  {
    assert JobInv(s, s.recs[r]);
  }

  lemma PublishInside(s: State, r: nat, at: nat, D: nat, m: nat)
    requires Inv(s) && r < |s.recs| && s.recs[r].pc.Publish? && m < LENGTH
    requires s.recs[r].pc.job.startedAt == at && |s.recs[r].frames| == D && WillTake(s.recs[r].pc, m)
    ensures Inside(Published(s.recs[r]), at, D, m)
  {
    assert JobInv(s, s.recs[r]);
  }

  lemma DrainInside(s: State, r: nat, at: nat, D: nat, m: nat)
    requires Inv(s) && r < |s.recs| && s.recs[r].pc.Drain? && Inside(s.recs[r], at, D, m)
    ensures Inside(DrainStep(s.recs[r]), at, D, m) || (|s.recs[r].frames| == D && OverList(s, r, at, m))
  {
    assert RecInv(s.recs[r], s.g) && JobInv(s, s.recs[r]);
  }

  lemma ContinueInside(s: State, r: nat, at: nat, D: nat, m: nat)
    requires Inv(s) && r < |s.recs| && s.recs[r].used && !s.recs[r].pc.Idle? && m < LENGTH
    requires Inside(s.recs[r], at, D, m)
    ensures Inside(Continue(s, r).recs[r], at, D, m) || (|s.recs[r].frames| == D && OverList(s, r, at, m))
  {
    var x := s.recs[r];
    if x.pc.Drain? {
      DrainInside(s, r, at, D, m);
    } else if |x.frames| > D {
      ContinueFrames(s, r);
    } else if x.pc.Publish? {
      PublishInside(s, r, at, D, m);
    } else {
      ScanInside(s, r, at, D, m);
    }
  }

  lemma ContinueFrames(s: State, r: nat)
    requires Inv(s) && r < |s.recs| && !s.recs[r].pc.Drain?
    ensures Continue(s, r).recs[r].frames == s.recs[r].frames
  {
    assert RecInv(s.recs[r], s.g);
  }

  lemma StartInside(s: State, r: nat, op: Op, now: nat, at: nat, D: nat, m: nat)
    requires Inv(s) && r < |s.recs| && s.recs[r].pc.Idle? && MayStart(s.recs[r], op)
    requires Inside(s.recs[r], at, D, m)
    ensures Inside(Start(s, r, op, now).recs[r], at, D, m)
  {
  }

  lemma StepInside(s: State, ev: Event, now: nat, r: nat, at: nat, D: nat, m: nat)
    requires Inv(s) && r < |s.recs| && m < LENGTH && Inside(s.recs[r], at, D, m)
    ensures r < |Step(s, ev, now).recs|
    ensures Inside(Step(s, ev, now).recs[r], at, D, m) || OverList(s, r, at, m)
  {
    if ev.Do? && ev.r < |s.recs| && s.recs[ev.r].used {
      if !s.recs[ev.r].pc.Idle? {
        ContinueFrame(s, ev.r);
        if ev.r == r { ContinueInside(s, r, at, D, m); }
      } else if MayStart(s.recs[ev.r], ev.op) && ev.r == r {
        StartInside(s, r, ev.op, now, at, D, m);
      }
    }
  }

  // ---- Entries that are settled -----------------------------------------------------------------------------

  /** The entry is off its list and in the hands of a dispatch. */
  ghost predicate InHand(x: Rec, en: Entry) { TakenOutside(x, en) || (x.pc.Drain? && en in x.pc.d.queue) }

  lemma DrainInHand(x: Rec, en: Entry)
    requires x.pc.Drain? && InHand(x, en)
    ensures InHand(DrainStep(x), en) || (x.pc.d.queue != [] && x.pc.d.queue[0] == en)
  {
    var d, y := x.pc.d, DrainStep(x);
    if d.queue != [] { assert y.frames[|x.frames|] == d; }
    if k :| 0 <= k < |x.frames| && InRest(x.frames[k], en) { assert InRest(y.frames[k], en); }
  }

  lemma ReturnInHand(x: Rec, en: Entry)
    requires x.frames != [] && x.pc.Idle? && InHand(x, en)
    ensures InHand(Returned(x), en)
  {
    var y := Returned(x);
    var k :| 0 <= k < |x.frames| && InRest(x.frames[k], en);
    if k < |y.frames| { assert InRest(y.frames[k], en); }
  }

  lemma StepInHand(s: State, ev: Event, now: nat, r: nat, en: Entry)
    requires Inv(s) && r < |s.recs| && InHand(s.recs[r], en)
    ensures r < |Step(s, ev, now).recs|
    ensures InHand(Step(s, ev, now).recs[r], en) || AtHead(s, r, en)
  {
    var x := s.recs[r];
    if ev.Do? && ev.r < |s.recs| && s.recs[ev.r].used {
      if !s.recs[ev.r].pc.Idle? {
        ContinueFrame(s, ev.r);
        if ev.r == r {
          if x.pc.Drain? { DrainInHand(x, en); } else { ContinueFrames(s, r); }
        }
      } else if MayStart(s.recs[ev.r], ev.op) && ev.r == r {
        if ev.op.Return? { ReturnInHand(x, en); }
      }
    }
  }

  ghost predicate AtHead(s: State, r: nat, en: Entry) {
    r < |s.recs| && s.recs[r].pc.Drain? && s.recs[r].pc.d.queue != [] && s.recs[r].pc.d.queue[0] == en
  }

  /** In state s, after events evs, the entry has been run or is in hand. */
  ghost predicate Settled(evs: seq<Event>, s: State, t: nat, r: nat, en: Entry) {
    CalledSince(evs, t, r, en) || (r < |s.recs| && InHand(s.recs[r], en))
  }

  lemma SettledStep(front: seq<Event>, evs: seq<Event>, s: State, s': State, t: nat, r: nat, en: Entry)
    requires |evs| == |front| + 1 && evs[..|front|] == front && t < |front| && Inv(s)
    requires s == Run(front) && s' == Step(s, evs[|front|], |front|)
    requires Settled(front, s, t, r, en)
    ensures Settled(evs, s', t, r, en)
  {
    if CalledSince(front, t, r, en) || AtHead(s, r, en) {
      CalledGrows(front, evs, t, r, en);
    } else {
      StepInHand(s, evs[|front|], |front|, r, en);
    }
  }

  // ---- From the call to its return ------------------------------------------------------------------------------

  lemma RunNext(evs: seq<Event>, n: nat)
    requires n < |evs|
    ensures evs[..n + 1][..n] == evs[..n] && evs[..n + 1][n] == evs[n]
    ensures Run(evs[..n + 1]) == Step(Run(evs[..n]), evs[n], n)
  {
    assert evs[..n + 1][..n] == evs[..n];
  }

  /** The call is under way, or the entry is settled. */
  ghost predicate FollowedIn(evs: seq<Event>, s: State, at: nat, D: nat, t: nat, r: nat, en: Entry) {
    r < |s.recs| && (Inside(s.recs[r], at, D, en.epoch % LENGTH) || Settled(evs, s, t, r, en))
  }

  ghost predicate Followed(evs: seq<Event>, n: nat, at: nat, D: nat, t: nat, r: nat, en: Entry) {
    n <= |evs| && FollowedIn(evs[..n], Run(evs[..n]), at, D, t, r, en)
  }

  /** The dispatch is over: the entry has been run, or an enclosing dispatch holds it. */
  lemma OverSettles(evs: seq<Event>, at: nat, t: nat, r: nat, id: nat)
    requires Defers(evs, t, r, id) && t < at && OverList(Run(evs), r, at, Run(evs[..t]).g % LENGTH)
    ensures Settled(evs, Run(evs), t, r, Deferral(Run(evs[..t]), r, id, t))
  {
    EarlyEntriesRun(evs, t, r, id, at);
  }

  lemma FollowNext(front: seq<Event>, evs: seq<Event>, s: State, s': State, at: nat, D: nat, t: nat, r: nat, en: Entry)
    requires |evs| == |front| + 1 && evs[..|front|] == front && t < at < |front| && Inv(s)
    requires s == Run(front) && s' == Step(s, evs[|front|], |front|)
    requires FollowedIn(front, s, at, D, t, r, en)
    requires OverList(s, r, at, en.epoch % LENGTH) ==> Settled(front, s, t, r, en)
    ensures FollowedIn(evs, s', at, D, t, r, en)
  {
    StepRecords(s, evs[|front|], |front|);
    if Settled(front, s, t, r, en) {
      SettledStep(front, evs, s, s', t, r, en);
    } else {
      StepInside(s, evs[|front|], |front|, r, at, D, en.epoch % LENGTH);
    }
  }

  lemma FollowStep(evs: seq<Event>, n: nat, at: nat, D: nat, t: nat, r: nat, id: nat, en: Entry)
    requires Defers(evs, t, r, id) && t < at < n < |evs| && en == Deferral(Run(evs[..t]), r, id, t)
    requires Followed(evs, n, at, D, t, r, en)
    ensures Followed(evs, n + 1, at, D, t, r, en)
  {
    var front := evs[..n];
    assert front[..t] == evs[..t] && front[t] == evs[t];
    RunNext(evs, n);
    RunInv(front);
    if OverList(Run(front), r, at, en.epoch % LENGTH) { OverSettles(front, at, t, r, id); }
    FollowNext(front, evs[..n + 1], Run(front), Run(evs[..n + 1]), at, D, t, r, en);
  }

  lemma {:induction false} FollowOn(evs: seq<Event>, n: nat, at: nat, D: nat, t: nat, r: nat, id: nat)
    requires Defers(evs, t, r, id) && t < at < n <= |evs|
    requires Followed(evs, n, at, D, t, r, Deferral(Run(evs[..t]), r, id, t))
    ensures Followed(evs, |evs|, at, D, t, r, Deferral(Run(evs[..t]), r, id, t))
    decreases |evs| - n
  {
    if n < |evs| {
      FollowStep(evs, n, at, D, t, r, id, Deferral(Run(evs[..t]), r, id, t));
      FollowOn(evs, n + 1, at, D, t, r, id);
    }
  }

  /** Event `at` of the schedule makes record r start the operation. */
  ghost predicate Starts(evs: seq<Event>, at: nat, r: nat, op: Op) {
    && at < |evs| && evs[at] == Do(r, op) && r < |Run(evs[..at]).recs|
    && Run(evs[..at]).recs[r].used && Run(evs[..at]).recs[r].pc.Idle? && MayStart(Run(evs[..at]).recs[r], op)
  }

  /** Record r is back from the call of event `at`: idle, and no deeper in callbacks than it was. */
  ghost predicate Back(evs: seq<Event>, at: nat, r: nat)
    requires at < |evs| && r < |Run(evs[..at]).recs|
  {
    && r < |Run(evs).recs| && Run(evs).recs[r].pc.Idle?
    && |Run(evs).recs[r].frames| <= |Run(evs[..at]).recs[r].frames|
  }

  /** The entry that event t defers has been run, or an enclosing dispatch has taken it. */
  ghost predicate Delivered(evs: seq<Event>, t: nat, r: nat, id: nat)
    requires Defers(evs, t, r, id) && r < |Run(evs).recs|
  {
    var en := Deferral(Run(evs[..t]), r, id, t);
    CalledSince(evs, t, r, en) || TakenOutside(Run(evs).recs[r], en)
  }

  lemma FollowedBack(evs: seq<Event>, at: nat, D: nat, t: nat, r: nat, id: nat)
    requires Defers(evs, t, r, id) && at < |evs| && r < |Run(evs[..at]).recs| && Back(evs, at, r)
    requires D == |Run(evs[..at]).recs[r].frames|
    requires Followed(evs, |evs|, at, D, t, r, Deferral(Run(evs[..t]), r, id, t))
    ensures Delivered(evs, t, r, id)
  {
    assert evs[..|evs|] == evs;
  }

  lemma BarrierBegins(evs: seq<Event>, at: nat, r: nat, m: nat)
    requires Starts(evs, at, r, Synchronize(true))
    ensures r < |Run(evs[..at + 1]).recs|
    ensures Inside(Run(evs[..at + 1]).recs[r], at, |Run(evs[..at]).recs[r].frames|, m)
  {
    RunNext(evs, at);
    assert Step(Run(evs[..at]), evs[at], at) == Start(Run(evs[..at]), r, Synchronize(true), at);
  }

  lemma BarrierFollowed(evs: seq<Event>, at: nat, r: nat, t: nat, id: nat, D: nat)
    requires Starts(evs, at, r, Synchronize(true)) && Defers(evs, t, r, id) && t < at
    requires D == |Run(evs[..at]).recs[r].frames|
    ensures Followed(evs, |evs|, at, D, t, r, Deferral(Run(evs[..t]), r, id, t))
  {
    BarrierBegins(evs, at, r, Run(evs[..t]).g % LENGTH);
    FollowOn(evs, at + 1, at, D, t, r, id);
  }

  /** When a barrier returns, every callback that its record had deferred before it has been run, or has been
      taken by a dispatch whose callback called the barrier. */
  lemma BarrierRuns(evs: seq<Event>, at: nat, r: nat, t: nat, id: nat)
    requires Starts(evs, at, r, Synchronize(true)) && Back(evs, at, r)
    requires Defers(evs, t, r, id) && t < at
    ensures r < |Run(evs).recs| && Delivered(evs, t, r, id)
  {
    var D := |Run(evs[..at]).recs[r].frames|;
    BarrierFollowed(evs, at, r, t, id, D);
    FollowedBack(evs, at, D, t, r, id);
  }

  // ---- Poll ---------------------------------------------------------------------------------------------------

  /** After n events record r leaves the poll or synchronize of event `at` by `exit`. */
  ghost predicate LeavesBy(evs: seq<Event>, n: nat, r: nat, at: nat, exit: Exit) {
    && n <= |evs| && r < |Run(evs[..n]).recs|
    && var pc := Run(evs[..n]).recs[r].pc; pc.Publish? && pc.job.startedAt == at && pc.exit == exit
  }

  /** After n events record r is in the scan of the call of event `at`, at callback depth D. */
  ghost predicate Scans(evs: seq<Event>, n: nat, r: nat, at: nat, D: nat) {
    && n <= |evs| && r < |Run(evs[..n]).recs| && Scanning(Run(evs[..n]).recs[r])
    && Run(evs[..n]).recs[r].pc.job.startedAt == at && |Run(evs[..n]).recs[r].frames| == D
  }

  lemma ScansBefore(evs: seq<Event>, n: nat, r: nat, at: nat, D: nat)
    requires Scans(evs, n, r, at, D)
    ensures n > 0 && r < |Run(evs[..n - 1]).recs| && |Run(evs[..n - 1]).recs[r].frames| == D
    ensures at == n - 1 || Scans(evs, n - 1, r, at, D)
  {
    if n > 0 {
      RunNext(evs, n - 1);
      RunInv(evs[..n - 1]);
      ScanBefore(Run(evs[..n - 1]), evs[n - 1], n - 1, r);
    }
  }

  /** While it scans, a record stays at the callback depth of the call. */
  lemma {:induction false} ScanDepth(evs: seq<Event>, n: nat, r: nat, at: nat, D: nat)
    requires Scans(evs, n, r, at, D)
    ensures at < n && r < |Run(evs[..at]).recs| && |Run(evs[..at]).recs[r].frames| == D
    decreases n
  {
    ScansBefore(evs, n, r, at, D);
    if at != n - 1 { ScanDepth(evs, n - 1, r, at, D); }
  }

  lemma ScanBefore(s: State, ev: Event, now: nat, r: nat)
    requires Inv(s) && r < |Step(s, ev, now).recs| && Scanning(Step(s, ev, now).recs[r])
    ensures r < |s.recs| && s.recs[r].frames == Step(s, ev, now).recs[r].frames
    ensures var at := Step(s, ev, now).recs[r].pc.job.startedAt;
            at == now || (Scanning(s.recs[r]) && s.recs[r].pc.job.startedAt == at)
  {
    if r >= |s.recs| {
      NewRecords(s, ev, now, r);
    } else if ev.Do? && ev.r < |s.recs| && s.recs[ev.r].used {
      if !s.recs[ev.r].pc.Idle? {
        ContinueFrame(s, ev.r);
        if ev.r == r { ContinueScans(s, r); }
      } else if MayStart(s.recs[ev.r], ev.op) && ev.r == r {
        StartScans(s, r, ev.op, now);
      }
    }
  }

  lemma ContinueScans(s: State, r: nat)
    requires Inv(s) && r < |s.recs| && s.recs[r].used && !s.recs[r].pc.Idle?
    ensures var y := Continue(s, r).recs[r];
            Scanning(y) ==> && y.frames == s.recs[r].frames && Scanning(s.recs[r])
                            && s.recs[r].pc.job.startedAt == y.pc.job.startedAt
  {
    if s.recs[r].pc.Drain? {
      assert Continue(s, r).recs[r] == DrainStep(s.recs[r]);
    } else {
      ContinueFrames(s, r);
      if !Scanning(s.recs[r]) { QuietNextRec(s.recs[r], s.g); }
    }
  }

  lemma StartScans(s: State, r: nat, op: Op, now: nat)
    requires r < |s.recs| && s.recs[r].pc.Idle? && MayStart(s.recs[r], op)
    ensures var y := Start(s, r, op, now).recs[r];
            Scanning(y) ==> y.frames == s.recs[r].frames && y.pc.job.startedAt == now
  {
  }

  /** When a poll that left its scan with list m among those to dispatch returns, every callback deferred to
      that list before it has been run, or taken by an enclosing dispatch. */
  lemma PollRuns(evs: seq<Event>, n: nat, r: nat, at: nat, exit: Exit, t: nat, id: nat)
    requires LeavesBy(evs, n, r, at, exit) && Defers(evs, t, r, id) && t < at < |evs|
    requires r < |Run(evs[..at]).recs| && Back(evs, at, r)
    requires var pc := Run(evs[..n]).recs[r].pc; pc.next <= Run(evs[..t]).g % LENGTH < pc.end
    ensures r < |Run(evs).recs| && Delivered(evs, t, r, id)
  {
    var D := |Run(evs[..n]).recs[r].frames|;
    ScanDepth(evs, n, r, at, D);
    FollowOn(evs, n, at, D, t, r, id);
    FollowedBack(evs, at, D, t, r, id);
  }

  /** A poll that found every record inactive has run all callbacks deferred before it. */
  lemma QuietPollRuns(evs: seq<Event>, n: nat, r: nat, at: nat, t: nat, id: nat)
    requires LeavesBy(evs, n, r, at, Quiet) && Defers(evs, t, r, id) && t < at < |evs|
    requires r < |Run(evs[..at]).recs| && Back(evs, at, r)
    ensures r < |Run(evs).recs| && Delivered(evs, t, r, id)
  {
    RunInv(evs[..n]);
    assert JobInv(Run(evs[..n]), Run(evs[..n]).recs[r]);
    PollRuns(evs, n, r, at, Quiet, t, id);
  }

  /** A poll that left after a tick has run the callbacks deferred before it to the list one after that of the
      epoch it was called in. */
  lemma TickPollRuns(evs: seq<Event>, n: nat, r: nat, at: nat, t: nat, id: nat)
    requires LeavesBy(evs, n, r, at, PollTick) && Defers(evs, t, r, id) && t < at < |evs|
    requires r < |Run(evs[..at]).recs| && Back(evs, at, r)
    requires Run(evs[..t]).g % LENGTH == (Run(evs[..at]).g + 1) % LENGTH
    ensures r < |Run(evs).recs| && Delivered(evs, t, r, id)
  {
    RunInv(evs[..n]);
    RunHist(evs[..n]);
    var x := Run(evs[..n]).recs[r];
    assert JobInv(Run(evs[..n]), x) && RecHist(evs[..n], r, x);
    assert evs[..n][..at] == evs[..at];
    PollRuns(evs, n, r, at, PollTick, t, id);
  }
}
