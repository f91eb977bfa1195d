/** Poll and synchronize that run undisturbed: how they leave their scan is decided by what is active. */
module EpochAlone {
  import opened EpochModel
  import opened EpochInvariant
  import opened EpochSafety

  /** k steps of record r. */
  function Alone(s: State, r: nat, k: nat): (s': State)
    requires r < |s.recs|
    ensures |s'.recs| == |s.recs|
  {
    if k == 0 then s else Continue(Alone(s, r, k - 1), r)
  }

  function At(s: State, r: nat, pc: PC): State
    requires r < |s.recs|
  {
    Upd(s, r, s.recs[r].(pc := pc))
  }

  /** One step more. */
  lemma Then(s0: State, r: nat, k: nat, x: State, y: State) returns (k': nat)
    requires r < |s0.recs| && Alone(s0, r, k) == x && r < |x.recs| && Continue(x, r) == y
    ensures k' == k + 1 && Alone(s0, r, k') == y
  {
    k' := k + 1;
  }

  predicate IsActive(c: Rec) { c.used && c.active > 0 }

  /** Some record up to `cur` is active. */
  ghost predicate ActiveTo(s: State, cur: nat) { exists j :: 0 <= j <= cur < |s.recs| && IsActive(s.recs[j]) }

  /** Some record up to `cur` is active at another epoch. */
  ghost predicate LaggingTo(s: State, e: nat, cur: nat) {
    exists j :: 0 <= j <= cur < |s.recs| && IsActive(s.recs[j]) && s.recs[j].epoch != e
  }

  ghost predicate SomeActive(s: State) { exists j :: 0 <= j < |s.recs| && IsActive(s.recs[j]) }

  ghost predicate SomeLagging(s: State) {
    exists j :: 0 <= j < |s.recs| && IsActive(s.recs[j]) && s.recs[j].epoch != s.g
  }

  lemma LookAlone(s0: State, k0: nat, s: State, r: nat, pc: PC) returns (k: nat)
    requires r < |s0.recs| && r < |s.recs| && pc.Look? && pc.cur < |s.recs|
    requires Alone(s0, r, k0) == At(s, r, pc)
    ensures k == k0 + 1 && Alone(s0, r, k) == At(s, r, LookNext(s, pc))
  {
    k := Then(s0, r, k0, At(s, r, pc), At(s, r, LookNext(s, pc)));
  }

  /** The visit to one record: it is passed, or the scan stops there. */
  lemma VisitAlone(s0: State, k0: nat, s: State, r: nat, job: Job, e: nat, cur: nat, af: bool)
    returns (k: nat, pc: PC)
    requires r < |s0.recs| && r < |s.recs| && cur < |s.recs|
    requires Alone(s0, r, k0) == At(s, r, Look(job, e, cur, af, LoadState))
    ensures Alone(s0, r, k) == At(s, r, pc)
    ensures var c := s.recs[cur];
            pc == if IsActive(c) && c.epoch != e then ScanStop(job, e, cur)
                  else Advance(job, e, cur, af || IsActive(c))
  {
    pc := Look(job, e, cur, af, LoadState);
    k := LookAlone(s0, k0, s, r, pc);
    pc := LookNext(s, pc);
    if s.recs[cur].used {
      k := LookAlone(s0, k, s, r, pc);
      pc := LookNext(s, pc);
      if s.recs[cur].active > 0 {
        k := LookAlone(s0, k, s, r, pc);
        pc := LookNext(s, pc);
      }
    }
  }

  /** The scan from record `cur` on. */
  lemma {:induction false} ScanAlone(s0: State, k0: nat, s: State, r: nat, job: Job, e: nat, cur: nat, af: bool)
    returns (k: nat, pc: PC, c: nat)
    requires r < |s0.recs| && r < |s.recs| && cur < |s.recs|
    requires Alone(s0, r, k0) == At(s, r, Look(job, e, cur, af, LoadState))
    ensures Alone(s0, r, k) == At(s, r, pc)
    ensures pc == if LaggingTo(s, e, cur) then ScanStop(job, e, c) else ScanEnd(job, e, af || ActiveTo(s, cur))
    decreases cur
  {
    k, pc := VisitAlone(s0, k0, s, r, job, e, cur, af);
    c := cur;
    var here := IsActive(s.recs[cur]);
    if !(here && s.recs[cur].epoch != e) && cur > 0 {
      k, pc, c := ScanAlone(s0, k, s, r, job, e, cur - 1, af || here);
      assert LaggingTo(s, e, cur) <==> LaggingTo(s, e, cur - 1);
      assert ActiveTo(s, cur) <==> here || ActiveTo(s, cur - 1);
    }
  }

  /** A whole scan, from the state in which the job has read the global epoch. */
  lemma WholeScan(s: State, r: nat, job: Job) returns (k: nat, pc: PC, c: nat)
    requires r < |s.recs|
    ensures Alone(At(s, r, Head(job, s.g)), r, k) == At(s, r, pc)
    ensures pc == if SomeLagging(s) then ScanStop(job, s.g, c) else ScanEnd(job, s.g, SomeActive(s))
  {
    var s0, last := At(s, r, Head(job, s.g)), |s.recs| - 1;
    var look := Look(job, s.g, last, false, LoadState);
    k := 0;
    k := Then(s0, r, k, s0, At(s, r, look));
    k, pc, c := ScanAlone(s0, k, s, r, job, s.g, last, false);
    assert LaggingTo(s, s.g, last) <==> SomeLagging(s);
    assert ActiveTo(s, last) <==> SomeActive(s);
  }

  /** Record r leaves the call of event `at` by `exit`, with everything else as in s but the global epoch. */
  ghost predicate Leaving(s: State, s': State, r: nat, at: nat, exit: Exit) {
    && r < |s.recs| == |s'.recs| && s'.recs == s.recs[r := s.recs[r].(pc := s'.recs[r].pc)]
    && s'.recs[r].pc.Publish? && s'.recs[r].pc.job.startedAt == at && s'.recs[r].pc.exit == exit
  }

  /** An undisturbed poll leaves without dispatching if some active record is at another epoch, advances the
      epoch if all active records are at the current one, and otherwise finds everybody inactive. */
  lemma PollAlone(evs: seq<Event>, r: nat) returns (k: nat)
    requires var s := Run(evs); r < |s.recs| && s.recs[r].used && s.recs[r].pc.Idle? && s.recs[r].active == 0
    ensures var s := Run(evs);
            var s1 := Step(s, Do(r, Poll), |evs|);
            && r < |s1.recs|
            && var s' := Alone(s1, r, k);
               if SomeLagging(s) then s'.g == s.g && Leaving(s, s', r, |evs|, Busy)
               else if SomeActive(s) then s'.g == s.g + 1 && Leaving(s, s', r, |evs|, PollTick)
               else s'.g == s.g && Leaving(s, s', r, |evs|, Quiet)
  {
    var s := Run(evs);
    var job := NewJob(s, true, false, |evs|);
    assert Step(s, Do(r, Poll), |evs|) == At(s, r, Head(job, s.g));
    k := PollScan(s, r, job);
  }

  lemma PollScan(s: State, r: nat, job: Job) returns (k: nat)
    requires r < |s.recs| && job.poll
    ensures var s' := Alone(At(s, r, Head(job, s.g)), r, k);
            if SomeLagging(s) then s'.g == s.g && Leaving(s, s', r, job.startedAt, Busy)
            else if SomeActive(s) then s'.g == s.g + 1 && Leaving(s, s', r, job.startedAt, PollTick)
            else s'.g == s.g && Leaving(s, s', r, job.startedAt, Quiet)
  {
    var s0 := At(s, r, Head(job, s.g));
    var pc, c;
    k, pc, c := WholeScan(s, r, job);
    if !SomeLagging(s) && SomeActive(s) {
      var y := At(s.(g := s.g + 1), r, TickNext(s.g + 1, pc));
      k := Then(s0, r, k, At(s, r, pc), y);
    }
  }

  /** An undisturbed synchronize that finds nobody active returns at once, with all sections closed. */
  lemma SynchronizeAlone(evs: seq<Event>, r: nat, reclaim: bool) returns (k: nat)
    requires var s := Run(evs); r < |s.recs| && s.recs[r].used && s.recs[r].pc.Idle? && s.recs[r].active == 0
    requires !SomeActive(Run(evs))
    ensures var s := Run(evs);
            var s1 := Step(s, Do(r, Synchronize(reclaim)), |evs|);
            && r < |s1.recs| && Leaving(s, Alone(s1, r, k), r, |evs|, SyncQuiet(0, false))
  {
    var s := Run(evs);
    var job := NewJob(s, false, reclaim, |evs|);
    assert Step(s, Do(r, Synchronize(reclaim)), |evs|) == At(s, r, Head(job, s.g));
    var pc, c;
    k, pc, c := WholeScan(s, r, job);
  }

  /** With some record active, and all of them at the current epoch, the first pass of an undisturbed
      synchronize advances the epoch. */
  lemma FirstPassAlone(s: State, r: nat, job: Job) returns (k: nat)
    requires r < |s.recs| && !job.poll && job.iter == 0 && SomeActive(s) && !SomeLagging(s)
    ensures var s' := Alone(At(s, r, Head(job, s.g)), r, k);
            s' == At(s.(g := s.g + 1), r, Head(job.(iter := 1, resumed := false), s.g + 1))
  {
    var pc, c;
    k, pc, c := WholeScan(s, r, job);
    var y := At(s.(g := s.g + 1), r, TickNext(s.g + 1, pc));
    k := Then(At(s, r, Head(job, s.g)), r, k, At(s, r, pc), y);
  }

  /** The second pass that finds all active records at the current epoch advances it once more and is the last. */
  lemma SecondPassAlone(s: State, r: nat, job: Job) returns (k: nat)
    requires r < |s.recs| && !job.poll && job.iter == 1 && SomeActive(s) && !SomeLagging(s)
    ensures var s' := Alone(At(s, r, Head(job, s.g)), r, k);
            s'.g == s.g + 1 && Leaving(s, s', r, job.startedAt, SyncGrace)
  {
    var pc, c;
    k, pc, c := WholeScan(s, r, job);
    var y := At(s.(g := s.g + 1), r, TickNext(s.g + 1, pc));
    k := Then(At(s, r, Head(job, s.g)), r, k, At(s, r, pc), y);
  }

  /** Once a synchronize has stopped at a lagging record it goes on from there only while the global epoch is the
      one it scans for. Otherwise the pass is over: the call returns if that was the second, or if the epoch is
      three past the one it started from, and else starts its second pass at the epoch it read. */
  lemma PassEnds(evs: seq<Event>, r: nat, op: Op)
    requires r < |Run(evs).recs| && Run(evs).recs[r].used && Run(evs).recs[r].pc.Recheck?
    ensures var s := Run(evs);
            var pc, pc' := s.recs[r].pc, Step(s, Do(r, op), |evs|).recs[r].pc;
            && (s.g == pc.e <==> pc'.Look?) && (pc'.Look? ==> pc'.cur == pc.cur && pc'.e == pc.e)
            && (s.g != pc.e ==> (pc'.Publish? <==> pc.job.iter == 1 || s.g >= pc.job.start + 3))
            && (s.g != pc.e && !pc'.Publish? ==> pc'.Head? && pc'.e == s.g && pc'.job.iter == 1)
            && pc.job.iter < 2
  {
    RunInv(evs);
    assert JobInv(Run(evs), Run(evs).recs[r]);
  }

  /** An unregistered record is free after its two steps, and comes back as it was made. */
  lemma UnregisterAlone(evs: seq<Event>, r: nat)
    requires var s := Run(evs);
             r < |s.recs| && s.recs[r].used && s.recs[r].pc.Idle? && MayStart(s.recs[r], Unregister)
    ensures var s := Run(evs);
            var s1 := Step(s, Do(r, Unregister), |evs|);
            var s2 := Step(s1, Do(r, Unregister), |evs| + 1);
            && r < |s1.recs| && s1.recs[r].used && r < |s2.recs| && !s2.recs[r].used
            && Step(s2, Recycle(r), |evs| + 2) == Upd(s, r, FRESH_REC.(serials := s.recs[r].serials))
  {
    var s := Run(evs);
    RunInv(evs);
    assert RecInv(s.recs[r], s.g);
    Closed(s.recs[r], s.g);
    UnregisterSteps(s, r, |evs|);
  }

  lemma UnregisterSteps(s: State, r: nat, now: nat)
    requires r < |s.recs| && s.recs[r].used && s.recs[r].pc.Idle? && s.recs[r].active == 0 && s.recs[r].frames == []
    requires s.recs[r].pending == [[], [], [], []] && s.recs[r].open == map[]
    ensures var s1 := Step(s, Do(r, Unregister), now);
            var s2 := Step(s1, Do(r, Unregister), now + 1);
            && r < |s1.recs| && s1.recs[r].used && r < |s2.recs| && !s2.recs[r].used
            && Step(s2, Recycle(r), now + 2) == Upd(s, r, FRESH_REC.(serials := s.recs[r].serials))
  {
    var n := s.recs[r].serials;
    var y1 := FRESH_REC.(serials := n, pc := UnregisterState);
    var y2 := FRESH_REC.(serials := n, used := false);
    assert Step(s, Do(r, Unregister), now) == Upd(s, r, y1);
    assert Step(Upd(s, r, y1), Do(r, Unregister), now + 1) == Upd(s, r, y2);
    assert Step(Upd(s, r, y2), Recycle(r), now + 2) == Upd(s, r, FRESH_REC.(serials := n));
  }
}
