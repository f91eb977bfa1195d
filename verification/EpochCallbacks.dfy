/**
 Callbacks that defer. ck_epoch_dispatch detaches one list at a time, so an entry that a callback
 defers to a list the same dispatch has still to take is run by that dispatch, whatever sections
 are open. This module says exactly when that happens, and that no entry is ever lost.
 */
module EpochCallbacks {
  import opened EpochModel
  import opened EpochInvariant
  import opened EpochOrder
  import opened EpochSafety

  // ---- No entry is lost -----------------------------------------------------------------

  /** Event t of the schedule defers a callback `id` of record r. */
  ghost predicate Defers(evs: seq<Event>, t: nat, r: nat, id: nat) {
    && t < |evs| && evs[t] == Do(r, Call(id)) && r < |Run(evs[..t]).recs|
    && Run(evs[..t]).recs[r].used && Run(evs[..t]).recs[r].pc.Idle?
  }

  /** The entry is in a list, or in a list taken off by a dispatch and not yet called. */
  ghost predicate Waiting(x: Rec, en: Entry) {
    || (exists m :: 0 <= m < |x.pending| && en in x.pending[m])
    || (x.pc.Drain? && en in x.pc.d.queue)
    || (exists k :: 0 <= k < |x.frames| && InRest(x.frames[k], en))
  }

  ghost predicate InRest(d: Dispatch, en: Entry) { d.queue != [] && en in d.queue[1..] }

  /** Record r is about to run the callback. */
  ghost predicate Called(evs: seq<Event>, r: nat, en: Entry) {
    && r < |Run(evs).recs| && Run(evs).recs[r].pc.Drain?
    && Run(evs).recs[r].pc.d.queue != [] && Run(evs).recs[r].pc.d.queue[0] == en
  }

  lemma DrainWaiting(x: Rec, en: Entry)
    requires x.pc.Drain? && Waiting(x, en) && DispatchShape(x.pc.d) && |x.pending| == LENGTH
    ensures Waiting(DrainStep(x), en) || (x.pc.d.queue != [] && x.pc.d.queue[0] == en)
  {
    var d := x.pc.d;
    var y := DrainStep(x);
    if d.queue != [] {
      assert y.frames[|x.frames|] == d;
      if k :| 0 <= k < |x.frames| && InRest(x.frames[k], en) { assert InRest(y.frames[k], en); }
    } else if m :| 0 <= m < |x.pending| && en in x.pending[m] {
      assert d.next < d.end && d.next != m ==> en in y.pending[m];
    }
  }

  lemma ReturnWaiting(x: Rec, en: Entry)
    requires x.frames != [] && x.pc.Idle? && Waiting(x, en)
    ensures Waiting(Returned(x), en)
  {
    var y := Returned(x);
    if k :| 0 <= k < |x.frames| && InRest(x.frames[k], en) {
      if k < |y.frames| { assert InRest(y.frames[k], en); }
    }
  }

  lemma CallWaiting(x: Rec, en: Entry, added: Entry)
    requires |x.pending| == LENGTH && x.pc.Idle?
    ensures Waiting(Deferred(x, added), added)
    ensures Waiting(x, en) ==> Waiting(Deferred(x, added), en)
  {
    var y := Deferred(x, added);
    var slot := added.epoch % LENGTH;
    assert y.pending[slot][0] == added;
    if m :| 0 <= m < |x.pending| && en in x.pending[m] {
      assert en in y.pending[m];
    }
  }

  lemma SameWaiting(x: Rec, y: Rec, en: Entry)
    requires Waiting(x, en) && !x.pc.Drain? && y.pending == x.pending && y.frames == x.frames
    ensures Waiting(y, en)
  {
  }

  lemma StepWaiting(s: State, ev: Event, now: nat, r: nat, en: Entry)
    requires Inv(s) && r < |s.recs| && Waiting(s.recs[r], en)
    ensures r < |Step(s, ev, now).recs|
    ensures Waiting(Step(s, ev, now).recs[r], en)
            || (s.recs[r].pc.Drain? && s.recs[r].pc.d.queue != [] && s.recs[r].pc.d.queue[0] == en)
  {
    var x := s.recs[r];
    assert RecInv(x, s.g) && WorkInv(s, x);
    var y := Step(s, ev, now).recs[r];
    if ev.Do? && ev.r < |s.recs| && s.recs[ev.r].used {
      if !s.recs[ev.r].pc.Idle? {
        ContinueFrame(s, ev.r);
        if ev.r == r { ContinueWaiting(s, r, en); }
      } else if MayStart(s.recs[ev.r], ev.op) && ev.r == r {
        StartWaiting(s, r, ev.op, now, en);
      }
    }
  }

  lemma ContinueWaiting(s: State, r: nat, en: Entry)
    requires Inv(s) && r < |s.recs| && !s.recs[r].pc.Idle? && Waiting(s.recs[r], en)
    ensures Waiting(Continue(s, r).recs[r], en)
            || (s.recs[r].pc.Drain? && s.recs[r].pc.d.queue != [] && s.recs[r].pc.d.queue[0] == en)
  {
    var x := s.recs[r];
    assert RecInv(x, s.g) && WorkInv(s, x);
    if x.pc.Drain? { DrainWaiting(x, en); } else { SameWaiting(x, Continue(s, r).recs[r], en); }
  }

  lemma StartWaiting(s: State, r: nat, op: Op, now: nat, en: Entry)
    requires Inv(s) && r < |s.recs| && s.recs[r].pc.Idle? && Waiting(s.recs[r], en)
    requires MayStart(s.recs[r], op)
    ensures Waiting(Start(s, r, op, now).recs[r], en)
  {
    var x := s.recs[r];
    assert RecInv(x, s.g);
    if op.Call? { CallWaiting(x, en, Deferral(s, r, op.id, now)); }
    else if op.Return? { ReturnWaiting(x, en); }
    else { SameWaiting(x, Start(s, r, op, now).recs[r], en); }
  }

  ghost predicate CalledSince(evs: seq<Event>, t: nat, r: nat, en: Entry) {
    exists n :: t < n < |evs| && Called(evs[..n], r, en)
  }

  lemma CalledGrows(front: seq<Event>, evs: seq<Event>, t: nat, r: nat, en: Entry)
    requires |evs| == |front| + 1 && evs[..|front|] == front
    requires CalledSince(front, t, r, en) || (t < |front| && Called(front, r, en))
    ensures CalledSince(evs, t, r, en)
  {
    if n :| t < n < |front| && Called(front[..n], r, en) {
      assert evs[..n] == front[..n];
    } else {
      assert Called(evs[..|front|], r, en);
    }
  }

  /** The entry still waits on record r, or has been run. */
  ghost predicate Kept(evs: seq<Event>, t: nat, r: nat, en: Entry) {
    r < |Run(evs).recs| && (Waiting(Run(evs).recs[r], en) || CalledSince(evs, t, r, en))
  }

  lemma StepRecords(s: State, ev: Event, now: nat)
    ensures |s.recs| <= |Step(s, ev, now).recs|
  {
    if ev.Do? && ev.r < |s.recs| { ContinueFrame(s, ev.r); }
  }

  lemma JustDeferred(s: State, now: nat, r: nat, id: nat)
    requires r < |s.recs| && s.recs[r].used && s.recs[r].pc.Idle? && |s.recs[r].pending| == LENGTH
    ensures r < |Step(s, Do(r, Call(id)), now).recs|
    ensures Waiting(Step(s, Do(r, Call(id)), now).recs[r], Deferral(s, r, id, now))
  {
    var en := Deferral(s, r, id, now);
    CallWaiting(s.recs[r], en, en);
    assert Step(s, Do(r, Call(id)), now) == Upd(s, r, Deferred(s.recs[r], en));
  }

  lemma KeptStep(front: seq<Event>, evs: seq<Event>, t: nat, r: nat, en: Entry)
    requires |evs| == |front| + 1 && evs[..|front|] == front && t < |front|
    requires Kept(front, t, r, en)
    ensures Kept(evs, t, r, en)
  {
    StepRecords(Run(front), evs[|front|], |front|);
    if CalledSince(front, t, r, en) || Called(front, r, en) {
      CalledGrows(front, evs, t, r, en);
    } else {
      RunInv(front);
      StepWaiting(Run(front), evs[|front|], |front|, r, en);
    }
  }

  /** Every deferred callback still waits on its record, or has been run. */
  lemma {:induction false} NothingLost(evs: seq<Event>, t: nat, r: nat, id: nat)
    requires Defers(evs, t, r, id)
    ensures Kept(evs, t, r, Deferral(Run(evs[..t]), r, id, t))
  {
    KeptOn(evs, |evs|, t, r, id);
    assert evs[..|evs|] == evs;
  }

  lemma KeptFirst(evs: seq<Event>, t: nat, r: nat, id: nat)
    requires Defers(evs, t, r, id)
    ensures Kept(evs[..t + 1], t, r, Deferral(Run(evs[..t]), r, id, t))
  {
    var s := Run(evs[..t]);
    assert evs[..t + 1][..t] == evs[..t] && evs[..t + 1][t] == evs[t];
    RunInv(evs[..t]);
    assert RecInv(s.recs[r], s.g);
    JustDeferred(s, t, r, id);
  }

  lemma {:induction false} KeptOn(evs: seq<Event>, n: nat, t: nat, r: nat, id: nat)
    requires Defers(evs, t, r, id) && t < n <= |evs|
    ensures Kept(evs[..n], t, r, Deferral(Run(evs[..t]), r, id, t))
    decreases n
  {
    if n == t + 1 {
      KeptFirst(evs, t, r, id);
    } else {
      KeptOn(evs, n - 1, t, r, id);
      assert evs[..n][..n - 1] == evs[..n - 1];
      KeptStep(evs[..n - 1], evs[..n], t, r, Deferral(Run(evs[..t]), r, id, t));
    }
  }

  // ---- Entries run by the dispatch that deferred them --------------------------------------

  /** Record r is in a callback of d and about to choose its next operation. */
  ghost predicate InCallback(s: State, r: nat, d: Dispatch) {
    && r < |s.recs| && s.recs[r].used && s.recs[r].pc.Idle? && s.recs[r].frames != []
    && s.recs[r].frames[|s.recs[r].frames| - 1] == d
  }

  /** The dispatch will come to the entry if its callbacks do nothing but return. */
  ghost predicate Due(x: Rec, en: Entry) {
    && x.pc.Drain? && |x.pending| == LENGTH && x.pc.d.end <= LENGTH
    && (en in x.pc.d.queue || exists m :: x.pc.d.next <= m < x.pc.d.end && en in x.pending[m])
  }

  lemma SameOpen(s: State, r: nat, y: Rec)
    requires r < |s.recs| && y.open == s.recs[r].open
    ensures AllOpen(Upd(s, r, y)) == AllOpen(s)
  {
    forall w: Section ensures w in AllOpen(Upd(s, r, y)) <==> w in AllOpen(s) {
    }
  }

  /** A schedule that ends in state s after n events. */
  ghost predicate Reaches(evs: seq<Event>, n: nat, s: State) { |evs| == n && Run(evs) == s }

  lemma Extend(evs: seq<Event>, n: nat, s: State, ev: Event, s': State)
    requires Reaches(evs, n, s) && Step(s, ev, n) == s'
    ensures Reaches(evs + [ev], n + 1, s')
  {
    assert (evs + [ev])[..n] == evs;
  }

  lemma DrainMove(evs: seq<Event>, n: nat, s: State, r: nat)
    requires Reaches(evs, n, s) && r < |s.recs| && s.recs[r].used && s.recs[r].pc.Drain?
    ensures Reaches(evs + [Do(r, Poll)], n + 1, Upd(s, r, DrainStep(s.recs[r])))
  {
    Extend(evs, n, s, Do(r, Poll), Upd(s, r, DrainStep(s.recs[r])));
  }

  lemma CallMove(evs: seq<Event>, n: nat, s: State, r: nat, id: nat)
    requires Reaches(evs, n, s) && r < |s.recs| && s.recs[r].used && s.recs[r].pc.Idle?
    requires |s.recs[r].pending| == LENGTH
    ensures Reaches(evs + [Do(r, Call(id))], n + 1,
                    Upd(s, r, Deferred(s.recs[r], Deferral(s, r, id, n))))
  {
    Extend(evs, n, s, Do(r, Call(id)), Upd(s, r, Deferred(s.recs[r], Deferral(s, r, id, n))));
  }

  lemma ReturnMove(evs: seq<Event>, n: nat, s: State, r: nat)
    requires Reaches(evs, n, s) && r < |s.recs| && s.recs[r].used && s.recs[r].pc.Idle?
    requires s.recs[r].frames != []
    ensures Reaches(evs + [Do(r, Return)], n + 1, Upd(s, r, Returned(s.recs[r])))
  {
    Extend(evs, n, s, Do(r, Return), Upd(s, r, Returned(s.recs[r])));
  }

  function Skipped(x: Rec): Rec
    requires x.pc.Drain? && x.pc.d.queue != []
  {
    x.(pc := Drain(x.pc.d.(queue := x.pc.d.queue[1..], ran := x.pc.d.ran + 1)))
  }

  /** The first callback of the queue is called and returns. */
  lemma SkipMove(evs: seq<Event>, n: nat, s: State, r: nat)
    requires Reaches(evs, n, s) && r < |s.recs| && s.recs[r].used && s.recs[r].pc.Drain?
    requires s.recs[r].pc.d.queue != []
    ensures Reaches(evs + [Do(r, Poll)] + [Do(r, Return)], n + 2, Upd(s, r, Skipped(s.recs[r])))
  {
    var x := s.recs[r];
    var y := DrainStep(x);
    DrainMove(evs, n, s, r);
    ReturnMove(evs + [Do(r, Poll)], n + 1, Upd(s, r, y), r);
    assert Returned(y) == Skipped(x) by { assert y.frames[..|x.frames|] == x.frames; }
    assert Upd(Upd(s, r, y), r, Skipped(x)) == Upd(s, r, Skipped(x));
  }

  /** The record is about to run the entry, in the dispatch named. */
  ghost predicate AtEntry(x: Rec, en: Entry, since: nat, exit: Exit) {
    && x.pc.Drain? && x.pc.d.since == since && x.pc.d.exit == exit
    && x.pc.d.queue != [] && x.pc.d.queue[0] == en
  }

  lemma {:induction false} Drive(evs: seq<Event>, n: nat, s: State, r: nat, en: Entry)
    returns (post: seq<Event>, y: Rec)
    requires Reaches(evs, n, s) && r < |s.recs| && s.recs[r].used && Due(s.recs[r], en)
    ensures Reaches(evs + post, n + |post|, Upd(s, r, y)) && y.open == s.recs[r].open
    ensures AtEntry(y, en, s.recs[r].pc.d.since, s.recs[r].pc.d.exit)
    decreases LENGTH - s.recs[r].pc.d.next, |s.recs[r].pc.d.queue|
  {
    var x := s.recs[r];
    var d := x.pc.d;
    if d.queue != [] && d.queue[0] == en {
      post, y := [], x;
      assert evs + post == evs && Upd(s, r, x) == s;
    } else if d.queue != [] {
      SkipMove(evs, n, s, r);
      var s' := Upd(s, r, Skipped(x));
      post, y := Drive(evs + [Do(r, Poll)] + [Do(r, Return)], n + 2, s', r, en);
      assert evs + [Do(r, Poll)] + [Do(r, Return)] + post == evs + ([Do(r, Poll), Do(r, Return)] + post);
      assert Upd(s', r, y) == Upd(s, r, y);
      post := [Do(r, Poll), Do(r, Return)] + post;
    } else {
      DrainMove(evs, n, s, r);
      var s' := Upd(s, r, DrainStep(x));
      DueNext(x, en);
      post, y := Drive(evs + [Do(r, Poll)], n + 1, s', r, en);
      assert evs + [Do(r, Poll)] + post == evs + ([Do(r, Poll)] + post);
      assert Upd(s', r, y) == Upd(s, r, y);
      post := [Do(r, Poll)] + post;
    }
  }

  lemma DueNext(x: Rec, en: Entry)
    requires Due(x, en) && x.pc.d.queue == []
    ensures x.pc.d.next < x.pc.d.end && Due(DrainStep(x), en)
  {
    var m :| x.pc.d.next <= m < x.pc.d.end && en in x.pending[m];
    assert m == x.pc.d.next || en in DrainStep(x).pending[m];
  }

  /** The list of the current epoch is one the dispatch has still to take. */
  predicate StillToCome(d: Dispatch, g: nat) {
    !d.exit.PollTick? && d.queue != [] && d.queue[0].epoch % LENGTH < g % LENGTH
  }

  /** The callback defers the entry and returns: its list is taken later. */
  lemma LateDue(s: State, r: nat, d: Dispatch, en: Entry)
    requires Inv(s) && InCallback(s, r, d) && StillToCome(d, s.g) && en.epoch == s.g
    ensures |s.recs[r].pending| == LENGTH
    ensures Due(Returned(Deferred(s.recs[r], en)), en)
  {
    var x := s.recs[r];
    assert RecInv(x, s.g) && FramesInv(s, x);
    var y := Deferred(x, en);
    assert y.pending[s.g % LENGTH][0] == en;
    assert DispatchShape(d);
  }

  lemma DeferMove(evs: seq<Event>, n: nat, s: State, r: nat, id: nat, y: Rec)
    requires Reaches(evs, n, s) && r < |s.recs| && s.recs[r].used && s.recs[r].pc.Idle?
    requires |s.recs[r].pending| == LENGTH && s.recs[r].frames != []
    requires y == Returned(Deferred(s.recs[r], Deferral(s, r, id, n)))
    ensures Reaches(evs + [Do(r, Call(id))] + [Do(r, Return)], n + 2, Upd(s, r, y))
  {
    var c := Deferred(s.recs[r], Deferral(s, r, id, n));
    CallMove(evs, n, s, r, id);
    ReturnMove(evs + [Do(r, Call(id))], n + 1, Upd(s, r, c), r);
    assert Upd(Upd(s, r, c), r, y) == Upd(s, r, y);
  }

  /** A schedule in which the entry deferred next is run by the dispatch in progress, with every
      section that is open now still open. */
  lemma LateMoves(evs: seq<Event>, n: nat, s: State, r: nat, d: Dispatch, id: nat)
    returns (post: seq<Event>, y: Rec)
    requires Reaches(evs, n, s) && Inv(s) && InCallback(s, r, d) && StillToCome(d, s.g)
    ensures Reaches(evs + [Do(r, Call(id))] + post, n + 1 + |post|, Upd(s, r, y))
    ensures y.open == s.recs[r].open && AtEntry(y, Deferral(s, r, id, n), d.since, d.exit)
  {
    var en := Deferral(s, r, id, n);
    LateDue(s, r, d, en);
    var z := Returned(Deferred(s.recs[r], en));
    DeferMove(evs, n, s, r, id, z);
    post, y := Drive(evs + [Do(r, Call(id))] + [Do(r, Return)], n + 2, Upd(s, r, z), r, en);
    assert Upd(Upd(s, r, z), r, y) == Upd(s, r, y);
    Regroup(evs + [Do(r, Call(id))], [Do(r, Return)], post);
    post := [Do(r, Return)] + post;
  }

  lemma Regroup(a: seq<Event>, b: seq<Event>, c: seq<Event>)
    ensures a + b + c == a + (b + c)
  {
  }

  lemma LateRun(evs: seq<Event>, r: nat, d: Dispatch, id: nat) returns (post: seq<Event>)
    requires InCallback(Run(evs), r, d) && StillToCome(d, Run(evs).g)
    ensures Runs(evs + [Do(r, Call(id))] + post, r, Deferral(Run(evs), r, id, |evs|), d.since, d.exit)
    ensures AllOpen(Run(evs + [Do(r, Call(id))] + post)) == AllOpen(Run(evs))
  {
    RunInv(evs);
    var y;
    post, y := LateMoves(evs, |evs|, Run(evs), r, d, id);
    SameOpen(Run(evs), r, y);
  }

  /** The continuation `post` of a callback's deferral ends at the deferred entry, in the dispatch
      running the callback. */
  ghost predicate Overtakes(evs: seq<Event>, r: nat, d: Dispatch, id: nat, post: seq<Event>)
    requires r < |Run(evs).recs|
  {
    Runs(evs + [Do(r, Call(id))] + post, r, Deferral(Run(evs), r, id, |evs|), d.since, d.exit)
  }

  /** If it is run by the dispatch at all, its list was still to come. */
  lemma LateOnly(evs: seq<Event>, r: nat, d: Dispatch, id: nat, post: seq<Event>)
    requires InCallback(Run(evs), r, d) && Overtakes(evs, r, d, id, post)
    ensures StillToCome(d, Run(evs).g)
  {
    var all := evs + [Do(r, Call(id))] + post;
    assert all[..|evs|] == evs;
    RunOrder(evs);
    RunInv(evs);
    RunsFacts(all, r, Deferral(Run(evs), r, id, |evs|), d.since, d.exit);
    LateFrame(Run(evs), r, d, Deferral(Run(evs), r, id, |evs|), |evs|);
  }

  lemma LateFrame(s: State, r: nat, d: Dispatch, en: Entry, now: nat)
    requires Inv(s) && InCallback(s, r, d) && Order(s.recs[r], now)
    requires en.within == Within(s.recs[r].frames) && en.epoch == s.g
    ensures d.since < now
    ensures d.since in en.within && (en.within[d.since] <= s.g % LENGTH ==> StillToCome(d, s.g) || d.exit.PollTick?)
  {
    var x := s.recs[r];
    assert FramesInv(s, x);
    WithinAt(x.frames, now, |x.frames| - 1);
  }

  /** List m is one that the dispatch takes. */
  ghost predicate Takes(d: Dispatch, m: nat) { d.exit.PollTick? ==> m + 1 == d.end }

  /** A dispatch called at event `since` that takes list m has taken and run the last of its lists. */
  ghost predicate OverList(s: State, r: nat, since: nat, m: nat) {
    && r < |s.recs| && s.recs[r].pc.Drain?
    && var d := s.recs[r].pc.d;
       d.since == since && d.queue == [] && d.next == d.end && Takes(d, m)
  }

  /** A dispatch of all lists is over. */
  ghost predicate Over(s: State, r: nat, since: nat) {
    OverList(s, r, since, 0) && !s.recs[r].pc.d.exit.PollTick?
  }

  /** The dispatch of an enclosing callback has taken the entry and not yet run it. */
  ghost predicate TakenOutside(x: Rec, en: Entry) {
    exists k :: 0 <= k < |x.frames| && InRest(x.frames[k], en)
  }

  /** What still waits when the dispatch is over: entries of enclosing dispatches, and entries that its
      own callbacks deferred to a list which it had already taken. */
  lemma StillWaiting(s: State, now: nat, r: nat, since: nat, en: Entry)
    requires Inv(s) && OverList(s, r, since, en.epoch % LENGTH) && Order(s.recs[r], now)
    requires Waiting(s.recs[r], en)
    ensures || (TakenOutside(s.recs[r], en) && en.calledAt < since)
            || (since < en.calledAt && since in en.within && en.epoch % LENGTH < en.within[since])
  {
    var x := s.recs[r];
    assert RecInv(x, s.g) && WorkInv(s, x);
    if k :| 0 <= k < |x.frames| && InRest(x.frames[k], en) {
      assert Earlier(x.frames[k], since);
      var i :| 0 <= i < |x.frames[k].queue[1..]| && x.frames[k].queue[1..][i] == en;
      assert x.frames[k].queue[i + 1] == en;
    } else {
      var m :| 0 <= m < |x.pending| && en in x.pending[m];
      var i :| 0 <= i < |x.pending[m]| && x.pending[m][i] == en;
      assert PendingOrder(x.pc.d, x.pending[m][i], m) && EntryInv(s, x.pending[m][i], m);
    }
  }

  /** When a dispatch is over, everything deferred to one of its lists before it was called has been run,
      or is in the hands of an enclosing dispatch. */
  lemma EarlyEntriesRun(evs: seq<Event>, t: nat, r: nat, id: nat, since: nat)
    requires Defers(evs, t, r, id) && t <= since
    requires OverList(Run(evs), r, since, Run(evs[..t]).g % LENGTH)
    ensures var en := Deferral(Run(evs[..t]), r, id, t);
            CalledSince(evs, t, r, en) || TakenOutside(Run(evs).recs[r], en)
  {
    NothingLost(evs, t, r, id);
    var en := Deferral(Run(evs[..t]), r, id, t);
    if Waiting(Run(evs).recs[r], en) {
      RunInv(evs);
      RunOrder(evs);
      StillWaiting(Run(evs), |evs|, r, since, en);
    }
  }

  /** And so has everything that its own callbacks deferred to a list it had still to take. */
  lemma LateEntriesRun(evs: seq<Event>, t: nat, r: nat, d: Dispatch, id: nat)
    requires Defers(evs, t, r, id) && Over(Run(evs), r, d.since)
    requires InCallback(Run(evs[..t]), r, d) && StillToCome(d, Run(evs[..t]).g)
    ensures CalledSince(evs, t, r, Deferral(Run(evs[..t]), r, id, t))
  {
    NothingLost(evs, t, r, id);
    var s := Run(evs[..t]);
    var en := Deferral(s, r, id, t);
    RunInv(evs[..t]);
    RunOrder(evs[..t]);
    LateWithin(s, r, d, t);
    if Waiting(Run(evs).recs[r], en) {
      RunInv(evs);
      RunOrder(evs);
      StillWaiting(Run(evs), |evs|, r, d.since, en);
    }
  }

  lemma LateWithin(s: State, r: nat, d: Dispatch, now: nat)
    requires Inv(s) && InCallback(s, r, d) && Order(s.recs[r], now) && StillToCome(d, s.g)
    ensures var within := Within(s.recs[r].frames);
            d.since < now && d.since in within && within[d.since] <= s.g % LENGTH
  {
    var x := s.recs[r];
    assert FramesInv(s, x);
    assert Earlier(x.frames[|x.frames| - 1], now);
    WithinAt(x.frames, now, |x.frames| - 1);
  }

  /** An entry that a callback defers at global epoch g can be run by the very dispatch that is
      running the callback if and only if that dispatch goes through all lists and g selects a
      later list than the callback's own. */
  lemma SameDispatch(evs: seq<Event>, r: nat, d: Dispatch, id: nat)
    requires InCallback(Run(evs), r, d)
    ensures (exists post :: Overtakes(evs, r, d, id, post)) <==> StillToCome(d, Run(evs).g)
  {
    if StillToCome(d, Run(evs).g) {
      var post := LateRun(evs, r, d, id);
      assert Overtakes(evs, r, d, id, post);
    }
    forall post | Overtakes(evs, r, d, id, post) ensures StillToCome(d, Run(evs).g) {
      LateOnly(evs, r, d, id, post);
    }
  }

  /** The dispatch in progress, in every continuation, runs the entry only after the sections
      open at its deferral have closed, if and only if there is none or its list is not one still
      to come. */
  lemma SameDispatchSafe(evs: seq<Event>, r: nat, d: Dispatch, id: nat)
    requires InCallback(Run(evs), r, d)
    ensures (forall post :: Overtakes(evs, r, d, id, post) ==>
               ClosedSince(evs + [Do(r, Call(id))] + post, |evs|))
            <==> !StillToCome(d, Run(evs).g) || AllOpen(Run(evs)) == {}
  {
    if StillToCome(d, Run(evs).g) && AllOpen(Run(evs)) != {} {
      var post := LateRun(evs, r, d, id);
      assert Overtakes(evs, r, d, id, post);
      OpenThroughout(evs, [Do(r, Call(id))], post);
    } else {
      forall post | Overtakes(evs, r, d, id, post)
        ensures ClosedSince(evs + [Do(r, Call(id))] + post, |evs|)
      {
        LateOnly(evs, r, d, id, post);
        NoneOpen(evs, [Do(r, Call(id))], post);
      }
    }
  }

  lemma OpenThroughout(evs: seq<Event>, mid: seq<Event>, post: seq<Event>)
    requires AllOpen(Run(evs)) != {} && AllOpen(Run(evs + mid + post)) == AllOpen(Run(evs))
    ensures !ClosedSince(evs + mid + post, |evs|)
  {
    var all := evs + mid + post;
    assert all[..|evs|] == evs;
    var w :| w in AllOpen(Run(evs));
    assert IsOpen(Run(all[..|evs|]), w) && w in AllOpen(Run(all));
  }

  lemma NoneOpen(evs: seq<Event>, mid: seq<Event>, post: seq<Event>)
    requires AllOpen(Run(evs)) == {}
    ensures ClosedSince(evs + mid + post, |evs|)
  {
    var all := evs + mid + post;
    assert all[..|evs|] == evs;
    assert forall w :: IsOpen(Run(evs), w) ==> w in AllOpen(Run(evs));
  }
}
