/**
 What a reclamation destroys, and what operations on the stack do when they run undisturbed. The statements about
 reclamation hold for any number of records.
 */
module HpReclaim {
  import opened HpStack

  // ---- What a reclamation leaves ---------------------------------------------------------------------------

  /** The entries that the sweep has passed are in the snapshot. */
  ghost predicate SweptOk(r: Rec) {
    r.pc.Sweep? ==> r.pc.j <= |r.pending| && forall i :: 0 <= i < r.pc.j ==> r.pending[i] in r.pc.cache
  }

  /** Only its own steps change the record of a thread in the middle of an operation. */
  lemma OthersKeep(s: State, ev: Event, t: nat)
    requires t < |s.recs| && ev != Go(t)
    ensures t < |Step(s, ev).recs|
    ensures var r, r' := s.recs[t], Step(s, ev).recs[t];
            && (r.pc != Idle ==> r'.pc == r.pc && r'.pending == r.pending)
            && (Scanning(r') ==> Scanning(r) || (ev == Reclaim(t) && Ready(s, t)))
  {
    if ev.Go? && ev.t < |s.recs| { AdvanceKeeps(s, ev.t, t); }
  }

  lemma AdvanceKeeps(s: State, u: nat, t: nat)
    requires u < |s.recs| && t < |s.recs| && u != t
    ensures t < |Advance(s, u).recs| && Advance(s, u).recs[t] == s.recs[t]
  {
  }

  lemma SweptAdvance(s: State, t: nat)
    requires t < |s.recs| && SweptOk(s.recs[t])
    ensures SweptOk(Advance(s, t).recs[t])
  {
  }

  lemma SweptStep(s: State, ev: Event, t: nat)
    requires t < |s.recs| && SweptOk(s.recs[t])
    ensures t < |Step(s, ev).recs| && SweptOk(Step(s, ev).recs[t])
  {
    if ev == Go(t) { SweptAdvance(s, t); } else { OthersKeep(s, ev, t); }
  }

  lemma {:induction false} SweptRun(n: nat, evs: seq<Event>, t: nat)
    requires t < |Run(n, evs).recs|
    ensures SweptOk(Run(n, evs).recs[t])
  {
    if evs != [] && t < |Run(n, evs[..|evs| - 1]).recs| {
      SweptRun(n, evs[..|evs| - 1], t);
      SweptStep(Run(n, evs[..|evs| - 1]), evs[|evs| - 1], t);
    }
  }

  /** Record u is in use after some number of events from a + 1 to m - 1. */
  ghost predicate UsedSince(n: nat, evs: seq<Event>, a: nat, m: nat, u: nat) {
    exists i: nat {:trigger UsedAt(n, evs, i, u)} :: a < i < m && UsedAt(n, evs, i, u)
  }

  ghost predicate UsedAt(n: nat, evs: seq<Event>, i: nat, u: nat) { i <= |evs| && IsUsed(Run(n, evs[..i]), u) }

  ghost predicate IsUsed(s: State, u: nat) { u < |s.recs| && s.recs[u].used }

  /** Entry x is, after m events, the hazard pointer of a record that was in use since event a. */
  ghost predicate Hazard(n: nat, evs: seq<Event>, a: nat, m: nat, x: int) {
    && m <= |evs|
    && exists u: nat {:trigger UsedSince(n, evs, a, m, u)} ::
         UsedSince(n, evs, a, m, u) && u < |Run(n, evs[..m]).recs| && Run(n, evs[..m]).recs[u].hz == x
  }

  ghost predicate HazardSince(n: nat, evs: seq<Event>, a: nat, m: nat, x: int) {
    exists i: nat {:trigger Hazard(n, evs, a, i, x)} :: a < i < m && Hazard(n, evs, a, i, x)
  }

  /** The reclamation that record t started at event a is in state r after m events: every pointer of its
      snapshot was the hazard pointer of a record in use, it is to look at such a record next, and it has
      taken on no new entries. */
  ghost predicate Reclaims(n: nat, evs: seq<Event>, m: nat, t: nat, a: nat, r: Rec) {
    && a < m <= |evs| && evs[a] == Reclaim(t) && Ready(Run(n, evs[..a]), t) && Scanning(r)
    && (r.pc.Peek? ==> r.pc.i > 0 && UsedSince(n, evs, a, m, r.pc.i - 1))
    && (forall x :: x in r.pc.cache ==> HazardSince(n, evs, a, m, x))
    && (forall x :: x in r.pending ==> x in Run(n, evs[..a]).recs[t].pending)
  }

  lemma RunNext(n: nat, evs: seq<Event>, m: nat)
    requires m < |evs|
    ensures Run(n, evs[..m + 1]) == Step(Run(n, evs[..m]), evs[m])
  {
    assert evs[..m + 1][..m] == evs[..m];
  }

  /** What a step adds to a snapshot is the hazard pointer of the record looked at, the record to look at is
      in use, and nothing is added to the pending list. */
  ghost predicate ScanMoves(s: State, r: Rec, r': Rec) {
    && Scanning(r) && Scanning(r')
    && (forall x :: x in r'.pc.cache ==>
          x in r.pc.cache || (r.pc.Peek? && 0 < r.pc.i <= |s.recs| && s.recs[r.pc.i - 1].hz == x))
    && (r'.pc.Peek? ==> r'.pc == r.pc || (r'.pc.i > 0 && IsUsed(s, r'.pc.i - 1)))
    && (forall x :: x in r'.pending ==> x in r.pending)
  }

  lemma ScanAdvance(s: State, t: nat)
    requires t < |s.recs| && Scanning(Advance(s, t).recs[t])
    ensures ScanMoves(s, s.recs[t], Advance(s, t).recs[t])
  {
  }

  /** A step of a record that reclaims, or starts to. */
  lemma ScanStep(s: State, ev: Event, t: nat)
    requires t < |Step(s, ev).recs| && Scanning(Step(s, ev).recs[t])
    ensures t < |s.recs|
    ensures var r, r' := s.recs[t], Step(s, ev).recs[t];
            if Scanning(r) then ScanMoves(s, r, r')
            else ev == Reclaim(t) && Ready(s, t) && r'.pc.cache == [] && r'.pending == r.pending
  {
    if t < |s.recs| {
      if ev == Go(t) { ScanAdvance(s, t); } else { OthersKeep(s, ev, t); }
    }
  }

  lemma HazardNext(n: nat, evs: seq<Event>, m: nat, a: nat, s: State, r: Rec, r': Rec, x: int)
    requires a < m < |evs| && s == Run(n, evs[..m]) && ScanMoves(s, r, r') && x in r'.pc.cache
    requires r.pc.Peek? ==> r.pc.i > 0 && UsedSince(n, evs, a, m, r.pc.i - 1)
    requires x in r.pc.cache ==> HazardSince(n, evs, a, m, x)
    ensures HazardSince(n, evs, a, m + 1, x)
  {
    if x !in r.pc.cache {
      assert UsedSince(n, evs, a, m, r.pc.i - 1);
      assert Hazard(n, evs, a, m, x);
    }
  }

  lemma ReclaimsNext(n: nat, evs: seq<Event>, m: nat, t: nat, a: nat, s: State, s': State)
    requires m < |evs| && s == Run(n, evs[..m]) && t < |s.recs| && t < |s'.recs|
    requires Reclaims(n, evs, m, t, a, s.recs[t]) && ScanMoves(s, s.recs[t], s'.recs[t])
    ensures Reclaims(n, evs, m + 1, t, a, s'.recs[t])
  {
    var r, r' := s.recs[t], s'.recs[t];
    forall x | x in r'.pc.cache ensures HazardSince(n, evs, a, m + 1, x) { HazardNext(n, evs, m, a, s, r, r', x); }
    if r'.pc.Peek? { LookedAt(n, evs, m, a, s, r, r'); }
  }

  lemma LookedAt(n: nat, evs: seq<Event>, m: nat, a: nat, s: State, r: Rec, r': Rec)
    requires a < m < |evs| && s == Run(n, evs[..m]) && ScanMoves(s, r, r') && r'.pc.Peek?
    requires r.pc.Peek? ==> r.pc.i > 0 && UsedSince(n, evs, a, m, r.pc.i - 1)
    ensures r'.pc.i > 0 && UsedSince(n, evs, a, m + 1, r'.pc.i - 1)
  {
    if IsUsed(s, r'.pc.i - 1) { assert UsedAt(n, evs, m, r'.pc.i - 1); }
  }

  lemma ReclaimBegins(n: nat, evs: seq<Event>, a: nat, t: nat, s: State, s': State)
    requires a < |evs| && s == Run(n, evs[..a]) && s' == Step(s, evs[a]) && t < |s.recs| && t < |s'.recs|
    requires evs[a] == Reclaim(t) && Ready(s, t) && Scanning(s'.recs[t])
    ensures Reclaims(n, evs, a + 1, t, a, s'.recs[t])
  {
    assert s'.recs[t] == s.recs[t].(pc := Scan(|s.recs|, []));
  }

  /** Record t is reclaiming after m events. */
  ghost predicate ScansAt(n: nat, evs: seq<Event>, m: nat, t: nat) {
    m <= |evs| && t < |Run(n, evs[..m]).recs| && Scanning(Run(n, evs[..m]).recs[t])
  }

  /** The reclamation under way after m events was so before, or has just begun. */
  lemma ReclaimBefore(n: nat, evs: seq<Event>, m: nat, t: nat)
    requires ScansAt(n, evs, m, t)
    ensures m > 0
    ensures ScansAt(n, evs, m - 1, t) || Reclaims(n, evs, m, t, m - 1, Run(n, evs[..m]).recs[t])
    ensures forall a :: ScansAt(n, evs, m - 1, t) && Reclaims(n, evs, m - 1, t, a, Run(n, evs[..m - 1]).recs[t]) ==>
              Reclaims(n, evs, m, t, a, Run(n, evs[..m]).recs[t])
  {
    if m > 0 {
      RunNext(n, evs, m - 1);
      var s, s' := Run(n, evs[..m - 1]), Run(n, evs[..m]);
      ScanStep(s, evs[m - 1], t);
      if Scanning(s.recs[t]) {
        forall a | Reclaims(n, evs, m - 1, t, a, s.recs[t]) ensures Reclaims(n, evs, m, t, a, s'.recs[t]) {
          ReclaimsNext(n, evs, m - 1, t, a, s, s');
        }
      } else {
        ReclaimBegins(n, evs, m - 1, t, s, s');
      }
    }
  }

  /** Every reclamation under way has a start. */
  lemma {:induction false} ReclaimStart(n: nat, evs: seq<Event>, m: nat, t: nat) returns (a: nat)
    requires ScansAt(n, evs, m, t)
    ensures Reclaims(n, evs, m, t, a, Run(n, evs[..m]).recs[t])
    decreases m
  {
    ReclaimBefore(n, evs, m, t);
    if ScansAt(n, evs, m - 1, t) {
      a := ReclaimStart(n, evs, m - 1, t);
    } else {
      a := m - 1;
    }
  }

  /** When a reclamation returns, each entry still on the record's pending list was, at a moment while it ran,
      the hazard pointer of a record that was in use: everything else that was pending has been destroyed. */
  lemma LeavesHazardsOnly(n: nat, evs: seq<Event>, t: nat) returns (a: nat)
    requires t < |Run(n, evs).recs| && Scanning(Run(n, evs).recs[t])
    requires t < |Run(n, evs + [Go(t)]).recs| && Run(n, evs + [Go(t)]).recs[t].pc == Idle
    ensures a < |evs| && evs[a] == Reclaim(t) && Ready(Run(n, evs[..a]), t)
    ensures forall x :: x in Run(n, evs + [Go(t)]).recs[t].pending ==>
              x in Run(n, evs[..a]).recs[t].pending && HazardSince(n, evs, a, |evs|, x)
  {
    assert evs[..|evs|] == evs && (evs + [Go(t)])[..|evs|] == evs;
    a := ReclaimStart(n, evs, |evs|, t);
    SweptRun(n, evs, t);
  }

  // ---- Operations that run undisturbed -----------------------------------------------------------------------

  /** k steps of thread t. */
  function Alone(s: State, t: nat, k: nat): (s': State)
    requires t < |s.recs|
    ensures |s'.recs| == |s.recs|
  {
    if k == 0 then s else Advance(Alone(s, t, k - 1), t)
  }

  lemma Then(s0: State, t: nat, k: nat, x: State, y: State) returns (k': nat)
    requires t < |s0.recs| && Alone(s0, t, k) == x && t < |x.recs| && Advance(x, t) == y
    ensures k' == k + 1 && Alone(s0, t, k') == y
  {
    k' := k + 1;
  }

  /** An undisturbed push ends, with its entry on top. */
  lemma PushAlone(n: nat, evs: seq<Event>, t: nat, e: nat) returns (k: nat)
    requires |Run(n, evs).recs| <= CACHE && Ready(Run(n, evs), t)
    requires e < |Run(n, evs).nodes| && Run(n, evs).nodes[e].status == Owned(t)
    ensures var s := Run(n, evs);
            var s1 := Step(s, Push(t, e));
            && t < |s1.recs|
            && var s' := Alone(s1, t, k);
               k == 2 && s'.st == [e] + s.st && s'.recs == s.recs && StackOk(s'.head, s'.nodes, s'.st)
  {
    var s := Run(n, evs);
    RunInv(n, evs);
    var s0 := Step(s, Push(t, e));
    StepInv(s, Push(t, e));
    k := 0;
    var s1 := Advance(s0, t);
    k := Then(s0, t, k, s0, s1);
    AdvanceInv(s0, t);
    var s2 := Advance(s1, t);
    k := Then(s0, t, k, s1, s2);
    AdvanceInv(s1, t);
    assert s2.recs == s.recs;
  }

  /** An undisturbed pop ends; it takes the top, or nothing if the stack is empty. */
  lemma PopAlone(n: nat, evs: seq<Event>, t: nat) returns (k: nat)
    requires |Run(n, evs).recs| <= CACHE && Ready(Run(n, evs), t)
    ensures var s := Run(n, evs);
            var s1 := Step(s, Pop(t));
            && t < |s1.recs|
            && var s' := Alone(s1, t, k);
               && t < |s'.recs| && s'.recs[t].pc == Idle && k <= 5
               && if s.st == [] then s' == s
                  else s'.st == s.st[1..] && s.st[0] < |s'.nodes| && s'.nodes[s.st[0]].status == Out(t)
  {
    var s := Run(n, evs);
    RunInv(n, evs);
    var s0 := Step(s, Pop(t));
    k := 0;
    if s.st == [] {
      assert s.recs[t := s.recs[t]] == s.recs;
      k := Then(s0, t, k, s0, s);
    } else {
      k := TakeAlone(s, t, s0);
    }
  }

  lemma TakeAlone(s: State, t: nat, s0: State) returns (k: nat)
    requires Inv(s) && Ready(s, t) && s.st != [] && s0 == SetPC(s, t, Load)
    ensures k == 5
    ensures var s' := Alone(s0, t, k);
            && s'.recs[t].pc == Idle && s'.st == s.st[1..] && s.st[0] < |s'.nodes|
            && s'.nodes[s.st[0]].status == Out(t)
  {
    assert LinkAt(s.nodes, s.st, 0);
    var x, r := s.st[0], s.recs[t];
    k := 0;
    var s1 := SetPC(s, t, Guard(x, First));
    k := Then(s0, t, k, s0, s1);
    var s2 := SetRec(s, t, r.(hz := x, pc := Check(x, First)));
    k := Then(s0, t, k, s1, s2);
    var s3 := SetRec(s, t, r.(hz := x, pc := Next(x)));
    k := Then(s0, t, k, s2, s3);
    var s4 := SetRec(s, t, r.(hz := x, pc := Cas(x, s.nodes[x].next)));
    k := Then(s0, t, k, s3, s4);
    k := Then(s0, t, k, s4, Advance(s4, t));
  }

  // ---- Operations that have returned ---------------------------------------------------------------------------

  predicate Pushing(r: Rec) { r.pc.PushLink? || r.pc.PushCas? }

  predicate InPop(r: Rec) { r.pc.Load? || r.pc.Guard? || r.pc.Check? || Popping(r) }

  /** A pop returns when it has taken the top, or when the stack is empty. */
  lemma PopReturns(n: nat, evs: seq<Event>, t: nat)
    requires t < |Run(n, evs).recs| <= CACHE && InPop(Run(n, evs).recs[t])
    requires Advance(Run(n, evs), t).recs[t].pc == Idle
    ensures EffectOf(Run(n, evs), Go(t)).Popped? || Run(n, evs).st == []
  {
    RunInv(n, evs);
    var s := Run(n, evs);
    assert RecOk(s.nodes, t, s.recs[t]);
    if EffectOf(s, Go(t)) == None { EmptyWhenGivenUp(n, evs, t); }
  }

  /** Thread t is pushing entry e. */
  predicate PushesEntry(s: State, t: nat, e: nat) { t < |s.recs| && Pushing(s.recs[t]) && s.recs[t].pc.e == e }

  /** Some event from a to m - 1 pushes entry e. */
  ghost predicate PushedBy(n: nat, evs: seq<Event>, a: nat, m: nat, e: nat) {
    exists i: nat {:trigger PushedAt(n, evs, i, e)} :: a < i < m && PushedAt(n, evs, i, e)
  }

  ghost predicate PushedAt(n: nat, evs: seq<Event>, i: nat, e: nat) {
    i < |evs| && EffectOf(Run(n, evs[..i]), evs[i]) == Pushed(e)
  }

  lemma PushAdvance(s: State, t: nat, e: nat)
    requires Inv(s) && PushesEntry(s, t, e)
    ensures PushesEntry(Advance(s, t), t, e) || EffectOf(s, Go(t)) == Pushed(e)
  {
    assert RecOk(s.nodes, t, s.recs[t]);
  }

  lemma PushStep(s: State, ev: Event, t: nat, e: nat)
    requires Inv(s) && PushesEntry(s, t, e)
    ensures PushesEntry(Step(s, ev), t, e) || EffectOf(s, ev) == Pushed(e)
  {
    if ev == Go(t) { PushAdvance(s, t, e); } else { OthersKeep(s, ev, t); }
  }

  lemma {:induction false} PushOn(n: nat, evs: seq<Event>, a: nat, m: nat, t: nat, e: nat)
    requires a < m <= |evs| && |Run(n, evs[..m]).recs| <= CACHE && PushesEntry(Run(n, evs[..a + 1]), t, e)
    ensures PushesEntry(Run(n, evs[..m]), t, e) || PushedBy(n, evs, a, m, e)
    decreases m
  {
    if a + 1 < m {
      RunNext(n, evs, m - 1);
      StepRecords(Run(n, evs[..m - 1]), evs[m - 1]);
      PushOn(n, evs, a, m - 1, t, e);
      if PushesEntry(Run(n, evs[..m - 1]), t, e) {
        RunInv(n, evs[..m - 1]);
        PushStep(Run(n, evs[..m - 1]), evs[m - 1], t, e);
        if EffectOf(Run(n, evs[..m - 1]), evs[m - 1]) == Pushed(e) { assert PushedAt(n, evs, m - 1, e); }
      }
    }
  }

  /** When a push has returned, its entry has been put on top of the stack in between. */
  lemma PushReturned(n: nat, evs: seq<Event>, a: nat, t: nat, e: nat)
    requires |Run(n, evs).recs| <= CACHE && a < |evs| && evs[a] == Push(t, e) && Ready(Run(n, evs[..a]), t)
    requires e < |Run(n, evs[..a]).nodes| && Run(n, evs[..a]).nodes[e].status == Owned(t)
    requires t < |Run(n, evs).recs| && !Pushing(Run(n, evs).recs[t])
    ensures PushedBy(n, evs, a, |evs|, e)
  {
    assert evs[..|evs|] == evs;
    RunNext(n, evs, a);
    PushOn(n, evs, a, |evs|, t, e);
  }
}
