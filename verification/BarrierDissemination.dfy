/**
 The dissemination barrier.

 In round k of an episode, thread i sets the flag of thread i + 2^k and then waits for its own
 flag of that round. Two sets of flags (parity) and one alternating sense serve any number of
 successive episodes; each set is reused, with the sense reversed, two episodes later. One step
 of a thread is one load or store of a flag.
 */
module BarrierDissemination {
  import opened Internal

  datatype PC = Outside | Signal(k: nat) | Wait(k: nat)

  /** `done` counts the episodes the thread has returned from. */
  datatype Thread = Thread(parity: nat, sense: bool, pc: PC, done: nat)

  /** flags[p][i][k] is thread i's flag for round k in the set of parity p. */
  datatype State = State(threads: seq<Thread>, flags: seq<seq<seq<bool>>>)

  function Partner(n: nat, i: nat, k: nat): nat
    requires n > 0
  {
    (i + Pow2(k)) % n
  }

  /** The remainder, by masking if n is a power of two. */
  function Around(n: nat, power: bool, x: nat): (j: nat)
    requires n > 0 && (power ==> And(n, n - 1) == 0)
    ensures j == x % n
  {
    if power then (MaskIsRemainder(n, x); And(x, n - 1)) else x % n
  }

  /** Thread i's row of the initializer's tables. */
  method InitThread(n: nat, size: nat, power: bool, i: nat, partner: array2<nat>, tflag: array3<bool>)
    requires n > 0 && (power ==> And(n, n - 1) == 0) && i < n
    requires partner.Length0 == n && partner.Length1 == size
    requires tflag.Length0 == 2 && tflag.Length1 == n && tflag.Length2 == size
    modifies partner, tflag
    ensures forall k :: 0 <= k < size ==> partner[i, k] == Partner(n, i, k) && !tflag[0, i, k] && !tflag[1, i, k]
    ensures forall j, k :: 0 <= j < n && j != i && 0 <= k < size ==>
              partner[j, k] == old(partner[j, k]) && tflag[0, j, k] == old(tflag[0, j, k])
              && tflag[1, j, k] == old(tflag[1, j, k])
  {
    var offset := 1;
    for k := 0 to size
      invariant offset == Pow2(k)
      invariant forall m :: 0 <= m < k ==> partner[i, m] == Partner(n, i, m) && !tflag[0, i, m] && !tflag[1, i, m]
      invariant forall j, m :: 0 <= j < n && j != i && 0 <= m < size ==>
                  partner[j, m] == old(partner[j, m]) && tflag[0, j, m] == old(tflag[0, j, m])
                  && tflag[1, j, m] == old(tflag[1, j, m])
    {
      partner[i, k] := Around(n, power, i + offset);
      tflag[0, i, k] := false;
      tflag[1, i, k] := false;
      offset := offset * 2;
    }
  }

  /** Partners and flags as the initializer leaves them; for a power of two it masks instead of dividing. */
  method InitFlags(n: nat, size: nat) returns (partner: array2<nat>, tflag: array3<bool>)
    requires n > 0
    ensures partner.Length0 == n && partner.Length1 == size
    ensures tflag.Length0 == 2 && tflag.Length1 == n && tflag.Length2 == size
    ensures forall i, k :: 0 <= i < n && 0 <= k < size ==>
              partner[i, k] == Partner(n, i, k) && !tflag[0, i, k] && !tflag[1, i, k]
  {
    partner := new nat[n, size];
    tflag := new bool[2, n, size];
    var power := And(n, n - 1) == 0;
    for i := 0 to n
      invariant forall j, k :: 0 <= j < i && 0 <= k < size ==>
                  partner[j, k] == Partner(n, j, k) && !tflag[0, j, k] && !tflag[1, j, k]
    {
      InitThread(n, size, power, i, partner, tflag);
    }
  }

  function Init(n: nat, size: nat): State {
    State(seq(n, i => Thread(0, true, Outside, 0)),
          seq(2, p => seq(n, i => seq(size, k => false))))
  }

  function Leave(x: Thread): Thread {
    Thread(1 - x.parity % 2, if x.parity == 1 then !x.sense else x.sense, Outside, x.done + 1)
  }

  /** The pass of thread t over round k, or its return after the last round. */
  function NextRound(size: nat, x: Thread, k: nat): Thread {
    if k < size then x.(pc := Signal(k)) else Leave(x)
  }

  function Store(flags: seq<seq<seq<bool>>>, p: nat, j: nat, k: nat, v: bool): seq<seq<seq<bool>>> {
    if p < |flags| && j < |flags[p]| && k < |flags[p][j]|
    then flags[p := flags[p][j := flags[p][j][k := v]]] else flags
  }

  predicate Raised(s: State, t: nat, k: nat)
    requires t < |s.threads|
  {
    var x := s.threads[t];
    && x.parity < |s.flags| && t < |s.flags[x.parity]| && k < |s.flags[x.parity][t]|
    && s.flags[x.parity][t][k] == x.sense
  }

  /** One step of thread t: enter, store a flag, or load one. */
  function Step(n: nat, size: nat, s: State, t: nat): State
    requires n > 0
  {
    if t >= |s.threads| then s
    else
      var x := s.threads[t];
      match x.pc
      case Outside => s.(threads := s.threads[t := NextRound(size, x, 0)])
      case Signal(k) =>
        State(s.threads[t := x.(pc := Wait(k))],
              Store(s.flags, x.parity, Partner(n, t, k), k, x.sense))
      case Wait(k) =>
        if Raised(s, t, k) then s.(threads := s.threads[t := NextRound(size, x, k + 1)]) else s
  }

  /** The state after the threads named by a schedule took their steps. */
  function Run(n: nat, size: nat, ts: seq<nat>): State
    requires n > 0
  {
    if ts == [] then Init(n, size)
    else Step(n, size, Run(n, size, ts[..|ts| - 1]), ts[|ts| - 1])
  }

  // ---- Counting signals ----------------------------------------------------------------

  ghost function Entered(x: Thread): nat { x.done + (if x.pc.Outside? then 0 else 1) }

  /** Episodes in which the thread has stored its round-k signal. */
  ghost function Signals(x: Thread, k: nat): nat {
    x.done + (match x.pc
              case Outside => 0
              case Signal(m) => if k < m then 1 else 0
              case Wait(m) => if k <= m then 1 else 0)
  }

  /** Episodes in which the thread has passed its round-k wait. */
  ghost function Passes(x: Thread, k: nat): nat {
    x.done + (if x.pc.Outside? || x.pc.k <= k then 0 else 1)
  }

  /** The sense of an episode, as every thread computes it. */
  ghost predicate SenseOf(episode: nat) { (episode / 2) % 2 == 0 }

  /** What a flag of parity p holds once its writer has signalled in c episodes. */
  ghost predicate FlagAfter(c: nat, p: nat)
    requires p < 2
  {
    ((c + 1 - p) / 2) % 2 == 1
  }

  ghost function Pred(n: nat, j: nat, k: nat): nat
    requires n > 0
  {
    (j - Pow2(k)) % n
  }

  lemma PredOfPartner(n: nat, i: nat, k: nat)
    requires i < n
    ensures Partner(n, i, k) < n && Pred(n, Partner(n, i, k), k) == i
  {
    var o := Pow2(k);
    var q := (i + o) / n;
    assert (i + o) % n - o == n * (-q) + i;
    DivModUnique((i + o) % n - o, n, -q, i);
  }

  lemma PartnerOfPred(n: nat, j: nat, k: nat)
    requires j < n
    ensures Pred(n, j, k) < n && Partner(n, Pred(n, j, k), k) == j
  {
    var o := Pow2(k);
    var q := (j - o) / n;
    assert (j - o) % n + o == n * (-q) + j;
    DivModUnique((j - o) % n + o, n, -q, j);
  }

  ghost predicate ThreadInv(size: nat, x: Thread) {
    && x.parity == x.done % 2 && x.sense == SenseOf(x.done)
    && (!x.pc.Outside? ==> x.pc.k < size)
  }

  /** Writer and reader of one flag: the reader never runs ahead, the writer is at most two
      episodes ahead, and both flags of the round hold what the writer stored last. */
  ghost predicate LinkInv(n: nat, s: State, j: nat, k: nat)
    requires n > 0 && |s.threads| == n && |s.flags| == 2
    requires j < n && |s.flags[0]| == |s.flags[1]| == n
    requires k < |s.flags[0][j]| && k < |s.flags[1][j]|
  {
    var c := Signals(s.threads[Pred(n, j, k)], k);
    && Passes(s.threads[j], k) <= c <= Passes(s.threads[j], k) + 2
    && s.flags[0][j][k] == FlagAfter(c, 0)
    && s.flags[1][j][k] == FlagAfter(c, 1)
  }

  ghost predicate Shape(n: nat, size: nat, s: State) {
    && n > 0 && n <= Pow2(size)
    && |s.threads| == n && |s.flags| == 2 && |s.flags[0]| == |s.flags[1]| == n
    && (forall i :: 0 <= i < n ==> |s.flags[0][i]| == size && |s.flags[1][i]| == size)
    && (forall i :: 0 <= i < n ==> ThreadInv(size, s.threads[i]))
  }

  ghost predicate Inv(n: nat, size: nat, s: State) {
    && Shape(n, size, s)
    && (forall j, k :: 0 <= j < n && 0 <= k < size ==> LinkInv(n, s, j, k))
  }

  // ---- Information spreads ----------------------------------------------------------------

  /** A thread that has passed the first k rounds of an episode knows that the 2^k threads
      behind it have entered. */
  lemma {:induction false} Covered(n: nat, size: nat, s: State, i: nat, k: nat, d: nat, m: nat,
                                   q: int, j: nat)
    requires Inv(n, size, s) && i < n && k <= size && d < Pow2(k)
    requires Knows(s, i, k, m)
    requires j < n && Behind(n, i - d, q, j)
    ensures Entered(s.threads[j]) >= m
    decreases k
  {
    if k == 0 {
      BehindSelf(n, i, q, j);
    } else if d < Pow2(k - 1) {
      Covered(n, size, s, i, k - 1, d, m, q, j);
    } else {
      var i', q' := Handover(n, size, s, i, k - 1, m);
      BehindLess(n, i, Pow2(k - 1), i', q', d - Pow2(k - 1), j, q);
      Covered(n, size, s, i', k - 1, d - Pow2(k - 1), m, q - q', j);
    }
  }

  /** Position x on the circle of n threads, q times round, is thread j. */
  ghost predicate Behind(n: nat, x: int, q: int, j: nat) { x == n * q + j }

  lemma BehindSelf(n: nat, i: nat, q: int, j: nat)
    requires i < n && j < n && Behind(n, i, q, j)
    ensures i == j
  {
    DivModUnique(i, n, 0, i);
    DivModUnique(i, n, q, j);
  }

  lemma BehindLess(n: nat, i: nat, p: nat, i': nat, q': int, d: nat, j: nat, q: int)
    requires Behind(n, i - p, q', i') && Behind(n, i - (d + p), q, j)
    ensures Behind(n, i' - d, q - q', j)
  {
    assert n * (q - q') == n * q - n * q';
  }

  /** Thread i has entered m episodes and passed the first k rounds of the m-th. */
  ghost predicate Knows(s: State, i: nat, k: nat, m: nat)
    requires i < |s.threads|
  {
    Entered(s.threads[i]) >= m && forall k' :: 0 <= k' < k ==> Passes(s.threads[i], k') >= m
  }

  /** The thread that signalled round k had itself passed the rounds before. */
  lemma Handover(n: nat, size: nat, s: State, i: nat, k: nat, m: nat) returns (j: nat, q: int)
    requires Inv(n, size, s) && i < n && k < size && Knows(s, i, k + 1, m)
    ensures j < n && Behind(n, i - Pow2(k), q, j) && Knows(s, j, k, m)
  {
    q := PredQuotient(n, i, k);
    j := Pred(n, i, k);
    assert LinkInv(n, s, i, k);
    HandoverCounts(s.threads[i], s.threads[j], k, m);
  }

  lemma PredQuotient(n: nat, i: nat, k: nat) returns (q: int)
    requires i < n
    ensures Pred(n, i, k) < n && Behind(n, i - Pow2(k), q, Pred(n, i, k))
  {
    q := (i - Pow2(k)) / n;
  }

  lemma HandoverCounts(x: Thread, y: Thread, k: nat, m: nat)
    requires forall k' :: 0 <= k' < k + 1 ==> Passes(x, k') >= m
    requires Passes(x, k) <= Signals(y, k)
    ensures Entered(y) >= m && forall k' :: 0 <= k' < k ==> Passes(y, k') >= m
  {
    assert Passes(x, k) >= m;
  }

  /** No thread has returned from more episodes than any thread has entered. */
  lemma AllEntered(n: nat, size: nat, s: State, i: nat, j: nat)
    requires Inv(n, size, s) && i < n && j < n
    ensures s.threads[i].done <= Entered(s.threads[j])
  {
    var d := if j <= i then i - j else i - j + n;
    Covered(n, size, s, i, size, d, s.threads[i].done, if j <= i then 0 else -1, j);
  }

  // ---- Preservation -------------------------------------------------------------------------

  lemma InitInv(n: nat, size: nat)
    requires n > 0 && n <= Pow2(size)
    ensures Inv(n, size, Init(n, size))
  {
    var s := Init(n, size);
    forall j, k | 0 <= j < n && 0 <= k < size ensures LinkInv(n, s, j, k) {
      PartnerOfPred(n, j, k);
    }
  }

  /** A thread moves without touching a flag. */
  lemma MoveInv(n: nat, size: nat, s: State, t: nat, y: Thread)
    requires Inv(n, size, s) && t < n && ThreadInv(size, y)
    requires forall k :: 0 <= k < size ==> Signals(y, k) == Signals(s.threads[t], k)
    requires forall k :: 0 <= k < size ==>
      Passes(s.threads[t], k) <= Passes(y, k) <= Signals(s.threads[Pred(n, t, k)], k)
    ensures Inv(n, size, s.(threads := s.threads[t := y]))
  {
    var s' := s.(threads := s.threads[t := y]);
    forall j, k | 0 <= j < n && 0 <= k < size ensures LinkInv(n, s', j, k) {
      assert LinkInv(n, s, j, k);
      PartnerOfPred(n, j, k);
    }
  }

  /** Going on to round k + 1 passes round k and signals nothing. */
  lemma NextRoundCounts(size: nat, x: Thread, k: nat)
    requires ThreadInv(size, x) && x.pc == Wait(k)
    ensures var y := NextRound(size, x, k + 1);
            && ThreadInv(size, y)
            && forall m :: 0 <= m < size ==>
                 && Signals(y, m) == Signals(x, m)
                 && Passes(y, m) == Passes(x, m) + (if m == k then 1 else 0)
  {
    LeaveSense(x.done);
  }

  /** Passing the wait of round k. */
  lemma PassInv(n: nat, size: nat, s: State, t: nat, k: nat)
    requires Inv(n, size, s) && t < n && s.threads[t].pc == Wait(k) && Raised(s, t, k)
    ensures Inv(n, size, s.(threads := s.threads[t := NextRound(size, s.threads[t], k + 1)]))
  {
    var x := s.threads[t];
    var y := NextRound(size, x, k + 1);
    NextRoundCounts(size, x, k);
    forall m | 0 <= m < size
      ensures Passes(y, m) <= Signals(s.threads[Pred(n, t, m)], m)
    {
      assert LinkInv(n, s, t, m);
      if m == k { RaisedMeansSignalled(x.done, Signals(s.threads[Pred(n, t, k)], k)); }
    }
    MoveInv(n, size, s, t, y);
  }

  /** Within two episodes of its reader, a writer's flag matches the reader's sense exactly if
      the writer has signalled the reader's episode. */
  lemma RaisedMeansSignalled(p: nat, c: nat)
    requires p <= c <= p + 2
    ensures FlagAfter(c, p % 2) == SenseOf(p) <==> p < c
  {
    var h := p / 2;
    assert (c + 1 - p % 2) / 2 == if p < c then h + 1 else h;
  }

  lemma LeaveSense(done: nat)
    ensures SenseOf(done + 1) == (if done % 2 == 1 then !SenseOf(done) else SenseOf(done))
  {
  }

  lemma StoreSense(c: nat, p: nat)
    requires p < 2
    ensures FlagAfter(c + 1, p) == (if c % 2 == p then SenseOf(c) else FlagAfter(c, p))
  {
    var h := c / 2;
    assert c == 2 * h + c % 2;
  }

  /** Storing the signal of round k. */
  lemma SignalInv(n: nat, size: nat, s: State, t: nat, k: nat)
    requires Inv(n, size, s) && t < n && s.threads[t].pc == Signal(k)
    ensures Inv(n, size, Step(n, size, s, t))
  {
    var x := s.threads[t];
    var j0 := Partner(n, t, k);
    PredOfPartner(n, t, k);
    AllEntered(n, size, s, t, j0);
    StoreSense(x.done, 0);
    StoreSense(x.done, 1);
    var s' := Step(n, size, s, t);
    forall j, m | 0 <= j < n && 0 <= m < size ensures LinkInv(n, s', j, m) {
      assert LinkInv(n, s, j, m);
      PartnerOfPred(n, j, m);
    }
  }

  lemma EnterInv(n: nat, size: nat, s: State, t: nat)
    requires Inv(n, size, s) && t < n && s.threads[t].pc.Outside?
    ensures Inv(n, size, Step(n, size, s, t))
  {
    var x := s.threads[t];
    if size > 0 {
      forall m | 0 <= m < size
        ensures Passes(x, m) <= Signals(s.threads[Pred(n, t, m)], m)
      {
        assert LinkInv(n, s, t, m);
      }
    }
    LeaveSense(x.done);
    MoveInv(n, size, s, t, NextRound(size, x, 0));
  }

  lemma StepInv(n: nat, size: nat, s: State, t: nat)
    requires Inv(n, size, s)
    ensures Inv(n, size, Step(n, size, s, t))
  {
    if t < n {
      match s.threads[t].pc
      case Outside => EnterInv(n, size, s, t);
      case Signal(k) => SignalInv(n, size, s, t, k);
      case Wait(k) => if Raised(s, t, k) { PassInv(n, size, s, t, k); }
    }
  }

  lemma {:induction false} RunInv(n: nat, size: nat, ts: seq<nat>)
    requires n > 0 && n <= Pow2(size)
    ensures Inv(n, size, Run(n, size, ts))
  {
    if ts == [] {
      InitInv(n, size);
    } else {
      RunInv(n, size, ts[..|ts| - 1]);
      StepInv(n, size, Run(n, size, ts[..|ts| - 1]), ts[|ts| - 1]);
    }
  }

  // ---- The barrier ----------------------------------------------------------------------------

  /** No thread has returned from more barriers than any thread has entered. */
  ghost predicate Together(s: State) {
    forall i, j :: 0 <= i < |s.threads| && 0 <= j < |s.threads| ==> s.threads[i].done <= Entered(s.threads[j])
  }

  /** For any number of threads, schedule and episode, a thread that has returned from its m-th
      barrier finds that every thread has entered its m-th. */
  lemma NobodyLeavesEarly(n: nat, size: nat, ts: seq<nat>)
    requires n > 0 && n <= Pow2(size)
    ensures |Run(n, size, ts).threads| == n && Together(Run(n, size, ts))
  {
    var s := Run(n, size, ts);
    RunInv(n, size, ts);
    forall i, j | 0 <= i < n && 0 <= j < n ensures s.threads[i].done <= Entered(s.threads[j]) {
      AllEntered(n, size, s, i, j);
    }
  }

  /** With the rounds the code computes from the number of threads this holds in every schedule if and
      only if there are at most 2^31 threads; beyond, the rounds wrap around to none. */
  lemma RoundsExact(nthr: bv32)
    requires nthr >= 1
    ensures Value(nthr) > 0
    ensures (forall ts :: Together(Run(Value(nthr), Value(Log(Power2(nthr))), ts))) <==> nthr <= 0x8000_0000
  {
    var n, size := Value(nthr), Value(Log(Power2(nthr)));
    ValuePositive(nthr);
    RoundsCover(nthr);
    if nthr <= 0x8000_0000 {
      forall ts ensures Together(Run(n, size, ts)) { NobodyLeavesEarly(n, size, ts); }
    } else {
      AboveOne(nthr);
      NoRounds(n);
    }
  }

  /** Without rounds a thread returns at once. */
  lemma NoRounds(n: nat)
    requires n >= 2
    ensures !Together(Run(n, 0, [0]))
  {
    var s := Run(n, 0, [0]);
    assert [0][..0] == [];
    assert Run(n, 0, [0][..0]) == Init(n, 0);
    assert s == Step(n, 0, Init(n, 0), 0);
    assert s.threads[0].done == 1 && Entered(s.threads[1]) == 0;
  }

  /** How far a thread is: episodes, then rounds, then half rounds. */
  ghost function Rank(size: nat, x: Thread): nat {
    (2 * size + 1) * x.done +
    (match x.pc case Outside => 0 case Signal(k) => 2 * k + 1 case Wait(k) => 2 * k + 2)
  }

  lemma {:induction false} Slowest(size: nat, xs: seq<Thread>) returns (t: nat)
    requires xs != []
    ensures t < |xs| && forall j :: 0 <= j < |xs| ==> Rank(size, xs[t]) <= Rank(size, xs[j])
  {
    if |xs| == 1 {
      t := 0;
    } else {
      t := Slowest(size, xs[..|xs| - 1]);
      if Rank(size, xs[|xs| - 1]) < Rank(size, xs[t]) { t := |xs| - 1; }
    }
  }

  /** The barrier cannot deadlock: the thread that is furthest behind can always move. */
  lemma SomebodyMoves(n: nat, size: nat, ts: seq<nat>) returns (t: nat)
    requires n > 0 && n <= Pow2(size)
    ensures t < n && Step(n, size, Run(n, size, ts), t) != Run(n, size, ts)
  {
    var s := Run(n, size, ts);
    RunInv(n, size, ts);
    t := Slowest(size, s.threads);
    var x := s.threads[t];
    if x.pc.Wait? {
      var k := x.pc.k;
      var w := s.threads[Pred(n, t, k)];
      assert LinkInv(n, s, t, k);
      RaisedMeansSignalled(x.done, Signals(w, k));
      if Signals(w, k) == x.done {
        assert Rank(size, x) <= Rank(size, w);
        BehindInRank(size, x, w);
      }
    }
  }

  lemma BehindInRank(size: nat, x: Thread, w: Thread)
    requires ThreadInv(size, x) && ThreadInv(size, w) && x.pc.Wait?
    requires Signals(w, x.pc.k) == x.done
    ensures Rank(size, w) < Rank(size, x)
  {
    if w.done != x.done {
      assert w.done + 1 == x.done;
      MulGap(2 * size + 1, w.done, x.done);
    }
  }
}
