/**
 The phase-fair reader-writer lock on its four 32-bit words, as a step machine: one fetch-and-add, load or
 AND per step, any number of threads. The words wrap around; the counts without wrap-around, which no step
 reads, are kept beside them.
 */
module Pflock {

  const WORD := 0x1_0000_0000
  const RINC := 0x100
  /** Reader counts that the words can tell apart. */
  const READERS := 0x100_0000

  datatype PC =
    | Idle
    | Turn(ticket: nat, n: nat)             // wait for wout to reach the ticket
    | Announce(ticket: nat, n: nat)         // fetch-and-add of the writer bits to rin
    | Drain(seen: nat, n: nat)              // wait for rout to reach the rin that was seen
    | Writing(n: nat)
    | Pass(n: nat)                          // writer bits cleared, wout still to be raised
    | Waiting(w: nat, a: nat, since: nat)   // wait for the writer bits to change
    | Reading(a: nat)

  /** `arrived` and `left` count readers, `issued` and `done` writers. `owner` is the thread whose bits are
      in rin, -1 if none, and `before` counts the readers that arrived before it announced itself;
      `passer` is the thread that has cleared its bits but not yet raised wout, -1 if none. */
  datatype State = State(rin: nat, rout: nat, win: nat, wout: nat, pcs: seq<PC>,
                         arrived: nat, left: nat, issued: nat, done: nat, owner: int, before: nat,
                         passer: int)

  function Init(): State { State(0, 0, 0, 0, [], 0, 0, 0, 0, -1, 0, -1) }

  /** Addition of words. */
  function Add(x: nat, y: nat): nat { if x + y < WORD then x + y else if x + y < 2 * WORD then x + y - WORD else 0 }

  /** A count wrapped around at m. */
  function Wrap(x: nat, m: nat): nat
    requires m > 0
  {
    if x < m then x else Wrap(x - m, m)
  }

  /** The two low bits of rin. */
  function WriterBits(x: nat): nat { x % 4 }

  /** x AND 0xFFFFFFF0. */
  function ClearBits(x: nat): nat { x - x % 16 }

  /** The writer's phase bit and its presence bit. */
  function Bits(ticket: nat): nat { ticket % 2 + 2 }

  function SetPC(s: State, t: nat, pc: PC): State
    requires t < |s.pcs|
  {
    s.(pcs := s.pcs[t := pc])
  }

  datatype Event = Spawn | ReadLock(t: nat) | ReadUnlock(t: nat) | WriteLock(t: nat) | WriteUnlock(t: nat) | Go(t: nat)

  /** Fewer than 2^24 readers, and fewer than 2^32 writers, are outstanding. */
  predicate MayRead(s: State) { s.arrived - s.left + 1 < READERS }

  predicate MayWrite(s: State) { s.issued - s.done + 1 < WORD }

  function Advance(s: State, t: nat): State
    requires t < |s.pcs|
  {
    match s.pcs[t]
    case Turn(ticket, n) => if s.wout == ticket then SetPC(s, t, Announce(ticket, n)) else s
    case Announce(ticket, n) =>
      SetPC(s.(rin := Add(s.rin, Bits(ticket)), owner := t, before := s.arrived), t, Drain(s.rin, n))
    case Drain(seen, n) => if s.rout == seen then SetPC(s, t, Writing(n)) else s
    case Pass(n) => SetPC(s.(wout := Add(s.wout, 1), done := s.done + 1, passer := -1), t, Idle)
    case Waiting(w, a, since) => if WriterBits(s.rin) != w then SetPC(s, t, Reading(a)) else s
    case _ => s
  }

  function Step(s: State, ev: Event): State {
    match ev
    case Spawn => s.(pcs := s.pcs + [Idle])
    case ReadLock(t) =>
      if t < |s.pcs| && s.pcs[t].Idle? && MayRead(s) then
        var w := WriterBits(s.rin);
        SetPC(s.(rin := Add(s.rin, RINC), arrived := s.arrived + 1), t,
              if w == 0 then Reading(s.arrived) else Waiting(w, s.arrived, s.done))
      else s
    case ReadUnlock(t) =>
      if t < |s.pcs| && s.pcs[t].Reading? then SetPC(s.(rout := Add(s.rout, RINC), left := s.left + 1), t, Idle) else s
    case WriteLock(t) =>
      if t < |s.pcs| && s.pcs[t].Idle? && MayWrite(s) then
        SetPC(s.(win := Add(s.win, 1), issued := s.issued + 1), t, Turn(s.win, s.issued))
      else s
    case WriteUnlock(t) =>
      if t < |s.pcs| && s.pcs[t].Writing? then
        SetPC(s.(rin := ClearBits(s.rin), owner := -1, passer := t), t, Pass(s.pcs[t].n))
      else s
    case Go(t) => if t < |s.pcs| then Advance(s, t) else s
  }

  function Run(evs: seq<Event>): State {
    if evs == [] then Init() else Step(Run(evs[..|evs| - 1]), evs[|evs| - 1])
  }

  // ---- Wrapping around ---------------------------------------------------------------------------------

  lemma {:induction false} WrapNext(x: nat, m: nat)
    requires m > 0
    ensures Wrap(x, m) < m && Wrap(x + 1, m) == if Wrap(x, m) + 1 < m then Wrap(x, m) + 1 else 0
    decreases x
  {
    if x >= m { WrapNext(x - m, m); }
  }

  /** Counts less than m apart are told apart. */
  lemma {:induction false} WrapSame(x: nat, y: nat, m: nat)
    requires m > 0 && x <= y < x + m && Wrap(x, m) == Wrap(y, m)
    ensures x == y
    decreases x
  {
    if x >= m {
      WrapSame(x - m, y - m, m);
    } else if y >= m {
      WrapNext(y - m, m);
    }
  }

  lemma ParityLess(x: nat, m: nat)
    requires m <= x && m % 2 == 0
    ensures (x - m) % 2 == x % 2
  {
  }

  lemma {:induction false} WrapParity(x: nat, m: nat)
    requires m > 0 && m % 2 == 0
    ensures Wrap(x, m) % 2 == x % 2
    decreases x
  {
    if x >= m {
      WrapParity(x - m, m);
      ParityLess(x, m);
    }
  }

  // ---- Counting readers --------------------------------------------------------------------------------

  predicate Reader(pc: PC) { pc.Waiting? || pc.Reading? }

  /** One if the thread is a reader that arrived among the first x. */
  function Early(pc: PC, x: nat): nat { if Reader(pc) && pc.a < x then 1 else 0 }

  function Present(pcs: seq<PC>, x: nat): nat {
    if pcs == [] then 0 else Present(pcs[..|pcs| - 1], x) + Early(pcs[|pcs| - 1], x)
  }

  lemma {:induction false} PresentUpdate(pcs: seq<PC>, t: nat, pc: PC, x: nat)
    requires t < |pcs|
    ensures Present(pcs[t := pc], x) + Early(pcs[t], x) == Present(pcs, x) + Early(pc, x)
  {
    var m := |pcs| - 1;
    if t < m {
      assert pcs[t := pc][..m] == pcs[..m][t := pc];
      PresentUpdate(pcs[..m], t, pc, x);
    } else {
      assert pcs[t := pc][..m] == pcs[..m];
    }
  }

  lemma PresentMore(pcs: seq<PC>, pc: PC, x: nat)
    ensures Present(pcs + [pc], x) == Present(pcs, x) + Early(pc, x)
  {
    assert (pcs + [pc])[..|pcs|] == pcs;
  }

  lemma {:induction false} NonePresent(pcs: seq<PC>, x: nat, t: nat)
    requires t < |pcs| && Present(pcs, x) == 0
    ensures Early(pcs[t], x) == 0
  {
    if t < |pcs| - 1 { NonePresent(pcs[..|pcs| - 1], x, t); }
  }

  lemma {:induction false} PresentSame(pcs: seq<PC>, x: nat, y: nat)
    requires x <= y && forall t :: 0 <= t < |pcs| && Reader(pcs[t]) ==> pcs[t].a < x
    ensures Present(pcs, x) == Present(pcs, y)
  {
    if pcs != [] {
      assert Reader(pcs[|pcs| - 1]) ==> pcs[|pcs| - 1].a < x;
      PresentSame(pcs[..|pcs| - 1], x, y);
    }
  }

  // ---- The invariant -----------------------------------------------------------------------------------

  /** The writer bits that belong in rin. */
  function Shown(s: State): nat { if s.owner >= 0 then Bits(s.done) else 0 }

  /** The words are the counts, wrapped around. */
  ghost predicate Words(s: State) {
    && s.rin == RINC * Wrap(s.arrived, READERS) + Shown(s) && s.rout == RINC * Wrap(s.left, READERS)
    && s.win == Wrap(s.issued, WORD) && s.wout == Wrap(s.done, WORD)
    && s.left <= s.arrived < s.left + READERS && s.done <= s.issued < s.done + WORD
  }

  predicate Holder(pc: PC) { pc.Drain? || pc.Writing? }

  predicate Writer(pc: PC) { pc.Turn? || pc.Announce? || pc.Drain? || pc.Writing? || pc.Pass? }

  ghost predicate PcOk(s: State, t: nat, pc: PC) {
    match pc
    case Idle => true
    case Turn(ticket, n) => ticket == Wrap(n, WORD) && s.done <= n < s.issued
    case Announce(ticket, n) => ticket == Wrap(n, WORD) && s.done == n < s.issued
    case Drain(seen, n) => s.done == n < s.issued && s.owner == t && seen == RINC * Wrap(s.before, READERS)
    case Writing(n) => s.done == n < s.issued && s.owner == t && s.left == s.before
    case Pass(n) => s.done == n < s.issued && s.passer == t
    case Waiting(w, a, since) =>
      && a < s.arrived && since <= s.done <= since + 1 && w == Bits(since)
      && (s.owner >= 0 ==> (s.done == since <==> a >= s.before))
      && (s.owner < 0 ==> (s.done == since <==> s.passer >= 0))
    case Reading(a) => a < s.arrived && (s.owner >= 0 ==> a < s.before)
  }

  ghost predicate PcsOk(s: State) {
    forall t: nat {:trigger s.pcs[t]} :: t < |s.pcs| ==> PcOk(s, t, s.pcs[t])
  }

  /** Writers hold different tickets. */
  ghost predicate Apart(s: State) {
    forall t: nat, u: nat {:trigger s.pcs[t], s.pcs[u]} ::
      t < u < |s.pcs| && Writer(s.pcs[t]) && Writer(s.pcs[u]) ==> s.pcs[t].n != s.pcs[u].n
  }

  ghost predicate Counts(s: State) {
    && Present(s.pcs, s.arrived) == s.arrived - s.left
    && (s.owner >= 0 ==>
          && s.owner < |s.pcs| && Holder(s.pcs[s.owner]) && s.left <= s.before <= s.arrived
          && Present(s.pcs, s.before) == s.before - s.left)
    && (s.passer >= 0 ==> s.owner < 0 && s.passer < |s.pcs| && s.pcs[s.passer].Pass?)
  }

  ghost predicate Inv(s: State) { Words(s) && PcsOk(s) && Apart(s) && Counts(s) }

  // ---- Steps preserve it -------------------------------------------------------------------------------

  /** The count of readers after thread t changed from one pc to another. */
  lemma Recount(s: State, t: nat, pc: PC)
    requires t < |s.pcs|
    ensures Present(s.pcs[t := pc], s.arrived) + Early(s.pcs[t], s.arrived) ==
            Present(s.pcs, s.arrived) + Early(pc, s.arrived)
    ensures Present(s.pcs[t := pc], s.before) + Early(s.pcs[t], s.before) ==
            Present(s.pcs, s.before) + Early(pc, s.before)
  {
    PresentUpdate(s.pcs, t, pc, s.arrived);
    PresentUpdate(s.pcs, t, pc, s.before);
  }

  /** A reader that is not among the early ones while a writer writes does not exist. */
  lemma NoneBefore(s: State, t: nat, u: nat)
    requires Inv(s) && t < |s.pcs| && s.pcs[t].Writing? && u < |s.pcs|
    ensures Early(s.pcs[u], s.before) == 0
  {
    assert PcOk(s, t, s.pcs[t]);
    NonePresent(s.pcs, s.before, u);
  }

  lemma BitsSeen(s: State)
    requires Words(s)
    ensures WriterBits(s.rin) == Shown(s)
  {
    assert s.rin == 4 * (64 * Wrap(s.arrived, READERS)) + Shown(s);
  }

  /** One more reader, on the words. */
  lemma ArriveWords(s: State)
    requires Words(s)
    ensures Add(s.rin, RINC) == RINC * Wrap(s.arrived + 1, READERS) + Shown(s)
  {
    WrapNext(s.arrived, READERS);
  }

  lemma LeaveWords(s: State)
    requires Words(s)
    ensures Add(s.rout, RINC) == RINC * Wrap(s.left + 1, READERS)
  {
    WrapNext(s.left, READERS);
  }

  lemma TicketWords(s: State)
    requires Words(s)
    ensures Add(s.win, 1) == Wrap(s.issued + 1, WORD) && Add(s.wout, 1) == Wrap(s.done + 1, WORD)
  {
    WrapNext(s.issued, WORD);
    WrapNext(s.done, WORD);
  }

  /** wout shows a ticket only when its turn has come. */
  lemma TurnWords(s: State, n: nat)
    requires Words(s) && s.done <= n < s.issued && s.wout == Wrap(n, WORD)
    ensures s.done == n
  {
    WrapSame(s.done, n, WORD);
  }

  /** rout shows the count of the readers before only when all of them have left. */
  lemma DrainWords(s: State)
    requires Words(s) && s.left <= s.before <= s.arrived && s.rout == RINC * Wrap(s.before, READERS)
    ensures s.left == s.before
  {
    WrapSame(s.left, s.before, READERS);
  }

  ghost predicate Others(s: State, s': State, t: nat) {
    && t < |s.pcs| == |s'.pcs|
    && forall u: nat {:trigger s.pcs[u]} :: u < |s.pcs| && u != t ==> s'.pcs[u] == s.pcs[u] && PcOk(s', u, s.pcs[u])
  }

  /** Thread t moved and the others still are where they may be. */
  lemma Moved(s: State, s': State, t: nat)
    requires Inv(s) && Others(s, s', t) && PcOk(s', t, s'.pcs[t]) && Words(s') && Counts(s')
    requires Writer(s'.pcs[t]) ==> (Writer(s.pcs[t]) && s'.pcs[t].n == s.pcs[t].n) || s'.pcs[t].n == s.issued
    ensures Inv(s')
  {
    forall u: nat | u < |s.pcs| && Writer(s.pcs[u]) ensures s.pcs[u].n < s.issued { assert PcOk(s, u, s.pcs[u]); }
    forall u: nat | u < |s'.pcs| ensures PcOk(s', u, s'.pcs[u]) {
      if u != t { assert s'.pcs[u] == s.pcs[u]; }
    }
    forall u: nat, v: nat | u < v < |s'.pcs| && Writer(s'.pcs[u]) && Writer(s'.pcs[v])
      ensures s'.pcs[u].n != s'.pcs[v].n
    {
      assert u != t ==> s'.pcs[u] == s.pcs[u];
      assert v != t ==> s'.pcs[v] == s.pcs[v];
    }
  }

  lemma TurnInv(s: State, t: nat)
    requires Inv(s) && t < |s.pcs| && s.pcs[t].Turn?
    ensures Inv(Advance(s, t))
  {
    var pc := s.pcs[t];
    assert PcOk(s, t, pc);
    if s.wout == pc.ticket {
      TurnWords(s, pc.n);
      var s' := SetPC(s, t, Announce(pc.ticket, pc.n));
      TurnCounts(s, t, s');
      forall u: nat | u < |s.pcs| && u != t ensures PcOk(s', u, s.pcs[u]) { assert PcOk(s, u, s.pcs[u]); }
      Moved(s, s', t);
    }
  }

  lemma TurnCounts(s: State, t: nat, s': State)
    requires Inv(s) && t < |s.pcs| && s.pcs[t].Turn? && s' == SetPC(s, t, Announce(s.pcs[t].ticket, s.pcs[t].n))
    ensures Words(s') && Counts(s')
  {
    Recount(s, t, s'.pcs[t]);
  }

  lemma OneTicket(s: State)
    requires Inv(s)
    ensures s.owner >= 0 ==> s.pcs[s.owner].n == s.done
    ensures s.passer >= 0 ==> s.pcs[s.passer].n == s.done
  {
    if s.owner >= 0 { assert PcOk(s, s.owner, s.pcs[s.owner]); }
    if s.passer >= 0 { assert PcOk(s, s.passer, s.pcs[s.passer]); }
  }

  /** Nobody else has announced itself or is passing the lock on. */
  lemma Alone(s: State, t: nat)
    requires Inv(s) && t < |s.pcs| && s.pcs[t].Announce?
    ensures s.owner < 0 && s.passer < 0
  {
    assert PcOk(s, t, s.pcs[t]);
    OneTicket(s);
  }

  lemma AnnounceWords(s: State, ticket: nat, n: nat)
    requires Words(s) && s.owner < 0 && ticket == Wrap(n, WORD) && s.done == n
    ensures Add(s.rin, Bits(ticket)) == RINC * Wrap(s.arrived, READERS) + Bits(s.done)
    ensures s.rin == RINC * Wrap(s.arrived, READERS)
  {
    WrapParity(n, WORD);
    WrapNext(s.arrived, READERS);
  }

  lemma AnnounceInv(s: State, t: nat)
    requires Inv(s) && t < |s.pcs| && s.pcs[t].Announce?
    ensures Inv(Advance(s, t))
  {
    var pc, s' := s.pcs[t], Advance(s, t);
    assert PcOk(s, t, pc);
    Alone(s, t);
    AnnounceWords(s, pc.ticket, pc.n);
    PresentUpdate(s.pcs, t, s'.pcs[t], s.arrived);
    forall u: nat | u < |s'.pcs| ensures PcOk(s', u, s'.pcs[u]) {
      assert PcOk(s, u, s.pcs[u]);
    }
  }

  lemma DrainInv(s: State, t: nat)
    requires Inv(s) && t < |s.pcs| && s.pcs[t].Drain?
    ensures Inv(Advance(s, t))
  {
    var pc := s.pcs[t];
    assert PcOk(s, t, pc);
    if s.rout == pc.seen {
      DrainWords(s);
      Recount(s, t, Writing(pc.n));
    }
  }

  lemma PassInv(s: State, t: nat)
    requires Inv(s) && t < |s.pcs| && s.pcs[t].Pass?
    ensures Inv(Advance(s, t))
  {
    var pc, s' := s.pcs[t], Advance(s, t);
    assert PcOk(s, t, pc);
    Recount(s, t, Idle);
    TicketWords(s);
    forall u: nat | u < |s'.pcs| ensures PcOk(s', u, s'.pcs[u]) {
      assert PcOk(s, u, s.pcs[u]);
      if u != t && Writer(s.pcs[u]) { assert s.pcs[t].n != s.pcs[u].n; }
    }
    Moved(s, s', t);
  }

  /** The bits seen have changed: the reader may go in. */
  lemma EnterPc(s: State, t: nat)
    requires Inv(s) && t < |s.pcs| && s.pcs[t].Waiting? && WriterBits(s.rin) != s.pcs[t].w
    ensures PcOk(s, t, Reading(s.pcs[t].a))
  {
    assert PcOk(s, t, s.pcs[t]);
    BitsSeen(s);
  }

  lemma EnterCounts(s: State, t: nat, s': State)
    requires Inv(s) && t < |s.pcs| && s.pcs[t].Waiting? && s' == SetPC(s, t, Reading(s.pcs[t].a))
    ensures Words(s') && Counts(s')
  {
    Recount(s, t, Reading(s.pcs[t].a));
  }

  lemma WaitingInv(s: State, t: nat)
    requires Inv(s) && t < |s.pcs| && s.pcs[t].Waiting?
    ensures Inv(Advance(s, t))
  {
    var s' := SetPC(s, t, Reading(s.pcs[t].a));
    if WriterBits(s.rin) != s.pcs[t].w {
      EnterPc(s, t);
      EnterCounts(s, t, s');
      forall u: nat | u < |s.pcs| && u != t ensures PcOk(s', u, s.pcs[u]) { assert PcOk(s, u, s.pcs[u]); }
      Moved(s, s', t);
    }
  }

  lemma ReadLockCounts(s: State, t: nat)
    requires Inv(s) && t < |s.pcs| && s.pcs[t].Idle? && MayRead(s)
    ensures Counts(Step(s, ReadLock(t)))
  {
    var s' := Step(s, ReadLock(t));
    ReadersArrived(s);
    PresentUpdate(s.pcs, t, s'.pcs[t], s.arrived + 1);
    PresentUpdate(s.pcs, t, s'.pcs[t], s.before);
  }

  lemma ReadersArrived(s: State)
    requires Inv(s)
    ensures Present(s.pcs, s.arrived) == Present(s.pcs, s.arrived + 1)
  {
    forall u: nat | u < |s.pcs| && Reader(s.pcs[u]) ensures s.pcs[u].a < s.arrived { assert PcOk(s, u, s.pcs[u]); }
    PresentSame(s.pcs, s.arrived, s.arrived + 1);
  }

  lemma ReadLockPc(s: State, t: nat)
    requires Inv(s) && t < |s.pcs| && s.pcs[t].Idle? && MayRead(s)
    ensures var s' := Step(s, ReadLock(t)); PcOk(s', t, s'.pcs[t])
  {
    BitsSeen(s);
  }

  lemma ReadLockInv(s: State, t: nat)
    requires Inv(s) && t < |s.pcs| && s.pcs[t].Idle? && MayRead(s)
    ensures Inv(Step(s, ReadLock(t)))
  {
    var s' := Step(s, ReadLock(t));
    ArriveWords(s);
    ReadLockCounts(s, t);
    ReadLockPc(s, t);
    forall u: nat | u < |s.pcs| && u != t ensures PcOk(s', u, s.pcs[u]) {
      assert PcOk(s, u, s.pcs[u]);
    }
    Moved(s, s', t);
  }

  lemma ReadUnlockInv(s: State, t: nat)
    requires Inv(s) && t < |s.pcs| && s.pcs[t].Reading?
    ensures Inv(Step(s, ReadUnlock(t)))
  {
    var s' := Step(s, ReadUnlock(t));
    assert PcOk(s, t, s.pcs[t]);
    Recount(s, t, Idle);
    LeaveWords(s);
    forall u: nat | u < |s'.pcs| ensures PcOk(s', u, s'.pcs[u]) {
      assert PcOk(s, u, s.pcs[u]);
      if s.pcs[u].Writing? { NoneBefore(s, u, t); }
    }
    Moved(s, s', t);
  }

  lemma WriteLockInv(s: State, t: nat)
    requires Inv(s) && t < |s.pcs| && s.pcs[t].Idle? && MayWrite(s)
    ensures Inv(Step(s, WriteLock(t)))
  {
    var s' := Step(s, WriteLock(t));
    WriteLockCounts(s, t, s');
    forall u: nat | u < |s'.pcs| ensures PcOk(s', u, s'.pcs[u]) {
      assert PcOk(s, u, s.pcs[u]);
    }
    Moved(s, s', t);
  }

  lemma WriteLockCounts(s: State, t: nat, s': State)
    requires Inv(s) && t < |s.pcs| && s.pcs[t].Idle? && MayWrite(s) && s' == Step(s, WriteLock(t))
    ensures Words(s') && Counts(s')
  {
    Recount(s, t, s'.pcs[t]);
    TicketWords(s);
  }

  lemma WriteUnlockInv(s: State, t: nat)
    requires Inv(s) && t < |s.pcs| && s.pcs[t].Writing?
    ensures Inv(Step(s, WriteUnlock(t)))
  {
    var s' := Step(s, WriteUnlock(t));
    assert PcOk(s, t, s.pcs[t]);
    Recount(s, t, s'.pcs[t]);
    assert s'.rin == RINC * Wrap(s'.arrived, READERS);
    forall u: nat | u < |s'.pcs| ensures PcOk(s', u, s'.pcs[u]) {
      assert PcOk(s, u, s.pcs[u]);
      NoneBefore(s, t, u);
      if u != t && Writer(s.pcs[u]) { assert s.pcs[t].n != s.pcs[u].n; }
    }
  }

  lemma SpawnInv(s: State)
    requires Inv(s)
    ensures Inv(Step(s, Spawn))
  {
    var s' := Step(s, Spawn);
    SpawnCounts(s);
    forall u: nat | u < |s'.pcs| ensures PcOk(s', u, s'.pcs[u]) {
      if u < |s.pcs| { SpawnPc(s, u); }
    }
    SpawnApart(s);
  }

  lemma SpawnApart(s: State)
    requires Apart(s)
    ensures Apart(Step(s, Spawn))
  {
  }

  lemma SpawnCounts(s: State)
    requires Words(s) && Counts(s)
    ensures Words(Step(s, Spawn)) && Counts(Step(s, Spawn))
  {
    PresentMore(s.pcs, Idle, s.arrived);
    PresentMore(s.pcs, Idle, s.before);
  }

  lemma SpawnPc(s: State, u: nat)
    requires PcsOk(s) && u < |s.pcs|
    ensures PcOk(Step(s, Spawn), u, s.pcs[u])
  {
    assert PcOk(s, u, s.pcs[u]);
  }

  lemma StepInv(s: State, ev: Event)
    requires Inv(s)
    ensures Inv(Step(s, ev))
  {
    match ev
    case Spawn => SpawnInv(s);
    case ReadLock(t) => if t < |s.pcs| && s.pcs[t].Idle? && MayRead(s) { ReadLockInv(s, t); }
    case ReadUnlock(t) => if t < |s.pcs| && s.pcs[t].Reading? { ReadUnlockInv(s, t); }
    case WriteLock(t) => if t < |s.pcs| && s.pcs[t].Idle? && MayWrite(s) { WriteLockInv(s, t); }
    case WriteUnlock(t) => if t < |s.pcs| && s.pcs[t].Writing? { WriteUnlockInv(s, t); }
    case Go(t) =>
      if t < |s.pcs| {
        match s.pcs[t]
        case Turn(_, _) => TurnInv(s, t);
        case Announce(_, _) => AnnounceInv(s, t);
        case Drain(_, _) => DrainInv(s, t);
        case Pass(_) => PassInv(s, t);
        case Waiting(_, _, _) => WaitingInv(s, t);
        case _ =>
      }
  }

  lemma {:induction false} RunInv(evs: seq<Event>)
    ensures Inv(Run(evs))
  {
    if evs != [] {
      RunInv(evs[..|evs| - 1]);
      StepInv(Run(evs[..|evs| - 1]), evs[|evs| - 1]);
    }
  }

  // ---- What every run guarantees -----------------------------------------------------------------------

  /** A thread that holds the lock for writing is the only holder. */
  lemma WriterExcludesAll(evs: seq<Event>, t: nat, u: nat)
    requires var s := Run(evs); t < |s.pcs| && u < |s.pcs| && t != u && s.pcs[t].Writing?
    ensures !Run(evs).pcs[u].Writing? && !Run(evs).pcs[u].Reading?
  {
    RunInv(evs);
    var s := Run(evs);
    assert PcOk(s, t, s.pcs[t]) && PcOk(s, u, s.pcs[u]);
    NoneBefore(s, t, u);
  }

  /** How many write critical sections have begun. */
  function Begun(s: State): nat {
    s.done + if s.passer >= 0 || (0 <= s.owner < |s.pcs| && s.pcs[s.owner].Writing?) then 1 else 0
  }

  /** A reader that waits has seen at most one write critical section since it arrived: `since` counts the
      sections that were over when it arrived. */
  lemma AtMostOneWriter(evs: seq<Event>, t: nat)
    requires var s := Run(evs); t < |s.pcs| && s.pcs[t].Waiting?
    ensures Run(evs).pcs[t].since <= Begun(Run(evs)) <= Run(evs).pcs[t].since + 1
  {
    RunInv(evs);
    var s := Run(evs);
    assert PcOk(s, t, s.pcs[t]);
    if 0 <= s.owner < |s.pcs| && s.pcs[s.owner].Writing? { NoneBefore(s, s.owner, t); }
  }

  /** Sections begin one at a time, with the thread that enters. */
  lemma BegunCounts(evs: seq<Event>, ev: Event)
    ensures var s, s' := Run(evs), Run(evs + [ev]);
            && Begun(s) <= Begun(s') <= Begun(s) + 1
            && (Begun(s') == Begun(s) + 1 <==>
                  ev.Go? && ev.t < |s.pcs| && s.pcs[ev.t].Drain? && s'.pcs[ev.t].Writing?)
  {
    var s := Run(evs);
    RunInv(evs);
    RunInv(evs + [ev]);
    assert (evs + [ev])[..|evs|] == evs;
    assert Run(evs + [ev]) == Step(s, ev);
    BegunStep(s, ev);
  }

  lemma BegunStep(s: State, ev: Event)
    requires Inv(s)
    ensures var s' := Step(s, ev);
            && Begun(s) <= Begun(s') <= Begun(s) + 1
            && (Begun(s') == Begun(s) + 1 <==>
                  ev.Go? && ev.t < |s.pcs| && s.pcs[ev.t].Drain? && s'.pcs[ev.t].Writing?)
  {
    if !ev.Spawn? && ev.t < |s.pcs| {
      assert PcOk(s, ev.t, s.pcs[ev.t]);
      if s.pcs[ev.t].Announce? { Alone(s, ev.t); }
    }
  }

  // ---- Readers enter in their phase --------------------------------------------------------------------------

  /** How many write critical sections have ended. */
  function Ended(s: State): nat { s.done + if s.passer >= 0 then 1 else 0 }

  /** The unlock events that end a write critical section. */
  function Unlocks(evs: seq<Event>): nat {
    if evs == [] then 0
    else
      var s, ev := Run(evs[..|evs| - 1]), evs[|evs| - 1];
      Unlocks(evs[..|evs| - 1]) + if ev.WriteUnlock? && ev.t < |s.pcs| && s.pcs[ev.t].Writing? then 1 else 0
  }

  lemma EndedStep(s: State, ev: Event)
    requires Inv(s)
    ensures Ended(Step(s, ev)) ==
            Ended(s) + if ev.WriteUnlock? && ev.t < |s.pcs| && s.pcs[ev.t].Writing? then 1 else 0
  {
    if !ev.Spawn? && ev.t < |s.pcs| { assert PcOk(s, ev.t, s.pcs[ev.t]); }
  }

  lemma {:induction false} EndedIsUnlocks(evs: seq<Event>)
    ensures Ended(Run(evs)) == Unlocks(evs)
  {
    if evs != [] {
      EndedIsUnlocks(evs[..|evs| - 1]);
      RunInv(evs[..|evs| - 1]);
      EndedStep(Run(evs[..|evs| - 1]), evs[|evs| - 1]);
    }
  }

  /** A waiting reader can enter exactly if a section has ended since it arrived. */
  lemma EntersWhenEnded(s: State, t: nat)
    requires Inv(s) && t < |s.pcs| && s.pcs[t].Waiting?
    ensures Step(s, Go(t)).pcs[t].Reading? <==> Ended(s) > s.pcs[t].since
    ensures Step(s, Go(t)) != s <==> Ended(s) > s.pcs[t].since
  {
    assert PcOk(s, t, s.pcs[t]);
    BitsSeen(s);
  }

  /** A reader starts to wait at its read_lock, and counts the sections that have ended by then. */
  lemma WaitStep(s: State, ev: Event, t: nat)
    requires Inv(s) && t < |Step(s, ev).pcs| && Step(s, ev).pcs[t].Waiting?
    ensures t < |s.pcs|
    ensures s.pcs[t] == Step(s, ev).pcs[t] || (ev == ReadLock(t) && Step(s, ev).pcs[t].since == Ended(s))
  {
    if ev == ReadLock(t) { BitsSeen(s); }
  }

  /** Thread t is at `pc` after n events. */
  ghost predicate IsAt(evs: seq<Event>, n: nat, t: nat, pc: PC) {
    n <= |evs| && t < |Run(evs[..n]).pcs| && Run(evs[..n]).pcs[t] == pc
  }

  lemma WaitBefore(evs: seq<Event>, n: nat, t: nat, pc: PC)
    requires pc.Waiting? && 0 < n && IsAt(evs, n, t, pc)
    ensures t < |Run(evs[..n - 1]).pcs|
    ensures IsAt(evs, n - 1, t, pc) ||
              (evs[n - 1] == ReadLock(t) && pc.since == Unlocks(evs[..n - 1]) && Run(evs[..n - 1]).pcs[t].Idle?)
  {
    var front := evs[..n - 1];
    assert evs[..n][..n - 1] == front && evs[..n][n - 1] == evs[n - 1];
    RunInv(front);
    WaitStep(Run(front), evs[n - 1], t);
    EndedIsUnlocks(front);
  }

  /** The read_lock call of a waiting reader: event a, since which it has been waiting. */
  lemma {:induction false} Arrival(evs: seq<Event>, n: nat, t: nat, pc: PC) returns (a: nat)
    requires pc.Waiting? && IsAt(evs, n, t, pc)
    ensures a < n && evs[a] == ReadLock(t) && pc.since == Unlocks(evs[..a]) && IsAt(evs, a, t, Idle)
    ensures forall m :: a < m <= n ==> IsAt(evs, m, t, pc)
    decreases n
  {
    WaitBefore(evs, n, t, pc);
    if IsAt(evs, n - 1, t, pc) {
      a := Arrival(evs, n - 1, t, pc);
    } else {
      a := n - 1;
    }
  }

  /** Phase fairness: a waiting reader enters at its next step if and only if a write critical section has
      ended since its read_lock, event a, whoever has announced itself in the meantime. */
  lemma PhaseFair(evs: seq<Event>, t: nat) returns (a: nat)
    requires t < |Run(evs).pcs| && Run(evs).pcs[t].Waiting?
    ensures a < |evs| && evs[a] == ReadLock(t) && IsAt(evs, a, t, Idle)
    ensures forall n :: a < n <= |evs| ==> IsAt(evs, n, t, Run(evs).pcs[t])
    ensures t < |Run(evs + [Go(t)]).pcs|
    ensures Run(evs + [Go(t)]).pcs[t].Reading? <==> Unlocks(evs[..a]) < Unlocks(evs)
  {
    assert evs[..|evs|] == evs;
    a := Arrival(evs, |evs|, t, Run(evs).pcs[t]);
    RunInv(evs);
    EntersWhenEnded(Run(evs), t);
    EndedIsUnlocks(evs);
    assert (evs + [Go(t)])[..|evs|] == evs;
  }

  /** A reader that finds no writer announced enters at once. */
  lemma ReadsAtOnce(evs: seq<Event>, t: nat)
    requires t < |Run(evs).pcs| && Run(evs).pcs[t].Idle? && MayRead(Run(evs))
    ensures var s := Run(evs);
            && t < |Step(s, ReadLock(t)).pcs|
            && (Step(s, ReadLock(t)).pcs[t].Reading? <==>
                  forall u :: 0 <= u < |s.pcs| ==> !s.pcs[u].Drain? && !s.pcs[u].Writing?)
  {
    RunInv(evs);
    var s := Run(evs);
    BitsSeen(s);
    forall u: nat | u < |s.pcs| && Holder(s.pcs[u]) ensures s.owner == u { assert PcOk(s, u, s.pcs[u]); }
  }

  // ---- The lock is never stuck ---------------------------------------------------------------------------------

  ghost predicate Held(s: State, n: nat) { exists t :: 0 <= t < |s.pcs| && Writer(s.pcs[t]) && s.pcs[t].n == n }

  /** Every ticket that is out is in somebody's hands. */
  ghost predicate TicketsHeld(s: State) {
    forall n: nat {:trigger Held(s, n)} :: s.done <= n < s.issued ==> Held(s, n)
  }

  lemma TicketStep(s: State, ev: Event, n: nat)
    requires Inv(s) && TicketsHeld(s) && Step(s, ev).done <= n < Step(s, ev).issued
    ensures Held(Step(s, ev), n)
  {
    var s' := Step(s, ev);
    if n == s.issued {
      assert Writer(s'.pcs[ev.t]) && s'.pcs[ev.t].n == n;
    } else {
      assert Held(s, n);
      var u :| 0 <= u < |s.pcs| && Writer(s.pcs[u]) && s.pcs[u].n == n;
      if !ev.Spawn? && ev.t < |s.pcs| { assert PcOk(s, ev.t, s.pcs[ev.t]); }
      assert Writer(s'.pcs[u]) && s'.pcs[u].n == n;
    }
  }

  lemma {:induction false} TicketsRun(evs: seq<Event>)
    ensures TicketsHeld(Run(evs))
  {
    if evs != [] {
      var s := Run(evs[..|evs| - 1]);
      RunInv(evs[..|evs| - 1]);
      TicketsRun(evs[..|evs| - 1]);
      forall n: nat | Run(evs).done <= n < Run(evs).issued ensures Held(Run(evs), n) {
        TicketStep(s, evs[|evs| - 1], n);
      }
    }
  }

  lemma {:induction false} SomePresent(pcs: seq<PC>, x: nat) returns (t: nat)
    requires Present(pcs, x) > 0
    ensures t < |pcs| && Reader(pcs[t]) && pcs[t].a < x
  {
    t := |pcs| - 1;
    if Early(pcs[t], x) == 0 { t := SomePresent(pcs[..|pcs| - 1], x); }
  }

  predicate Moves(s: State, t: nat) { t < |s.pcs| && Step(s, Go(t)) != s }

  /** A writer that has announced itself can enter, or a reader ahead of it can. */
  lemma DrainMoves(s: State, t: nat) returns (u: nat)
    requires Inv(s) && t < |s.pcs| && s.pcs[t].Drain? && forall v :: 0 <= v < |s.pcs| ==> !s.pcs[v].Reading?
    ensures Moves(s, u)
  {
    assert PcOk(s, t, s.pcs[t]);
    if s.left == s.before {
      u := t;
    } else {
      u := SomePresent(s.pcs, s.before);
      assert PcOk(s, u, s.pcs[u]);
      EntersWhenEnded(s, u);
    }
  }

  /** The thread whose turn it is to write can move. */
  lemma TurnMoves(s: State) returns (u: nat)
    requires Inv(s) && TicketsHeld(s) && s.done < s.issued
    requires forall v :: 0 <= v < |s.pcs| ==> !s.pcs[v].Reading? && !s.pcs[v].Writing?
    ensures Moves(s, u)
  {
    assert Held(s, s.done);
    u :| 0 <= u < |s.pcs| && Writer(s.pcs[u]) && s.pcs[u].n == s.done;
    assert PcOk(s, u, s.pcs[u]);
    if s.pcs[u].Drain? { u := DrainMoves(s, u); }
  }

  /** The lock is never stuck: when nobody holds it and somebody wants it, some thread can move. */
  lemma SomebodyMoves(evs: seq<Event>, t: nat) returns (u: nat)
    requires t < |Run(evs).pcs| && !Run(evs).pcs[t].Idle?
    requires forall v :: 0 <= v < |Run(evs).pcs| ==> !Run(evs).pcs[v].Reading? && !Run(evs).pcs[v].Writing?
    ensures Moves(Run(evs), u)
  {
    var s := Run(evs);
    RunInv(evs);
    TicketsRun(evs);
    assert PcOk(s, t, s.pcs[t]);
    if Writer(s.pcs[t]) {
      u := TurnMoves(s);
    } else {
      EntersWhenEnded(s, t);
      if Ended(s) > s.pcs[t].since {
        u := t;
      } else {
        u := DrainMoves(s, s.owner);
      }
    }
  }

  lemma NobodyThere(s: State)
    requires Inv(s) && TicketsHeld(s) && forall u :: 0 <= u < |s.pcs| ==> s.pcs[u].Idle?
    ensures s.win == s.wout && s.rin == s.rout && MayWrite(s)
  {
    assert s.done < s.issued ==> Held(s, s.done);
    if s.left < s.arrived {
      var u := SomePresent(s.pcs, s.arrived);
    }
  }

  /** With nobody else at the lock, a writer enters in three steps. */
  lemma WritesAlone(evs: seq<Event>, t: nat)
    requires t < |Run(evs).pcs| && forall u :: 0 <= u < |Run(evs).pcs| ==> Run(evs).pcs[u].Idle?
    ensures var s := Run(evs);
            && t < |Step(s, WriteLock(t)).pcs|
            && Step(Step(Step(Step(s, WriteLock(t)), Go(t)), Go(t)), Go(t)).pcs == s.pcs[t := Writing(s.issued)]
  {
    var s := Run(evs);
    RunInv(evs);
    TicketsRun(evs);
    NobodyThere(s);
    ThreeSteps(s, t);
  }

  lemma ThreeSteps(s: State, t: nat)
    requires t < |s.pcs| && s.pcs[t].Idle? && s.win == s.wout && s.rin == s.rout && MayWrite(s)
    ensures Step(Step(Step(Step(s, WriteLock(t)), Go(t)), Go(t)), Go(t)).pcs == s.pcs[t := Writing(s.issued)]
  {
    var s1 := Step(s, WriteLock(t));
    assert s1.pcs == s.pcs[t := Turn(s.win, s.issued)] && s1.wout == s.win;
    var s2 := Step(s1, Go(t));
    assert s2.pcs == s.pcs[t := Announce(s.win, s.issued)] && s2.rin == s2.rout;
    var s3 := Step(s2, Go(t));
    assert s3.pcs == s.pcs[t := Drain(s2.rin, s.issued)] && s3.rout == s2.rout;
  }
}
