/**
 The bounded ring buffer with any number of producers and consumers, as a step machine: one shared load,
 store or compare-and-swap per step. Counters are unbounded; a slot is the counter modulo the size.
 */
module Ring {
  import opened Internal

  datatype PC =
    | Idle
    // enqueue of v
    | LoadConsumer(v: int, p: nat)            // p: the producer snapshot
    | Claim(v: int, p: nat, c: nat)           // compare-and-swap of p_head
    | Copy(v: int, i: nat)                    // write the claimed slot
    | Wait(i: nat)                            // until the producers before have published
    | Publish(i: nat)
    // dequeue
    | LoadProducer(c: nat, try: bool)         // c: the consumer snapshot
    | Fetch(c: nat, try: bool)                // read the slot
    | Take(c: nat, v: int, try: bool)         // compare-and-swap of c_head

  /** `log` holds every value enqueued so far, in the order of the claims; `out` every value dequeued. */
  datatype State = State(size: nat, cHead: nat, pTail: nat, pHead: nat, buf: seq<int>, pcs: seq<PC>,
                         log: seq<int>, out: seq<int>)

  function Init(size: nat): State
    requires size > 0
  {
    State(size, 0, 0, 0, seq(size, _ => 0), [], [], [])
  }

  function Cell(s: State, i: nat): nat { if s.size == 0 then 0 else i % s.size }

  function SetPC(s: State, t: nat, pc: PC): State
    requires t < |s.pcs|
  {
    s.(pcs := s.pcs[t := pc])
  }

  function Advance(s: State, t: nat): State
    requires t < |s.pcs|
  {
    match s.pcs[t]
    case Idle => s
    case LoadConsumer(v, p) =>
      if Cell(s, p + 1) == Cell(s, s.cHead) then SetPC(s, t, Idle) else SetPC(s, t, Claim(v, p, s.cHead))
    case Claim(v, p, c) =>
      if s.pHead == p then SetPC(s.(pHead := p + 1, log := s.log + [v]), t, Copy(v, p))
      else SetPC(s, t, LoadConsumer(v, s.pHead))
    case Copy(v, i) =>
      if Cell(s, i) < |s.buf| then SetPC(s.(buf := s.buf[Cell(s, i) := v]), t, Wait(i)) else s
    case Wait(i) => if s.pTail == i then SetPC(s, t, Publish(i)) else s
    case Publish(i) => SetPC(s.(pTail := i + 1), t, Idle)
    case LoadProducer(c, try) => if c == s.pTail then SetPC(s, t, Idle) else SetPC(s, t, Fetch(c, try))
    case Fetch(c, try) => if Cell(s, c) < |s.buf| then SetPC(s, t, Take(c, s.buf[Cell(s, c)], try)) else s
    case Take(c, v, try) =>
      if s.cHead == c then SetPC(s.(cHead := c + 1, out := s.out + [v]), t, Idle)
      else if try then SetPC(s, t, Idle)
      else SetPC(s, t, LoadProducer(s.cHead, false))
  }

  datatype Event = Spawn | Enqueue(t: nat, v: int) | Dequeue(t: nat) | TryDequeue(t: nat) | Go(t: nat)

  function Step(s: State, ev: Event): State {
    match ev
    case Spawn => s.(pcs := s.pcs + [Idle])
    case Enqueue(t, v) => if t < |s.pcs| && s.pcs[t].Idle? then SetPC(s, t, LoadConsumer(v, s.pHead)) else s
    case Dequeue(t) => if t < |s.pcs| && s.pcs[t].Idle? then SetPC(s, t, LoadProducer(s.cHead, false)) else s
    case TryDequeue(t) => if t < |s.pcs| && s.pcs[t].Idle? then SetPC(s, t, LoadProducer(s.cHead, true)) else s
    case Go(t) => if t < |s.pcs| then Advance(s, t) else s
  }

  function Run(size: nat, evs: seq<Event>): State
    requires size > 0
  {
    if evs == [] then Init(size) else Step(Run(size, evs[..|evs| - 1]), evs[|evs| - 1])
  }

  // ---- The invariant ---------------------------------------------------------------------------------------

  /** Slot i holds the i-th value. */
  ghost predicate HoldsAt(s: State, i: nat) { Cell(s, i) < |s.buf| && i < |s.log| && s.buf[Cell(s, i)] == s.log[i] }

  ghost predicate Window(s: State) {
    && s.size > 0 && |s.buf| == s.size && |s.log| == s.pHead && |s.out| == s.cHead
    && s.cHead <= s.pTail <= s.pHead <= s.cHead + s.size - 1
  }

  /** Published slots that are not consumed hold their values, and what was consumed came out in order. */
  ghost predicate Held(s: State) {
    && (forall i: nat {:trigger HoldsAt(s, i)} :: s.cHead <= i < s.pTail ==> HoldsAt(s, i))
    && s.out <= s.log
  }

  /** The thread has claimed slot i. */
  predicate Claims(pc: PC, i: int) { (pc.Copy? || pc.Wait? || pc.Publish?) && pc.i == i }

  ghost predicate PcOk(s: State, pc: PC) {
    match pc
    case Idle => true
    case LoadConsumer(v, p) => p <= s.pHead
    case Claim(v, p, c) => p <= s.pHead && c <= s.cHead && (s.pHead == p ==> p + 1 <= c + s.size - 1)
    case Copy(v, i) => s.pTail <= i < s.pHead && i < |s.log| && s.log[i] == v
    case Wait(i) => s.pTail <= i < s.pHead && HoldsAt(s, i)
    case Publish(i) => s.pTail == i < s.pHead && HoldsAt(s, i)
    case LoadProducer(c, _) => c <= s.cHead
    case Fetch(c, _) => c <= s.cHead && c < s.pTail
    case Take(c, v, _) => c <= s.cHead && c < s.pTail && (s.cHead == c ==> c < |s.log| && v == s.log[c])
  }

  ghost predicate PcsOk(s: State) {
    forall t: nat {:trigger s.pcs[t]} :: t < |s.pcs| ==> PcOk(s, s.pcs[t])
  }

  /** No slot is claimed twice. */
  ghost predicate Apart(s: State) {
    forall t: nat, u: nat, i: nat {:trigger Claims(s.pcs[t], i), Claims(s.pcs[u], i)} ::
      t < u < |s.pcs| && Claims(s.pcs[t], i) ==> !Claims(s.pcs[u], i)
  }

  ghost predicate Inv(s: State) { Window(s) && Held(s) && PcsOk(s) && Apart(s) }

  // ---- Slots ---------------------------------------------------------------------------------------------------

  /** Counters that share a slot are a whole round apart. */
  lemma CellsApart(size: nat, i: nat, j: nat)
    requires size > 0 && i <= j && i % size == j % size
    ensures i == j || i + size <= j
  {
    var q, q', r := i / size, j / size, i % size;
    assert i == size * q + r && j == size * q' + r;
    if q < q' { MulGap(size, q, q'); } else if q' < q { MulGap(size, q', q); }
  }

  lemma Wrap(size: nat, i: nat)
    requires size > 0
    ensures (i + size) % size == i % size
  {
    var q, r := i / size, i % size;
    assert i + size == size * (q + 1) + r by { assert size * (q + 1) == size * q + size; }
    DivModUnique(i + size, size, q + 1, r);
  }

  lemma OtherCell(s: State, i: nat, j: nat)
    requires Window(s) && s.cHead <= i < s.pHead && s.cHead <= j < s.pHead && i != j
    ensures Cell(s, i) != Cell(s, j)
  {
    if Cell(s, i) == Cell(s, j) {
      if i < j { CellsApart(s.size, i, j); } else { CellsApart(s.size, j, i); }
    }
  }

  // ---- Steps preserve it -----------------------------------------------------------------------------------------

  /** A step that only changes the thread's program counter and claims nothing new. */
  lemma Local(s: State, t: nat, pc: PC)
    requires Inv(s) && t < |s.pcs| && PcOk(s, pc) && forall i :: Claims(pc, i) ==> Claims(s.pcs[t], i)
    ensures Inv(SetPC(s, t, pc))
  {
    var s' := SetPC(s, t, pc);
    forall i: nat | s'.cHead <= i < s'.pTail ensures HoldsAt(s', i) { assert HoldsAt(s, i); }
    forall u: nat | u < |s'.pcs| ensures PcOk(s', s'.pcs[u]) {
      if u != t { Framed(s, s', s.pcs[u]); } else { Framed(s, s', pc); }
    }
  }

  lemma Framed(s: State, s': State, pc: PC)
    requires PcOk(s, pc) && s' == s.(pcs := s'.pcs)
    ensures PcOk(s', pc)
  {
    if pc.Wait? || pc.Publish? { assert HoldsAt(s', pc.i); }
  }

  lemma ClaimInv(s: State, t: nat)
    requires Inv(s) && t < |s.pcs| && s.pcs[t].Claim?
    ensures Inv(Advance(s, t))
  {
    var pc, s' := s.pcs[t], Advance(s, t);
    assert PcOk(s, pc);
    if s.pHead == pc.p {
      forall i: nat | s'.cHead <= i < s'.pTail ensures HoldsAt(s', i) { assert HoldsAt(s, i); }
      forall u: nat | u < |s'.pcs| ensures PcOk(s', s'.pcs[u]) {
        if u != t { ClaimedOther(s, s', s.pcs[u]); }
      }
      forall u: nat | u < |s.pcs| ensures !Claims(s.pcs[u], pc.p) { assert PcOk(s, s.pcs[u]); }
    } else {
      Local(s, t, LoadConsumer(pc.v, s.pHead));
    }
  }

  lemma ClaimedOther(s: State, s': State, pc: PC)
    requires PcOk(s, pc) && |s.log| == s.pHead
    requires exists v :: s' == s.(pHead := s.pHead + 1, log := s.log + [v], pcs := s'.pcs)
    ensures PcOk(s', pc)
  {
    if pc.Wait? || pc.Publish? { assert HoldsAt(s, pc.i) && HoldsAt(s', pc.i); }
  }

  lemma CopyInv(s: State, t: nat)
    requires Inv(s) && t < |s.pcs| && s.pcs[t].Copy?
    ensures Inv(Advance(s, t))
  {
    var pc, s' := s.pcs[t], Advance(s, t);
    assert PcOk(s, pc);
    forall i: nat | s'.cHead <= i < s'.pTail ensures HoldsAt(s', i) {
      assert HoldsAt(s, i);
      OtherCell(s, i, pc.i);
    }
    forall u: nat | u < |s'.pcs| ensures PcOk(s', s'.pcs[u]) {
      if u != t { CopiedOther(s, s', t, u); } else { assert HoldsAt(s', pc.i); }
    }
    forall u: nat, w: nat, i: nat | u < w < |s'.pcs| && Claims(s'.pcs[u], i) ensures !Claims(s'.pcs[w], i) {
      assert Claims(s.pcs[u], i);
      assert Claims(s.pcs[w], i) <==> Claims(s'.pcs[w], i);
    }
  }

  lemma CopiedOther(s: State, s': State, t: nat, u: nat)
    requires Inv(s) && t < |s.pcs| && u < |s.pcs| && u != t && s.pcs[t].Copy? && s' == Advance(s, t)
    ensures PcOk(s', s.pcs[u])
  {
    var pc, i := s.pcs[u], s.pcs[t].i;
    assert PcOk(s, pc) && PcOk(s, s.pcs[t]);
    if pc.Wait? || pc.Publish? {
      assert Claims(pc, pc.i) && Claims(s.pcs[t], i);
      assert HoldsAt(s, pc.i);
      OtherCell(s, pc.i, i);
      assert HoldsAt(s', pc.i);
    }
  }

  lemma PublishInv(s: State, t: nat)
    requires Inv(s) && t < |s.pcs| && s.pcs[t].Publish?
    ensures Inv(Advance(s, t))
  {
    var pc, s' := s.pcs[t], Advance(s, t);
    assert PcOk(s, pc);
    forall i: nat | s'.cHead <= i < s'.pTail ensures HoldsAt(s', i) { assert HoldsAt(s, i); }
    forall u: nat | u < |s'.pcs| ensures PcOk(s', s'.pcs[u]) {
      if u != t { PublishedOther(s, s', t, u); }
    }
  }

  lemma PublishedOther(s: State, s': State, t: nat, u: nat)
    requires Inv(s) && t < |s.pcs| && u < |s.pcs| && u != t && s.pcs[t].Publish? && s' == Advance(s, t)
    ensures PcOk(s', s.pcs[u])
  {
    var pc := s.pcs[u];
    assert PcOk(s, pc) && PcOk(s, s.pcs[t]);
    if pc.Copy? || pc.Wait? || pc.Publish? {
      assert Claims(pc, pc.i) && Claims(s.pcs[t], s.pcs[t].i);
      if !pc.Copy? { assert HoldsAt(s, pc.i) && HoldsAt(s', pc.i); }
    }
  }

  lemma TakeInv(s: State, t: nat)
    requires Inv(s) && t < |s.pcs| && s.pcs[t].Take?
    ensures Inv(Advance(s, t))
  {
    var pc, s' := s.pcs[t], Advance(s, t);
    assert PcOk(s, pc);
    if s.cHead == pc.c {
      forall i: nat | s'.cHead <= i < s'.pTail ensures HoldsAt(s', i) { assert HoldsAt(s, i); }
      forall u: nat | u < |s'.pcs| ensures PcOk(s', s'.pcs[u]) {
        if u != t {
          assert PcOk(s, s.pcs[u]);
          if s.pcs[u].Wait? || s.pcs[u].Publish? { assert HoldsAt(s', s.pcs[u].i); }
        }
      }
    } else {
      Local(s, t, s'.pcs[t]);
    }
  }

  lemma LoadConsumerInv(s: State, t: nat)
    requires Inv(s) && t < |s.pcs| && s.pcs[t].LoadConsumer?
    ensures Inv(Advance(s, t))
  {
    assert PcOk(s, s.pcs[t]);
    Wrap(s.size, s.cHead);
    Local(s, t, Advance(s, t).pcs[t]);
  }

  lemma AdvanceInv(s: State, t: nat)
    requires Inv(s) && t < |s.pcs|
    ensures Inv(Advance(s, t))
  {
    var pc := s.pcs[t];
    assert PcOk(s, pc);
    match pc
    case Idle =>
    case LoadConsumer(_, _) => LoadConsumerInv(s, t);
    case Claim(_, _, _) => ClaimInv(s, t);
    case Copy(_, _) => CopyInv(s, t);
    case Wait(i) => if s.pTail == i { Local(s, t, Publish(i)); }
    case Publish(_) => PublishInv(s, t);
    case LoadProducer(c, try) => Local(s, t, Advance(s, t).pcs[t]);
    case Fetch(c, try) =>
      if s.cHead == c { assert HoldsAt(s, c); }
      Local(s, t, Take(c, s.buf[Cell(s, c)], try));
    case Take(_, _, _) => TakeInv(s, t);
  }

  lemma StepInv(s: State, ev: Event)
    requires Inv(s)
    ensures Inv(Step(s, ev))
  {
    match ev
    case Spawn =>
      var s' := Step(s, ev);
      forall i: nat | s'.cHead <= i < s'.pTail ensures HoldsAt(s', i) { assert HoldsAt(s, i); }
      forall u: nat | u < |s'.pcs| ensures PcOk(s', s'.pcs[u]) {
        if u < |s.pcs| { Framed(s, s', s.pcs[u]); }
      }
      forall t: nat, u: nat, i: nat | t < u < |s'.pcs| && Claims(s'.pcs[t], i) ensures !Claims(s'.pcs[u], i) {
        if u < |s.pcs| { assert Claims(s.pcs[t], i); }
      }
    case Enqueue(t, v) => if t < |s.pcs| && s.pcs[t].Idle? { Local(s, t, LoadConsumer(v, s.pHead)); }
    case Dequeue(t) => if t < |s.pcs| && s.pcs[t].Idle? { Local(s, t, LoadProducer(s.cHead, false)); }
    case TryDequeue(t) => if t < |s.pcs| && s.pcs[t].Idle? { Local(s, t, LoadProducer(s.cHead, true)); }
    case Go(t) => if t < |s.pcs| { AdvanceInv(s, t); }
  }

  lemma {:induction false} RunInv(size: nat, evs: seq<Event>)
    requires size > 0
    ensures Inv(Run(size, evs))
  {
    if evs != [] {
      RunInv(size, evs[..|evs| - 1]);
      StepInv(Run(size, evs[..|evs| - 1]), evs[|evs| - 1]);
    }
  }

  // ---- What every run guarantees ---------------------------------------------------------------------------------

  /** The counters stay in order and within one round, and everything dequeued is what was enqueued, in
      order, each value once. */
  lemma InOrderOnce(size: nat, evs: seq<Event>)
    requires size > 0
    ensures var s := Run(size, evs);
            && s.cHead <= s.pTail <= s.pHead <= s.cHead + size - 1
            && |s.out| == s.cHead && |s.log| == s.pHead && s.out <= s.log
  {
    RunInv(size, evs);
    SameSize(size, evs);
  }

  lemma {:induction false} SameSize(size: nat, evs: seq<Event>)
    requires size > 0
    ensures Run(size, evs).size == size
  {
    if evs != [] { SameSize(size, evs[..|evs| - 1]); }
  }

  /** A successful dequeue returns the oldest published value, which no producer has overwritten. */
  lemma TakesNext(size: nat, evs: seq<Event>, t: nat)
    requires size > 0
    requires var s := Run(size, evs); t < |s.pcs| && s.pcs[t].Take? && s.cHead == s.pcs[t].c
    ensures var s := Run(size, evs);
            && s.cHead < s.pTail && HoldsAt(s, s.cHead) && s.pcs[t].v == s.log[s.cHead]
            && Advance(s, t).out == s.out + [s.log[s.cHead]]
  {
    RunInv(size, evs);
    assert PcOk(Run(size, evs), Run(size, evs).pcs[t]);
    assert HoldsAt(Run(size, evs), Run(size, evs).cHead);
  }

  /** A dequeue that finds nothing does so when every published value has been taken. */
  lemma EmptyWhenNone(size: nat, evs: seq<Event>, t: nat)
    requires size > 0
    requires var s := Run(size, evs); t < |s.pcs| && s.pcs[t].LoadProducer? && Advance(s, t).pcs[t].Idle?
    ensures Run(size, evs).cHead == Run(size, evs).pTail
  {
    RunInv(size, evs);
    assert PcOk(Run(size, evs), Run(size, evs).pcs[t]);
  }

  /** A claimed slot belongs to one producer until it is published, and no consumer can take it yet. */
  lemma ClaimsExclusive(size: nat, evs: seq<Event>, t: nat, u: nat, i: nat)
    requires size > 0
    requires var s := Run(size, evs);
             t < |s.pcs| && u < |s.pcs| && t != u && Claims(s.pcs[t], i)
    ensures var s := Run(size, evs); !Claims(s.pcs[u], i) && s.pTail <= i < s.pHead
  {
    RunInv(size, evs);
    var s := Run(size, evs);
    assert PcOk(s, s.pcs[t]);
  }

  // ---- Where the values come from ----------------------------------------------------------------------------------

  /** Event a of the schedule makes an idle thread enqueue v. */
  ghost predicate Begins(size: nat, evs: seq<Event>, a: nat, v: int)
    requires size > 0
  {
    && a < |evs| && evs[a].Enqueue? && evs[a].v == v
    && var s := Run(size, evs[..a]); evs[a].t < |s.pcs| && s.pcs[evs[a].t].Idle?
  }

  /** The thread has a value to enqueue and has not claimed a slot. */
  predicate Offers(pc: PC) { pc.LoadConsumer? || pc.Claim? }

  /** Event from[i] is the enqueue of the i-th value, and event offer[t] that of the value thread t offers. */
  ghost predicate Traced(size: nat, evs: seq<Event>, from: seq<nat>, offer: seq<nat>)
    requires size > 0
  {
    var s := Run(size, evs);
    && |from| == |s.log| && |offer| == |s.pcs|
    && (forall i :: 0 <= i < |from| ==> Begins(size, evs, from[i], s.log[i]))
    && (forall i, j :: 0 <= i < j < |from| ==> from[i] != from[j])
    && (forall t :: 0 <= t < |offer| && Offers(s.pcs[t]) ==>
          Begins(size, evs, offer[t], s.pcs[t].v) && evs[offer[t]].t == t && offer[t] !in from)
  }

  lemma BeginsStill(size: nat, evs: seq<Event>, ev: Event, a: nat, v: int)
    requires size > 0 && Begins(size, evs, a, v)
    ensures Begins(size, evs + [ev], a, v)
  {
    assert (evs + [ev])[..a] == evs[..a];
  }

  lemma TracedLater(size: nat, evs: seq<Event>, ev: Event, from: seq<nat>, offer: seq<nat>)
    requires size > 0 && Traced(size, evs, from, offer)
    ensures var s := Run(size, evs);
            && (forall i :: 0 <= i < |from| ==> Begins(size, evs + [ev], from[i], s.log[i]))
            && (forall t :: 0 <= t < |offer| && Offers(s.pcs[t]) ==> Begins(size, evs + [ev], offer[t], s.pcs[t].v))
  {
    var s := Run(size, evs);
    forall i | 0 <= i < |from| ensures Begins(size, evs + [ev], from[i], s.log[i]) {
      BeginsStill(size, evs, ev, from[i], s.log[i]);
    }
    forall t | 0 <= t < |offer| && Offers(s.pcs[t]) ensures Begins(size, evs + [ev], offer[t], s.pcs[t].v) {
      BeginsStill(size, evs, ev, offer[t], s.pcs[t].v);
    }
  }

  /** A step that enqueues nothing leaves the log and the offers of every thread, but for one that gives up. */
  lemma OffersKept(s: State, ev: Event)
    requires !ev.Enqueue? && !(ev.Go? && ev.t < |s.pcs| && s.pcs[ev.t].Claim? && s.pHead == s.pcs[ev.t].p)
    ensures var s' := Step(s, ev);
            && s'.log == s.log && |s.pcs| <= |s'.pcs|
            && forall t :: 0 <= t < |s'.pcs| && Offers(s'.pcs[t]) ==>
                 t < |s.pcs| && Offers(s.pcs[t]) && s'.pcs[t].v == s.pcs[t].v
  {
  }

  lemma TraceStep(size: nat, evs: seq<Event>, ev: Event, from: seq<nat>, offer: seq<nat>)
    returns (from': seq<nat>, offer': seq<nat>)
    requires size > 0 && Traced(size, evs, from, offer)
    ensures Traced(size, evs + [ev], from', offer') && from <= from'
  {
    var s := Run(size, evs);
    var evs' := evs + [ev];
    assert evs'[..|evs|] == evs;
    TracedLater(size, evs, ev, from, offer);
    from', offer' := from, offer;
    if ev.Enqueue? {
      if ev.t < |s.pcs| && s.pcs[ev.t].Idle? { offer' := offer[ev.t := |evs|]; }
    } else if ev.Go? && ev.t < |s.pcs| && s.pcs[ev.t].Claim? && s.pHead == s.pcs[ev.t].p {
      from' := from + [offer[ev.t]];
    } else {
      OffersKept(s, ev);
      if ev.Spawn? { offer' := offer + [0]; }
    }
  }

  /** Every value claimed is the argument of an enqueue of its own; the enqueues of a schedule's beginning
      stay the first ones. */
  lemma {:induction false} Origins(size: nat, evs: seq<Event>) returns (from: seq<nat>, offer: seq<nat>)
    requires size > 0
    ensures Traced(size, evs, from, offer)
  {
    if evs == [] {
      from, offer := [], [];
    } else {
      var front := evs[..|evs| - 1];
      from, offer := Origins(size, front);
      from, offer := TraceStep(size, front, evs[|evs| - 1], from, offer);
      assert front + [evs[|evs| - 1]] == evs;
    }
  }

  /** The values dequeued are the arguments of enqueue calls by idle threads, a different call for each. */
  lemma OnlyEnqueued(size: nat, evs: seq<Event>) returns (from: seq<nat>)
    requires size > 0
    ensures var out := Run(size, evs).out;
            && |from| == |out| && (forall i :: 0 <= i < |out| ==> Begins(size, evs, from[i], out[i]))
            && forall i, j :: 0 <= i < j < |out| ==> from[i] != from[j]
  {
    var all, offer := Origins(size, evs);
    RunInv(size, evs);
    var s := Run(size, evs);
    from := all[..|s.out|];
    forall i | 0 <= i < |s.out| ensures Begins(size, evs, from[i], s.out[i]) {
      assert s.out[i] == s.log[i];
    }
  }

  // ---- Operations that run undisturbed ------------------------------------------------------------------------------

  /** k steps of thread t. */
  function Alone(s: State, t: nat, k: nat): State
    requires t < |s.pcs|
    ensures |Alone(s, t, k).pcs| == |s.pcs|
  {
    if k == 0 then s else Advance(Alone(s, t, k - 1), t)
  }

  /** An undisturbed enqueue succeeds exactly if fewer than size - 1 values are in the ring, and then its
      value is published if those claimed before it are. */
  lemma EnqueueAlone(size: nat, evs: seq<Event>, t: nat, v: int)
    requires size > 0 && t < |Run(size, evs).pcs| && Run(size, evs).pcs[t].Idle?
    requires Run(size, evs).pTail == Run(size, evs).pHead
    ensures var s := Run(size, evs);
            var s1 := Step(s, Enqueue(t, v));
            t < |s1.pcs| &&
            if s.pHead - s.cHead < size - 1 then
              && s.pHead % size < |s.buf|
              && Alone(s1, t, 5) == s.(pHead := s.pHead + 1, pTail := s.pTail + 1, log := s.log + [v],
                                       buf := s.buf[s.pHead % size := v])
            else Alone(s1, t, 1) == s
  {
    RunInv(size, evs);
    SameSize(size, evs);
    var s := Run(size, evs);
    var s1 := Step(s, Enqueue(t, v));
    if s.pHead - s.cHead < size - 1 {
      NotFull(s);
      EnqueueSteps(s, t, v);
    } else {
      Wrap(s.size, s.cHead);
      assert Alone(s1, t, 0) == s1;
      assert s1.pcs[t := Idle] == s.pcs;
      assert Alone(s1, t, 1) == Advance(s1, t);
    }
  }

  lemma NotFull(s: State)
    requires Window(s) && s.pHead - s.cHead < s.size - 1
    ensures Cell(s, s.pHead + 1) != Cell(s, s.cHead)
  {
    if Cell(s, s.pHead + 1) == Cell(s, s.cHead) { CellsApart(s.size, s.cHead, s.pHead + 1); }
  }

  lemma EnqueueSteps(s: State, t: nat, v: int)
    requires Window(s) && t < |s.pcs| && s.pcs[t].Idle? && s.pTail == s.pHead
    requires Cell(s, s.pHead + 1) != Cell(s, s.cHead)
    ensures var s1 := Step(s, Enqueue(t, v));
            Alone(s1, t, 5) == s.(pHead := s.pHead + 1, pTail := s.pTail + 1, log := s.log + [v],
                                  buf := s.buf[Cell(s, s.pHead) := v])
  {
    var p, c := s.pHead, s.cHead;
    var s1 := Step(s, Enqueue(t, v));
    assert Cell(s, p) < |s.buf|;
    var u := s.(pHead := p + 1, log := s.log + [v]);
    var w := u.(buf := s.buf[Cell(s, p) := v]);
    assert Alone(s1, t, 0) == SetPC(s, t, LoadConsumer(v, p));
    assert Alone(s1, t, 1) == SetPC(s, t, Claim(v, p, c));
    assert Alone(s1, t, 2) == SetPC(u, t, Copy(v, p));
    assert Alone(s1, t, 3) == SetPC(w, t, Wait(p));
    assert Alone(s1, t, 4) == SetPC(w, t, Publish(p));
    assert Alone(s1, t, 5) == SetPC(w.(pTail := p + 1), t, Idle);
    assert s.pcs[t := Idle] == s.pcs;
  }

  /** An undisturbed dequeue takes the oldest published value, if there is one. */
  lemma DequeueAlone(size: nat, evs: seq<Event>, t: nat, try: bool)
    requires size > 0 && t < |Run(size, evs).pcs| && Run(size, evs).pcs[t].Idle?
    ensures var s := Run(size, evs);
            var s1 := Step(s, if try then TryDequeue(t) else Dequeue(t));
            t < |s1.pcs| &&
            if s.cHead < s.pTail then
              && s.cHead < |s.log|
              && Alone(s1, t, 3) == s.(cHead := s.cHead + 1, out := s.out + [s.log[s.cHead]])
            else Alone(s1, t, 1) == s
  {
    RunInv(size, evs);
    var s := Run(size, evs);
    var s1 := Step(s, if try then TryDequeue(t) else Dequeue(t));
    var c := s.cHead;
    assert s.pcs[t := Idle] == s.pcs;
    assert Alone(s1, t, 0) == SetPC(s, t, LoadProducer(c, try));
    if c < s.pTail {
      assert HoldsAt(s, c);
      assert Alone(s1, t, 1) == SetPC(s, t, Fetch(c, try));
      assert Alone(s1, t, 2) == SetPC(s, t, Take(c, s.log[c], try));
    }
  }

  // ---- Operations that have returned ------------------------------------------------------------------------

  predicate Enqueuing(pc: PC) { pc.LoadConsumer? || pc.Claim? || pc.Copy? || pc.Wait? || pc.Publish? }

  predicate Dequeuing(pc: PC) { pc.LoadProducer? || pc.Fetch? || pc.Take? }

  /** An enqueue returns at the store that publishes its slot, or where it found no room. */
  lemma EnqueueReturns(s: State, t: nat)
    requires Inv(s) && t < |s.pcs| && Enqueuing(s.pcs[t]) && Advance(s, t).pcs[t].Idle?
    ensures if s.pcs[t].LoadConsumer? then
              Advance(s, t) == SetPC(s, t, Idle) && Cell(s, s.pcs[t].p + 1) == Cell(s, s.cHead)
            else Claims(s.pcs[t], s.pTail) && Advance(s, t).pTail == s.pTail + 1
  {
    assert PcOk(s, s.pcs[t]);
  }

  /** Thread t has been dequeuing since the call of event a, which was a try exactly if its `try` says so. */
  ghost predicate DequeuingSince(size: nat, evs: seq<Event>, n: nat, a: nat, t: nat)
    requires size > 0
  {
    && a < n <= |evs| && (evs[a] == Dequeue(t) || evs[a] == TryDequeue(t))
    && var pcs := Run(size, evs[..n]).pcs;
       t < |pcs| && Dequeuing(pcs[t]) && (pcs[t].try <==> evs[a].TryDequeue?)
  }

  lemma CallBefore(s: State, ev: Event, t: nat)
    requires t < |Step(s, ev).pcs| && Dequeuing(Step(s, ev).pcs[t])
    ensures t < |s.pcs|
    ensures if Dequeuing(s.pcs[t]) then Step(s, ev).pcs[t].try == s.pcs[t].try
            else (ev == Dequeue(t) && !Step(s, ev).pcs[t].try) || (ev == TryDequeue(t) && Step(s, ev).pcs[t].try)
  {
  }

  lemma {:induction false} CallOf(size: nat, evs: seq<Event>, n: nat, t: nat) returns (a: nat)
    requires size > 0 && n <= |evs| && t < |Run(size, evs[..n]).pcs| && Dequeuing(Run(size, evs[..n]).pcs[t])
    ensures DequeuingSince(size, evs, n, a, t)
    decreases n
  {
    if n > 0 {
      assert evs[..n][..n - 1] == evs[..n - 1] && evs[..n][n - 1] == evs[n - 1];
      CallBefore(Run(size, evs[..n - 1]), evs[n - 1], t);
      if Dequeuing(Run(size, evs[..n - 1]).pcs[t]) {
        a := CallOf(size, evs, n - 1, t);
      } else {
        a := n - 1;
      }
    }
  }

  /** A dequeue returns when it has taken the oldest value or when nothing published is left; only a try also
      returns when another consumer was faster. */
  lemma DequeueReturns(size: nat, evs: seq<Event>, t: nat) returns (a: nat)
    requires size > 0
    requires var s := Run(size, evs); t < |s.pcs| && Dequeuing(s.pcs[t]) && Advance(s, t).pcs[t].Idle?
    ensures a < |evs| && (evs[a] == Dequeue(t) || evs[a] == TryDequeue(t))
    ensures var s := Run(size, evs);
            || (s.cHead < s.pTail && s.cHead < |s.log| && Advance(s, t).out == s.out + [s.log[s.cHead]])
            || s.cHead == s.pTail
            || (evs[a] == TryDequeue(t) && s.pcs[t].Take? && s.cHead != s.pcs[t].c)
  {
    assert evs[..|evs|] == evs;
    a := CallOf(size, evs, |evs|, t);
    RunInv(size, evs);
    assert PcOk(Run(size, evs), Run(size, evs).pcs[t]);
  }
}
