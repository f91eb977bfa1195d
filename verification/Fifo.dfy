/**
 The MPMC queue as a step machine: one shared load or compare-and-swap per step, generation and pointer
 of a double word loaded separately, any number of threads, entries not reused.

 Entries are numbered as they are prepared. `chain` lists the linked ones in link order, the first being
 the stub; the numbers `j` and `k` that program counters carry say where in the chain a loaded pointer
 was, and no step reads them.
 */
module Fifo {

  /** A pointer, -1 for NULL, with its generation. */
  datatype Ptr = Ptr(p: int, g: nat)

  datatype Node = Node(value: int, next: Ptr)

  datatype PC =
    | Idle
    // enqueue of entry e
    | TailGen(e: nat)
    | TailPtr(e: nat, g: nat)
    | NextGen(e: nat, g: nat, p: nat, j: nat)
    | NextPtr(e: nat, g: nat, p: nat, j: nat, n: nat)
    | Recheck(e: nat, g: nat, p: nat, j: nat, n: nat, succ: int)
    | Help(e: nat, g: nat, p: nat, q: nat)
    | Link(e: nat, g: nat, p: nat, n: nat)
    | Swing(e: nat, g: nat, p: nat)
    // dequeue
    | HeadGen
    | HeadPtr(g: nat)
    | DTailGen(g: nat, p: nat, j: nat)
    | DTailPtr(g: nat, p: nat, j: nat, h: nat)
    | DNextGen(g: nat, p: nat, j: nat, h: nat, r: nat, k: nat)
    | DNextPtr(g: nat, p: nat, j: nat, h: nat, r: nat, k: nat)
    | DHelp(h: nat, r: nat, k: nat, q: nat)
    | Value(g: nat, p: nat, j: nat, q: nat)
    | Unlink(g: nat, p: nat, j: nat, q: nat, v: int)

  /** `log` collects the values dequeued so far. */
  datatype State = State(head: Ptr, tail: Ptr, nodes: seq<Node>, pcs: seq<PC>, chain: seq<nat>, log: seq<int>)

  function Init(): State { State(Ptr(0, 0), Ptr(0, 0), [Node(0, Ptr(-1, 0))], [], [0], []) }

  function Next(s: State, p: nat): Ptr { if p < |s.nodes| then s.nodes[p].next else Ptr(-1, 0) }

  function SetPC(s: State, t: nat, pc: PC): State
    requires t < |s.pcs|
  {
    s.(pcs := s.pcs[t := pc])
  }

  function AsNat(p: int): nat { if p >= 0 then p else 0 }

  function EnqueueStep(s: State, t: nat): State
    requires t < |s.pcs|
  {
    match s.pcs[t]
    case TailGen(e) => SetPC(s, t, TailPtr(e, s.tail.g))
    case TailPtr(e, g) => SetPC(s, t, NextGen(e, g, AsNat(s.tail.p), s.tail.g))
    case NextGen(e, g, p, j) => SetPC(s, t, NextPtr(e, g, p, j, Next(s, p).g))
    case NextPtr(e, g, p, j, n) => SetPC(s, t, Recheck(e, g, p, j, n, Next(s, p).p))
    case Recheck(e, g, p, j, n, q) =>
      if s.tail.g != g then SetPC(s, t, TailGen(e))
      else if q >= 0 then SetPC(s, t, Help(e, g, p, q))
      else SetPC(s, t, Link(e, g, p, n))
    case Help(e, g, p, q) =>
      SetPC(if s.tail == Ptr(p, g) then s.(tail := Ptr(q, g + 1)) else s, t, TailGen(e))
    case Link(e, g, p, n) =>
      if p < |s.nodes| && s.nodes[p].next == Ptr(-1, n) then
        SetPC(s.(nodes := s.nodes[p := s.nodes[p].(next := Ptr(e, n + 1))], chain := s.chain + [e]), t, Swing(e, g, p))
      else SetPC(s, t, TailGen(e))
    case Swing(e, g, p) =>
      SetPC(if s.tail == Ptr(p, g) then s.(tail := Ptr(e, g + 1)) else s, t, Idle)
    case _ => s
  }

  function DequeueStep(s: State, t: nat): State
    requires t < |s.pcs|
  {
    match s.pcs[t]
    case HeadGen => SetPC(s, t, HeadPtr(s.head.g))
    case HeadPtr(g) => SetPC(s, t, DTailGen(g, AsNat(s.head.p), s.head.g))
    case DTailGen(g, p, j) => SetPC(s, t, DTailPtr(g, p, j, s.tail.g))
    case DTailPtr(g, p, j, h) => SetPC(s, t, DNextGen(g, p, j, h, AsNat(s.tail.p), s.tail.g))
    case DNextGen(g, p, j, h, r, k) => SetPC(s, t, DNextPtr(g, p, j, h, r, k))
    case DNextPtr(g, p, j, h, r, k) =>
      var q := Next(s, p).p;
      if p == r then
        if q < 0 then SetPC(s, t, Idle) else SetPC(s, t, DHelp(h, r, k, q))
      else if q < 0 then SetPC(s, t, HeadGen)
      else SetPC(s, t, Value(g, p, j, q))
    case DHelp(h, r, k, q) =>
      SetPC(if s.tail == Ptr(r, h) then s.(tail := Ptr(q, h + 1)) else s, t, HeadGen)
    case Value(g, p, j, q) => SetPC(s, t, Unlink(g, p, j, q, if q < |s.nodes| then s.nodes[q].value else 0))
    case Unlink(g, p, j, q, v) =>
      if s.head == Ptr(p, g) then SetPC(s.(head := Ptr(q, g + 1), log := s.log + [v]), t, Idle)
      else SetPC(s, t, HeadGen)
    case _ => s
  }

  datatype Event = Spawn | Enqueue(t: nat, v: int) | Dequeue(t: nat) | Go(t: nat)

  predicate Enqueuing(pc: PC) {
    pc.TailGen? || pc.TailPtr? || pc.NextGen? || pc.NextPtr? || pc.Recheck? || pc.Help? || pc.Link? || pc.Swing?
  }

  function Step(s: State, ev: Event): State {
    match ev
    case Spawn => s.(pcs := s.pcs + [Idle])
    case Enqueue(t, v) =>
      if t < |s.pcs| && s.pcs[t].Idle? then
        SetPC(s.(nodes := s.nodes + [Node(v, Ptr(-1, 0))]), t, TailGen(|s.nodes|))
      else s
    case Dequeue(t) => if t < |s.pcs| && s.pcs[t].Idle? then SetPC(s, t, HeadGen) else s
    case Go(t) =>
      if t >= |s.pcs| then s else if Enqueuing(s.pcs[t]) then EnqueueStep(s, t) else DequeueStep(s, t)
  }

  function Run(evs: seq<Event>): State {
    if evs == [] then Init() else Step(Run(evs[..|evs| - 1]), evs[|evs| - 1])
  }

  // ---- The invariant -----------------------------------------------------------------------------------

  /** Entry i of the chain exists and points at the next one. */
  ghost predicate LinkAt(nodes: seq<Node>, chain: seq<nat>, i: nat) {
    && i < |chain| && chain[i] < |nodes|
    && nodes[chain[i]].next == if i + 1 < |chain| then Ptr(chain[i + 1], 1) else Ptr(-1, 0)
  }

  ghost predicate Linked(nodes: seq<Node>, chain: seq<nat>) {
    && (forall i: nat {:trigger LinkAt(nodes, chain, i)} :: i < |chain| ==> LinkAt(nodes, chain, i))
    && (forall i, j :: 0 <= i < j < |chain| ==> chain[i] != chain[j])
  }

  /** The generations of head and tail are positions in the chain: the head does not pass the tail, and
      the tail is the last or the last but one entry. */
  ghost predicate Ends(s: State) {
    && s.head.g <= s.tail.g < |s.chain| <= s.tail.g + 2
    && s.head.p == s.chain[s.head.g] && s.tail.p == s.chain[s.tail.g]
  }

  /** What was dequeued is what was enqueued first, in order. */
  ghost predicate Logged(s: State) {
    && |s.log| == s.head.g && s.head.g < |s.chain|
    && forall i: nat {:trigger LoggedAt(s, i)} :: i < |s.log| ==> LoggedAt(s, i)
  }

  /** The i-th value dequeued is that of the i-th entry linked behind the stub. */
  ghost predicate LoggedAt(s: State, i: nat) {
    i < |s.log| && i + 1 < |s.chain| && s.chain[i + 1] < |s.nodes| && s.log[i] == s.nodes[s.chain[i + 1]].value
  }

  predicate InChain(chain: seq<nat>, j: nat, p: int) { j < |chain| && chain[j] == p }

  /** Entry e is prepared and not linked. */
  ghost predicate Unlinked(s: State, e: nat) {
    e < |s.nodes| && e !in s.chain && s.nodes[e].next == Ptr(-1, 0)
  }

  /** A loaded next pointer of chain entry j is NULL or the successor. */
  predicate NextOf(chain: seq<nat>, j: nat, q: int) { q == -1 || InChain(chain, j + 1, q) }

  ghost predicate PcOk(s: State, pc: PC) {
    match pc
    case Idle => true
    case TailGen(e) => Unlinked(s, e)
    case TailPtr(e, g) => Unlinked(s, e) && g <= s.tail.g
    case NextGen(e, g, p, j) => Unlinked(s, e) && g <= j <= s.tail.g && InChain(s.chain, j, p)
    case NextPtr(e, g, p, j, n) => Unlinked(s, e) && g <= j <= s.tail.g && InChain(s.chain, j, p)
    case Recheck(e, g, p, j, n, q) =>
      Unlinked(s, e) && g <= j <= s.tail.g && InChain(s.chain, j, p) && NextOf(s.chain, j, q)
    case Help(e, g, p, q) => Unlinked(s, e) && InChain(s.chain, g, p) && InChain(s.chain, g + 1, q)
    case Link(e, g, p, n) => Unlinked(s, e) && g <= s.tail.g && InChain(s.chain, g, p)
    case Swing(e, g, p) => InChain(s.chain, g, p) && InChain(s.chain, g + 1, e)
    case HeadGen => true
    case HeadPtr(g) => g <= s.head.g
    case DTailGen(g, p, j) => g <= j <= s.head.g && InChain(s.chain, j, p)
    case DTailPtr(g, p, j, h) => g <= j <= s.head.g && InChain(s.chain, j, p) && h <= s.tail.g
    case DNextGen(g, p, j, h, r, k) =>
      g <= j <= s.head.g && InChain(s.chain, j, p) && j <= k <= s.tail.g && h <= k && InChain(s.chain, k, r)
    case DNextPtr(g, p, j, h, r, k) =>
      g <= j <= s.head.g && InChain(s.chain, j, p) && j <= k <= s.tail.g && h <= k && InChain(s.chain, k, r)
    case DHelp(h, r, k, q) => h <= k <= s.tail.g && InChain(s.chain, k, r) && InChain(s.chain, k + 1, q)
    case Value(g, p, j, q) => g <= j <= s.head.g && InChain(s.chain, j, p) && j < s.tail.g && InChain(s.chain, j + 1, q)
    case Unlink(g, p, j, q, v) =>
      && g <= j <= s.head.g && InChain(s.chain, j, p) && j < s.tail.g && InChain(s.chain, j + 1, q)
      && q < |s.nodes| && v == s.nodes[q].value
  }

  ghost predicate PcsOk(s: State) {
    forall t: nat {:trigger s.pcs[t]} :: t < |s.pcs| ==> PcOk(s, s.pcs[t])
  }

  /** No two threads enqueue the same entry. */
  ghost predicate Apart(s: State) {
    forall t: nat, u: nat {:trigger s.pcs[t], s.pcs[u]} ::
      t < u < |s.pcs| && Enqueuing(s.pcs[t]) && Enqueuing(s.pcs[u]) ==> s.pcs[t].e != s.pcs[u].e
  }

  ghost predicate Inv(s: State) {
    |s.chain| > 0 && Linked(s.nodes, s.chain) && Ends(s) && Logged(s) && PcsOk(s) && Apart(s)
  }

  // ---- Steps preserve it ---------------------------------------------------------------------------------

  /** The chain grows at its end, head and tail move forward, values do not change. */
  ghost predicate Grows(s: State, s': State) {
    && s.chain <= s'.chain && s.head.g <= s'.head.g && s.tail.g <= s'.tail.g && |s.nodes| <= |s'.nodes|
    && forall i :: 0 <= i < |s.nodes| ==> s'.nodes[i].value == s.nodes[i].value
  }

  lemma PcKept(s: State, s': State, pc: PC)
    requires PcOk(s, pc) && Grows(s, s')
    requires Enqueuing(pc) && !pc.Swing? ==> Unlinked(s', pc.e)
    ensures PcOk(s', pc)
  {
  }

  /** A step of thread t that touches neither entries nor chain. */
  lemma Local(s: State, s': State, t: nat)
    requires Inv(s) && t < |s.pcs| && s'.nodes == s.nodes && s'.chain == s.chain
    requires Grows(s, s') && Ends(s') && Logged(s')
    requires |s'.pcs| == |s.pcs| && s'.pcs == s.pcs[t := s'.pcs[t]] && PcOk(s', s'.pcs[t])
    requires Enqueuing(s'.pcs[t]) ==> Enqueuing(s.pcs[t]) && s'.pcs[t].e == s.pcs[t].e
    ensures Inv(s')
  {
    forall u: nat | u < |s'.pcs| ensures PcOk(s', s'.pcs[u]) {
      if u != t { PcKept(s, s', s.pcs[u]); }
    }
  }

  lemma SamePlace(s: State, i: nat, j: nat)
    requires Linked(s.nodes, s.chain) && i < |s.chain| && j < |s.chain| && s.chain[i] == s.chain[j]
    ensures i == j
  {
  }

  /** Forwarding the tail from chain entry k to the next one. */
  lemma TailForward(s: State, s': State, t: nat, k: nat, r: nat, h: nat, q: nat)
    requires Inv(s) && t < |s.pcs| == |s'.pcs| && InChain(s.chain, k, r) && InChain(s.chain, k + 1, q)
    requires s.tail == Ptr(r, h) && (s'.pcs[t].Idle? || s'.pcs[t].HeadGen? ||
               (s'.pcs[t].TailGen? && Enqueuing(s.pcs[t]) && s'.pcs[t].e == s.pcs[t].e && Unlinked(s, s.pcs[t].e)))
    requires s' == SetPC(s.(tail := Ptr(q, h + 1)), t, s'.pcs[t])
    ensures Inv(s')
  {
    SamePlace(s, s.tail.g, k);
    forall i: nat | i < |s'.log| ensures LoggedAt(s', i) { assert LoggedAt(s, i); }
    Local(s, s', t);
  }

  lemma LinkGrows(s: State, e: nat, p: nat)
    requires Linked(s.nodes, s.chain) && |s.chain| > 0 && InChain(s.chain, |s.chain| - 1, p) && Unlinked(s, e)
    ensures p < |s.nodes| && Linked(s.nodes[p := s.nodes[p].(next := Ptr(e, 1))], s.chain + [e])
  {
    assert LinkAt(s.nodes, s.chain, |s.chain| - 1);
    var nodes', chain' := s.nodes[p := s.nodes[p].(next := Ptr(e, 1))], s.chain + [e];
    forall i: nat | i < |chain'| ensures LinkAt(nodes', chain', i) {
      if i < |s.chain| { assert LinkAt(s.nodes, s.chain, i); }
    }
  }

  lemma LinkInv(s: State, t: nat)
    requires Inv(s) && t < |s.pcs| && s.pcs[t].Link?
    ensures Inv(EnqueueStep(s, t))
  {
    var s', pc := EnqueueStep(s, t), s.pcs[t];
    assert PcOk(s, pc);
    if pc.p < |s.nodes| && s.nodes[pc.p].next == Ptr(-1, pc.n) {
      assert LinkAt(s.nodes, s.chain, pc.g);
      LinkGrows(s, pc.e, pc.p);
      forall u: nat | u < |s'.pcs| ensures PcOk(s', s'.pcs[u]) {
        if u != t { LinkKept(s, s', t, u); }
      }
      forall i: nat | i < |s'.log| ensures LoggedAt(s', i) { assert LoggedAt(s, i); }
    } else {
      LoggedSame(s, s');
      Local(s, s', t);
    }
  }

  lemma LoggedSame(s: State, s': State)
    requires Logged(s) && s'.log == s.log && s'.head == s.head && s'.chain == s.chain && s'.nodes == s.nodes
    ensures Logged(s')
  {
    forall i: nat | i < |s'.log| ensures LoggedAt(s', i) { assert LoggedAt(s, i); }
  }

  lemma LinkKept(s: State, s': State, t: nat, u: nat)
    requires Inv(s) && t < |s.pcs| && s.pcs[t].Link? && s' == EnqueueStep(s, t) && u < |s.pcs| && u != t
    requires s.pcs[t].p < |s.nodes| && s.nodes[s.pcs[t].p].next == Ptr(-1, s.pcs[t].n)
    ensures PcOk(s', s.pcs[u])
  {
    assert PcOk(s, s.pcs[u]) && PcOk(s, s.pcs[t]);
    PcKept(s, s', s.pcs[u]);
  }

  /** Loads that only change the thread's program counter. */
  lemma TailLoads(s: State, t: nat)
    requires Inv(s) && t < |s.pcs| && (s.pcs[t].TailGen? || s.pcs[t].TailPtr? || s.pcs[t].NextGen?)
    ensures Inv(EnqueueStep(s, t))
  {
    assert PcOk(s, s.pcs[t]);
    LoggedSame(s, EnqueueStep(s, t));
    Local(s, EnqueueStep(s, t), t);
  }

  lemma TailChecks(s: State, t: nat)
    requires Inv(s) && t < |s.pcs| && (s.pcs[t].NextPtr? || s.pcs[t].Recheck?)
    ensures Inv(EnqueueStep(s, t))
  {
    assert PcOk(s, s.pcs[t]);
    assert LinkAt(s.nodes, s.chain, s.pcs[t].j);
    LoggedSame(s, EnqueueStep(s, t));
    Local(s, EnqueueStep(s, t), t);
  }

  lemma TailSwings(s: State, t: nat)
    requires Inv(s) && t < |s.pcs| && (s.pcs[t].Help? || s.pcs[t].Swing?)
    ensures Inv(EnqueueStep(s, t))
  {
    var s', pc := EnqueueStep(s, t), s.pcs[t];
    assert PcOk(s, pc);
    if s.tail == Ptr(pc.p, pc.g) {
      TailForward(s, s', t, pc.g, pc.p, pc.g, if pc.Help? then pc.q else pc.e);
    } else {
      LoggedSame(s, s');
      Local(s, s', t);
    }
  }

  lemma EnqueueInv(s: State, t: nat)
    requires Inv(s) && t < |s.pcs| && Enqueuing(s.pcs[t])
    ensures Inv(EnqueueStep(s, t))
  {
    var pc := s.pcs[t];
    if pc.Link? {
      LinkInv(s, t);
    } else if pc.Help? || pc.Swing? {
      TailSwings(s, t);
    } else if pc.NextPtr? || pc.Recheck? {
      TailChecks(s, t);
    } else {
      TailLoads(s, t);
    }
  }

  lemma UnlinkInv(s: State, t: nat)
    requires Inv(s) && t < |s.pcs| && s.pcs[t].Unlink?
    ensures Inv(DequeueStep(s, t))
  {
    var s', pc := DequeueStep(s, t), s.pcs[t];
    assert PcOk(s, pc);
    if s.head == Ptr(pc.p, pc.g) {
      SamePlace(s, s.head.g, pc.j);
      forall i: nat | i < |s'.log| ensures LoggedAt(s', i) {
        if i < |s.log| { assert LoggedAt(s, i); }
      }
    } else {
      LoggedSame(s, s');
    }
    Local(s, s', t);
  }

  lemma HeadLoads(s: State, t: nat)
    requires Inv(s) && t < |s.pcs|
    requires s.pcs[t].HeadGen? || s.pcs[t].HeadPtr? || s.pcs[t].DTailGen? || s.pcs[t].DTailPtr? || s.pcs[t].DNextGen?
    ensures Inv(DequeueStep(s, t))
  {
    assert PcOk(s, s.pcs[t]);
    LoggedSame(s, DequeueStep(s, t));
    Local(s, DequeueStep(s, t), t);
  }

  lemma HeadChecks(s: State, t: nat)
    requires Inv(s) && t < |s.pcs| && s.pcs[t].DNextPtr?
    ensures Inv(DequeueStep(s, t))
  {
    var pc := s.pcs[t];
    assert PcOk(s, pc);
    assert LinkAt(s.nodes, s.chain, pc.j);
    if pc.p == pc.r { SamePlace(s, pc.j, pc.k); }
    LoggedSame(s, DequeueStep(s, t));
    Local(s, DequeueStep(s, t), t);
  }

  lemma ValueInv(s: State, t: nat)
    requires Inv(s) && t < |s.pcs| && s.pcs[t].Value?
    ensures Inv(DequeueStep(s, t))
  {
    assert PcOk(s, s.pcs[t]);
    assert LinkAt(s.nodes, s.chain, s.pcs[t].j + 1);
    LoggedSame(s, DequeueStep(s, t));
    Local(s, DequeueStep(s, t), t);
  }

  lemma DHelpInv(s: State, t: nat)
    requires Inv(s) && t < |s.pcs| && s.pcs[t].DHelp?
    ensures Inv(DequeueStep(s, t))
  {
    var s', pc := DequeueStep(s, t), s.pcs[t];
    assert PcOk(s, pc);
    if s.tail == Ptr(pc.r, pc.h) {
      TailForward(s, s', t, pc.k, pc.r, pc.h, pc.q);
    } else {
      LoggedSame(s, s');
      Local(s, s', t);
    }
  }

  lemma DequeueInv(s: State, t: nat)
    requires Inv(s) && t < |s.pcs| && !Enqueuing(s.pcs[t])
    ensures Inv(DequeueStep(s, t))
  {
    var pc := s.pcs[t];
    if pc.Unlink? {
      UnlinkInv(s, t);
    } else if pc.DHelp? {
      DHelpInv(s, t);
    } else if pc.DNextPtr? {
      HeadChecks(s, t);
    } else if pc.Value? {
      ValueInv(s, t);
    } else if !pc.Idle? {
      HeadLoads(s, t);
    }
  }

  lemma StartInv(s: State, t: nat, v: int)
    requires Inv(s) && t < |s.pcs| && s.pcs[t].Idle?
    ensures Inv(Step(s, Enqueue(t, v)))
  {
    var s' := Step(s, Enqueue(t, v));
    forall i: nat | i < |s'.chain| ensures LinkAt(s'.nodes, s'.chain, i) { assert LinkAt(s.nodes, s.chain, i); }
    forall i: nat | i < |s'.log| ensures LoggedAt(s', i) { assert LoggedAt(s, i); }
    forall i: nat | i < |s.chain| ensures s.chain[i] < |s.nodes| { assert LinkAt(s.nodes, s.chain, i); }
    forall u: nat | u < |s'.pcs| ensures PcOk(s', s'.pcs[u]) {
      if u != t { assert PcOk(s, s.pcs[u]); PcKept(s, s', s.pcs[u]); }
    }
    forall u: nat | u < |s.pcs| && Enqueuing(s.pcs[u]) ensures s.pcs[u].e < |s.nodes| {
      assert PcOk(s, s.pcs[u]);
    }
  }

  lemma StepInv(s: State, ev: Event)
    requires Inv(s)
    ensures Inv(Step(s, ev))
  {
    match ev
    case Spawn =>
      var s' := Step(s, ev);
      LoggedSame(s, s');
      forall u: nat | u < |s'.pcs| ensures PcOk(s', s'.pcs[u]) {
        if u < |s.pcs| { PcKept(s, s', s.pcs[u]); }
      }
    case Enqueue(t, v) => if t < |s.pcs| && s.pcs[t].Idle? { StartInv(s, t, v); }
    case Dequeue(t) =>
      if t < |s.pcs| && s.pcs[t].Idle? {
        LoggedSame(s, Step(s, ev));
        Local(s, Step(s, ev), t);
      }
    case Go(t) =>
      if t < |s.pcs| {
        if Enqueuing(s.pcs[t]) { EnqueueInv(s, t); } else { DequeueInv(s, t); }
      }
  }

  lemma {:induction false} RunInv(evs: seq<Event>)
    ensures Inv(Run(evs))
  {
    if evs == [] {
      assert LinkAt(Init().nodes, Init().chain, 0);
    } else {
      RunInv(evs[..|evs| - 1]);
      StepInv(Run(evs[..|evs| - 1]), evs[|evs| - 1]);
    }
  }

  // ---- What every run guarantees ---------------------------------------------------------------------------

  ghost function Values(s: State, from: nat): seq<int>
    decreases |s.chain| - from
  {
    if from >= |s.chain| then []
    else [if s.chain[from] < |s.nodes| then s.nodes[s.chain[from]].value else 0] + Values(s, from + 1)
  }

  /** The queue: the values linked behind the stub that the head points at. */
  ghost function Queue(s: State): seq<int> { Values(s, s.head.g + 1) }

  datatype Effect = None | Enqueued(v: int) | Dequeued(v: int)

  /** A step's effect on the queue: linking an entry, or moving the head. */
  function EffectOf(s: State, ev: Event): Effect {
    if ev.Go? && ev.t < |s.pcs| then
      match s.pcs[ev.t]
      case Link(e, g, p, n) =>
        if p < |s.nodes| && e < |s.nodes| && s.nodes[p].next == Ptr(-1, n) then Enqueued(s.nodes[e].value) else None
      case Unlink(g, p, j, q, v) => if s.head == Ptr(p, g) then Dequeued(v) else None
      case _ => None
    else None
  }

  /** A FIFO queue. */
  function Apply(q: seq<int>, eff: Effect): seq<int> {
    match eff
    case None => q
    case Enqueued(v) => q + [v]
    case Dequeued(_) => if q == [] then [] else q[1..]
  }

  lemma {:induction false} ValuesSame(s: State, s': State, from: nat)
    requires s'.chain == s.chain && |s.nodes| <= |s'.nodes|
    requires forall i :: 0 <= i < |s.nodes| ==> s'.nodes[i].value == s.nodes[i].value
    requires forall i :: 0 <= i < |s.chain| ==> s.chain[i] < |s.nodes|
    ensures Values(s', from) == Values(s, from)
    decreases |s.chain| - from
  {
    if from < |s.chain| { ValuesSame(s, s', from + 1); }
  }

  lemma {:induction false} ValuesMore(s: State, s': State, from: nat, e: nat)
    requires s'.chain == s.chain + [e] && |s.nodes| == |s'.nodes| && e < |s.nodes| && from <= |s.chain|
    requires forall i :: 0 <= i < |s.nodes| ==> s'.nodes[i].value == s.nodes[i].value
    requires forall i :: 0 <= i < |s.chain| ==> s.chain[i] < |s.nodes|
    ensures Values(s', from) == Values(s, from) + [s.nodes[e].value]
    decreases |s.chain| - from
  {
    if from < |s.chain| {
      ValuesMore(s, s', from + 1, e);
    } else {
      assert Values(s', from + 1) == [];
    }
  }

  lemma ChainExists(s: State)
    requires Inv(s)
    ensures forall i :: 0 <= i < |s.chain| ==> s.chain[i] < |s.nodes|
  {
    forall i: nat | i < |s.chain| ensures s.chain[i] < |s.nodes| { assert LinkAt(s.nodes, s.chain, i); }
  }

  lemma NoEffectGo(s: State, t: nat)
    requires t < |s.pcs| && EffectOf(s, Go(t)) == None && Inv(s)
    ensures var s' := Step(s, Go(t)); s'.chain == s.chain && s'.head.g == s.head.g && s'.nodes == s.nodes
  {
    assert PcOk(s, s.pcs[t]);
  }

  lemma NoEffect(s: State, ev: Event)
    requires EffectOf(s, ev) == None && Inv(s)
    ensures var s' := Step(s, ev);
            && s'.chain == s.chain && s'.head.g == s.head.g && |s.nodes| <= |s'.nodes|
            && forall i :: 0 <= i < |s.nodes| ==> s'.nodes[i].value == s.nodes[i].value
  {
    if ev.Go? && ev.t < |s.pcs| { NoEffectGo(s, ev.t); }
  }

  lemma LinkEffect(s: State, t: nat)
    requires Inv(s) && t < |s.pcs| && EffectOf(s, Go(t)).Enqueued?
    ensures Queue(Step(s, Go(t))) == Queue(s) + [EffectOf(s, Go(t)).v]
  {
    assert PcOk(s, s.pcs[t]);
    ChainExists(s);
    ValuesMore(s, Step(s, Go(t)), s.head.g + 1, s.pcs[t].e);
  }

  lemma UnlinkEffect(s: State, t: nat)
    requires Inv(s) && t < |s.pcs| && EffectOf(s, Go(t)).Dequeued?
    ensures Queue(s) != [] && Queue(s)[0] == EffectOf(s, Go(t)).v && Queue(Step(s, Go(t))) == Queue(s)[1..]
  {
    assert PcOk(s, s.pcs[t]);
    ChainExists(s);
    SamePlace(s, s.head.g, s.pcs[t].j);
    ValuesSame(s, Step(s, Go(t)), s.head.g + 2);
  }

  /** Every step of every run acts as on a FIFO queue, and what a dequeue returns is the front. */
  lemma Refines(evs: seq<Event>, ev: Event)
    ensures var s, s' := Run(evs), Run(evs + [ev]);
            var eff := EffectOf(s, ev);
            && Queue(s') == Apply(Queue(s), eff)
            && (eff.Dequeued? ==> Queue(s) != [] && Queue(s)[0] == eff.v)
  {
    var s := Run(evs);
    RunInv(evs);
    assert (evs + [ev])[..|evs|] == evs;
    assert Run(evs + [ev]) == Step(s, ev);
    var eff := EffectOf(s, ev);
    if eff.Enqueued? {
      LinkEffect(s, ev.t);
    } else if eff.Dequeued? {
      UnlinkEffect(s, ev.t);
    } else {
      NoEffect(s, ev);
      ChainExists(s);
      ValuesSame(s, Step(s, ev), s.head.g + 1);
    }
  }

  /** A dequeue returns when it has taken the front of the queue, or when it finds the queue empty. */
  lemma EmptyWhenNone(evs: seq<Event>, t: nat)
    requires var s := Run(evs);
             t < |s.pcs| && !s.pcs[t].Idle? && !Enqueuing(s.pcs[t]) && DequeueStep(s, t).pcs[t].Idle?
    ensures EffectOf(Run(evs), Go(t)).Dequeued? || Queue(Run(evs)) == []
  {
    RunInv(evs);
    var s := Run(evs);
    assert PcOk(s, s.pcs[t]);
    if s.pcs[t].DNextPtr? { assert LinkAt(s.nodes, s.chain, s.pcs[t].j); }
  }

  /** The head never passes the tail, and values leave in the order in which they were linked, each once. */
  lemma InOrderOnce(evs: seq<Event>)
    ensures var s := Run(evs);
            && s.head.g <= s.tail.g < |s.chain| && |s.log| == s.head.g
            && (forall i: nat :: i < |s.log| ==> LoggedAt(s, i))
            && (forall i, j :: 0 <= i < j < |s.chain| ==> s.chain[i] != s.chain[j])
  {
    RunInv(evs);
  }

  // ---- Where the values come from --------------------------------------------------------------------------

  /** Event a of the schedule makes an idle thread enqueue v. */
  ghost predicate Begins(evs: seq<Event>, a: nat, v: int) {
    && a < |evs| && evs[a].Enqueue? && evs[a].v == v
    && evs[a].t < |Run(evs[..a]).pcs| && Run(evs[..a]).pcs[evs[a].t].Idle?
  }

  lemma RunNext(evs: seq<Event>, n: nat)
    requires n < |evs|
    ensures Run(evs[..n + 1]) == Step(Run(evs[..n]), evs[n])
  {
    assert evs[..n + 1][..n] == evs[..n];
  }

  /** Event birth[e] is the enqueue that prepared entry e; entry 0 is the stub. */
  ghost predicate Traced(evs: seq<Event>, s: State, birth: seq<nat>) {
    && |birth| == |s.nodes| && |s.chain| > 0 && s.chain[0] == 0
    && (forall e :: 1 <= e < |birth| ==> Begins(evs, birth[e], s.nodes[e].value))
    && (forall d, e :: 1 <= d < e < |birth| ==> birth[d] < birth[e])
  }

  lemma StepKeeps(s: State, ev: Event)
    ensures var s' := Step(s, ev);
            && s.chain <= s'.chain && |s.nodes| <= |s'.nodes|
            && (forall e :: 0 <= e < |s.nodes| ==> s'.nodes[e].value == s.nodes[e].value)
            && (!(ev.Enqueue? && ev.t < |s.pcs| && s.pcs[ev.t].Idle?) ==> |s'.nodes| == |s.nodes|)
  {
  }

  lemma BeginsStill(front: seq<Event>, evs: seq<Event>, a: nat, v: int)
    requires front <= evs && Begins(front, a, v)
    ensures Begins(evs, a, v)
  {
    assert evs[..a] == front[..a];
  }

  lemma TraceStep(front: seq<Event>, evs: seq<Event>, s: State, s': State, birth: seq<nat>) returns (birth': seq<nat>)
    requires |evs| == |front| + 1 && evs[..|front|] == front && s == Run(front) && s' == Step(s, evs[|front|])
    requires Traced(front, s, birth)
    ensures Traced(evs, s', birth') && birth <= birth'
  {
    var ev := evs[|front|];
    StepKeeps(s, ev);
    forall e | 1 <= e < |birth| ensures Begins(evs, birth[e], s.nodes[e].value) {
      BeginsStill(front, evs, birth[e], s.nodes[e].value);
    }
    birth' := birth;
    if ev.Enqueue? && ev.t < |s.pcs| && s.pcs[ev.t].Idle? {
      assert Begins(evs, |front|, ev.v);
      birth' := birth + [|front|];
    }
  }

  lemma {:induction false} Origins(evs: seq<Event>) returns (birth: seq<nat>)
    ensures Traced(evs, Run(evs), birth)
  {
    if evs == [] {
      birth := [0];
    } else {
      var front := evs[..|evs| - 1];
      birth := Origins(front);
      birth := TraceStep(front, evs, Run(front), Run(evs), birth);
    }
  }

  /** The values dequeued are the arguments of enqueue calls by idle threads, a different call for each. */
  lemma OnlyEnqueued(evs: seq<Event>) returns (from: seq<nat>)
    ensures var log := Run(evs).log;
            && |from| == |log| && (forall i :: 0 <= i < |log| ==> Begins(evs, from[i], log[i]))
            && forall i, j :: 0 <= i < j < |log| ==> from[i] != from[j]
  {
    var birth := Origins(evs);
    RunInv(evs);
    var s := Run(evs);
    ChainExists(s);
    assert forall i :: 0 < i < |s.chain| ==> s.chain[i] != s.chain[0];
    from := seq(|s.log|, i requires 0 <= i < |s.log| => birth[s.chain[i + 1]]);
    forall i: nat | i < |s.log| ensures Begins(evs, from[i], s.log[i]) { assert LoggedAt(s, i); }
  }

  // ---- Operations that run undisturbed -------------------------------------------------------------------------

  /** k steps of thread t. */
  function Alone(s: State, t: nat, k: nat): (r: State)
    requires t < |s.pcs|
    ensures |r.pcs| == |s.pcs|
  {
    if k == 0 then s else Step(Alone(s, t, k - 1), Go(t))
  }

  /** One step more. */
  lemma Then(s: State, t: nat, k: nat, x: State, y: State) returns (k': nat)
    requires t < |s.pcs| && Alone(s, t, k) == x && Step(x, Go(t)) == y
    ensures k' == k + 1 && Alone(s, t, k') == y
  {
    k' := k + 1;
  }

  lemma {:induction false} AloneInv(s: State, t: nat, k: nat)
    requires Inv(s) && t < |s.pcs|
    ensures Inv(Alone(s, t, k))
  {
    if k > 0 {
      AloneInv(s, t, k - 1);
      StepInv(Alone(s, t, k - 1), Go(t));
    }
  }

  /** What an operation does to the rest of the state: other threads stay where they are. */
  ghost predicate Leaves(s: State, s': State, t: nat) { t < |s.pcs| && s'.pcs == s.pcs[t := Idle] }

  /** With the tail at the last entry, the entry is linked behind it and becomes the tail. */
  lemma LinkAlone(s0: State, k0: nat, s: State, t: nat) returns (k: nat, s': State)
    requires t < |s0.pcs| && Alone(s0, t, k0) == s
    requires Inv(s) && t < |s.pcs| && s.pcs[t].TailGen? && |s.chain| == s.tail.g + 1
    ensures k == k0 + 7 && s' == Alone(s0, t, k) && s.pcs[t].e < |s.nodes|
    ensures Leaves(s, s', t) && s'.log == s.log && Queue(s') == Queue(s) + [s.nodes[s.pcs[t].e].value]
  {
    var e, g, p := s.pcs[t].e, s.tail.g, AsNat(s.tail.p);
    assert PcOk(s, s.pcs[t]) && LinkAt(s.nodes, s.chain, g);
    var s5;
    k, s5 := LinkLoads(s0, k0, s, t);
    SameQueueOf(s, s5);
    LinkStep(s, t, s5);
    var s6 := Step(s5, Go(t));
    k := Then(s0, t, k, s5, s6);
    s' := SetPC(s6.(tail := Ptr(e, g + 1)), t, Idle);
    k := Then(s0, t, k, s6, s');
    SameQueueOf(s6, s');
  }

  lemma LinkLoads(s0: State, k0: nat, s: State, t: nat) returns (k: nat, s5: State)
    requires t < |s0.pcs| && Alone(s0, t, k0) == s
    requires Inv(s) && t < |s.pcs| && s.pcs[t].TailGen? && |s.chain| == s.tail.g + 1
    ensures s.tail.p >= 0 && s5 == SetPC(s, t, Link(s.pcs[t].e, s.tail.g, s.tail.p, 0))
    ensures k == k0 + 5 && Alone(s0, t, k) == s5
  {
    var e, g, p := s.pcs[t].e, s.tail.g, AsNat(s.tail.p);
    assert PcOk(s, s.pcs[t]) && LinkAt(s.nodes, s.chain, g);
    k := k0;
    k := Then(s0, t, k, s, SetPC(s, t, TailPtr(e, g)));
    k := Then(s0, t, k, SetPC(s, t, TailPtr(e, g)), SetPC(s, t, NextGen(e, g, p, g)));
    k := Then(s0, t, k, SetPC(s, t, NextGen(e, g, p, g)), SetPC(s, t, NextPtr(e, g, p, g, 0)));
    k := Then(s0, t, k, SetPC(s, t, NextPtr(e, g, p, g, 0)), SetPC(s, t, Recheck(e, g, p, g, 0, -1)));
    s5 := SetPC(s, t, Link(e, g, p, 0));
    k := Then(s0, t, k, SetPC(s, t, Recheck(e, g, p, g, 0, -1)), s5);
  }

  lemma LinkStep(s: State, t: nat, s5: State)
    requires Inv(s) && t < |s.pcs| && s.pcs[t].TailGen? && |s.chain| == s.tail.g + 1 && s.tail.p >= 0
    requires s5 == SetPC(s, t, Link(s.pcs[t].e, s.tail.g, s.tail.p, 0)) && Queue(s5) == Queue(s)
    ensures var e, p, s6 := s.pcs[t].e, s.tail.p, Step(s5, Go(t));
            && e < |s.nodes| && p < |s.nodes| && Queue(s6) == Queue(s) + [s.nodes[e].value]
            && s6 == SetPC(s5.(nodes := s.nodes[p := s.nodes[p].(next := Ptr(e, 1))], chain := s.chain + [e]), t,
                           Swing(e, s.tail.g, p))
  {
    assert PcOk(s, s.pcs[t]) && LinkAt(s.nodes, s.chain, s.tail.g);
    ChainExists(s);
    ValuesMore(s5, Step(s5, Go(t)), s.head.g + 1, s.pcs[t].e);
  }

  lemma SameQueueOf(s: State, s': State)
    requires s'.chain == s.chain && s'.nodes == s.nodes && s'.head == s.head
    ensures Queue(s') == Queue(s)
  {
    ValuesEqual(s, s', s.head.g + 1);
  }

  lemma {:induction false} ValuesEqual(s: State, s': State, from: nat)
    requires s'.chain == s.chain && s'.nodes == s.nodes
    ensures Values(s', from) == Values(s, from)
    decreases |s.chain| - from
  {
    if from < |s.chain| { ValuesEqual(s, s', from + 1); }
  }

  /** With the tail one entry behind, it is forwarded first. */
  lemma HelpAlone(s0: State, k0: nat, s: State, t: nat) returns (k: nat, s': State)
    requires t < |s0.pcs| && Alone(s0, t, k0) == s
    requires Inv(s) && t < |s.pcs| && s.pcs[t].TailGen? && |s.chain| == s.tail.g + 2
    ensures k == k0 + 6 && s' == Alone(s0, t, k)
    ensures s' == s.(tail := Ptr(s.chain[s.tail.g + 1], s.tail.g + 1))
  {
    var e, g, p, q := s.pcs[t].e, s.tail.g, AsNat(s.tail.p), s.chain[s.tail.g + 1];
    assert PcOk(s, s.pcs[t]) && LinkAt(s.nodes, s.chain, g);
    k := k0;
    k := Then(s0, t, k, s, SetPC(s, t, TailPtr(e, g)));
    k := Then(s0, t, k, SetPC(s, t, TailPtr(e, g)), SetPC(s, t, NextGen(e, g, p, g)));
    k := Then(s0, t, k, SetPC(s, t, NextGen(e, g, p, g)), SetPC(s, t, NextPtr(e, g, p, g, 1)));
    k := Then(s0, t, k, SetPC(s, t, NextPtr(e, g, p, g, 1)), SetPC(s, t, Recheck(e, g, p, g, 1, q)));
    k := Then(s0, t, k, SetPC(s, t, Recheck(e, g, p, g, 1, q)), SetPC(s, t, Help(e, g, p, q)));
    s' := s.(tail := Ptr(q, g + 1));
    assert s.pcs[t := TailGen(e)] == s.pcs;
    k := Then(s0, t, k, SetPC(s, t, Help(e, g, p, q)), s');
  }

  /** An undisturbed enqueue ends, and has put its value at the end of the queue. */
  lemma EnqueueAlone(evs: seq<Event>, t: nat, v: int) returns (k: nat)
    requires t < |Run(evs).pcs| && Run(evs).pcs[t].Idle?
    ensures var s := Run(evs);
            var s1 := Step(s, Enqueue(t, v));
            && k <= 13 && t < |s1.pcs|
            && var s' := Alone(s1, t, k);
               Queue(s') == Queue(s) + [v] && s'.pcs == s.pcs && s'.log == s.log
  {
    var s := Run(evs);
    RunInv(evs);
    var s1 := Step(s, Enqueue(t, v));
    StepInv(s, Enqueue(t, v));
    ChainExists(s);
    ValuesSame(s, s1, s.head.g + 1);
    assert s1.pcs[t := Idle] == s.pcs;
    k := LinkedAlone(s1, t);
  }

  lemma LinkedAlone(s1: State, t: nat) returns (k: nat)
    requires Inv(s1) && t < |s1.pcs| && s1.pcs[t].TailGen?
    ensures k <= 13 && s1.pcs[t].e < |s1.nodes|
    ensures var s' := Alone(s1, t, k);
            Leaves(s1, s', t) && s'.log == s1.log && Queue(s') == Queue(s1) + [s1.nodes[s1.pcs[t].e].value]
  {
    var s2;
    if |s1.chain| == s1.tail.g + 1 {
      k, s2 := LinkAlone(s1, 0, s1, t);
    } else {
      k, s2 := HelpAlone(s1, 0, s1, t);
      AloneInv(s1, t, k);
      SameQueueOf(s1, s2);
      k, s2 := LinkAlone(s1, k, s2, t);
    }
  }

  /** The loads of a dequeue, as far as the next pointer. */
  lemma HeadAlone(s0: State, k0: nat, s: State, t: nat) returns (k: nat, s': State)
    requires t < |s0.pcs| && Alone(s0, t, k0) == s
    requires Inv(s) && t < |s.pcs| && s.pcs[t].HeadGen?
    ensures k == k0 + 5 && s' == Alone(s0, t, k) && s.head.p >= 0 && s.tail.p >= 0
    ensures s' == SetPC(s, t, DNextPtr(s.head.g, s.head.p, s.head.g, s.tail.g, s.tail.p, s.tail.g))
  {
    var g, p, h, r := s.head.g, AsNat(s.head.p), s.tail.g, AsNat(s.tail.p);
    k := k0;
    k := Then(s0, t, k, s, SetPC(s, t, HeadPtr(g)));
    k := Then(s0, t, k, SetPC(s, t, HeadPtr(g)), SetPC(s, t, DTailGen(g, p, g)));
    k := Then(s0, t, k, SetPC(s, t, DTailGen(g, p, g)), SetPC(s, t, DTailPtr(g, p, g, h)));
    k := Then(s0, t, k, SetPC(s, t, DTailPtr(g, p, g, h)), SetPC(s, t, DNextGen(g, p, g, h, r, h)));
    s' := SetPC(s, t, DNextPtr(g, p, g, h, r, h));
    k := Then(s0, t, k, SetPC(s, t, DNextGen(g, p, g, h, r, h)), s');
  }

  /** A dequeue whose head is not the tail takes the next value. */
  lemma TakeAlone(s0: State, k0: nat, s: State, t: nat) returns (k: nat, s': State)
    requires Inv(s0) && t < |s0.pcs| && Alone(s0, t, k0) == s
    requires Inv(s) && t < |s.pcs| && s.pcs[t].HeadGen? && s.head.g < s.tail.g
    ensures k == k0 + 8 && s' == Alone(s0, t, k) && Queue(s) != [] && Leaves(s, s', t)
    ensures s'.log == s.log + [Queue(s)[0]] && Queue(s') == Queue(s)[1..]
  {
    var s5, s7;
    k, s5 := HeadAlone(s0, k0, s, t);
    k, s7 := ValueAlone(s0, s, t, k, s5);
    AloneInv(s0, t, k);
    SameQueueOf(s, s7);
    UnlinkEffect(s7, t);
    s' := Step(s7, Go(t));
    k := Then(s0, t, k, s7, s');
  }

  lemma ValueAlone(s0: State, s: State, t: nat, j: nat, s5: State) returns (k: nat, s7: State)
    requires Inv(s) && t < |s.pcs| && s.head.g < s.tail.g && s.head.p >= 0 && s.tail.p >= 0
    requires s5 == SetPC(s, t, DNextPtr(s.head.g, s.head.p, s.head.g, s.tail.g, s.tail.p, s.tail.g))
    requires t < |s0.pcs| && Alone(s0, t, j) == s5
    ensures var q := s.chain[s.head.g + 1];
            && k == j + 2 && Alone(s0, t, k) == s7 && q < |s.nodes|
            && s7 == SetPC(s, t, Unlink(s.head.g, s.head.p, s.head.g, q, s.nodes[q].value))
  {
    var g, p, h := s.head.g, s.head.p, s.tail.g;
    assert LinkAt(s.nodes, s.chain, g) && LinkAt(s.nodes, s.chain, g + 1);
    if p == s.tail.p { SamePlace(s, g, h); }
    var q := s.chain[g + 1];
    k := Then(s0, t, j, s5, SetPC(s, t, Value(g, p, g, q)));
    s7 := SetPC(s, t, Unlink(g, p, g, q, s.nodes[q].value));
    k := Then(s0, t, k, SetPC(s, t, Value(g, p, g, q)), s7);
  }

  /** A dequeue whose head is the last entry finds nothing. */
  lemma EmptyAlone(s0: State, k0: nat, s: State, t: nat) returns (k: nat, s': State)
    requires t < |s0.pcs| && Alone(s0, t, k0) == s
    requires Inv(s) && t < |s.pcs| && s.pcs[t].HeadGen? && s.head.g == s.tail.g && |s.chain| == s.tail.g + 1
    ensures k == k0 + 6 && s' == Alone(s0, t, k) && s' == SetPC(s, t, Idle) && Queue(s) == []
  {
    var s5;
    k, s5 := HeadAlone(s0, k0, s, t);
    assert LinkAt(s.nodes, s.chain, s.head.g);
    s' := SetPC(s, t, Idle);
    k := Then(s0, t, k, s5, s');
  }

  /** A dequeue whose head is the tail but not the last entry forwards the tail. */
  lemma ForwardAlone(s0: State, k0: nat, s: State, t: nat) returns (k: nat, s': State)
    requires t < |s0.pcs| && Alone(s0, t, k0) == s
    requires Inv(s) && t < |s.pcs| && s.pcs[t].HeadGen? && s.head.g == s.tail.g && |s.chain| == s.tail.g + 2
    ensures k == k0 + 7 && s' == Alone(s0, t, k)
    ensures s' == s.(tail := Ptr(s.chain[s.tail.g + 1], s.tail.g + 1))
  {
    var s5;
    k, s5 := HeadAlone(s0, k0, s, t);
    assert LinkAt(s.nodes, s.chain, s.head.g);
    var g, p, q := s.head.g, s.head.p, s.chain[s.head.g + 1];
    k := Then(s0, t, k, s5, SetPC(s, t, DHelp(g, p, g, q)));
    s' := s.(tail := Ptr(q, g + 1));
    assert s.pcs[t := HeadGen] == s.pcs;
    k := Then(s0, t, k, SetPC(s, t, DHelp(g, p, g, q)), s');
  }

  /** An undisturbed dequeue ends; it takes the front of the queue, or nothing if the queue is empty. */
  lemma DequeueAlone(evs: seq<Event>, t: nat) returns (k: nat)
    requires t < |Run(evs).pcs| && Run(evs).pcs[t].Idle?
    ensures var s := Run(evs);
            var s1 := Step(s, Dequeue(t));
            && k <= 15 && t < |s1.pcs|
            && var s' := Alone(s1, t, k);
               && s'.pcs == s.pcs && Queue(s') == (if Queue(s) == [] then [] else Queue(s)[1..])
               && s'.log == if Queue(s) == [] then s.log else s.log + [Queue(s)[0]]
  {
    var s := Run(evs);
    RunInv(evs);
    var s1 := Step(s, Dequeue(t));
    StepInv(s, Dequeue(t));
    SameQueueOf(s, s1);
    assert s1.pcs[t := Idle] == s.pcs;
    var s2;
    if s.head.g < s.tail.g {
      k, s2 := TakeAlone(s1, 0, s1, t);
    } else if |s.chain| == s.tail.g + 1 {
      k, s2 := EmptyAlone(s1, 0, s1, t);
      SameQueueOf(s1, s2);
    } else {
      k, s2 := ForwardAlone(s1, 0, s1, t);
      AloneInv(s1, t, k);
      SameQueueOf(s1, s2);
      k, s2 := TakeAlone(s1, k, s2, t);
    }
  }

  // ---- Operations that have returned ----------------------------------------------------------------------------

  /** Entry e is linked, or thread t is about to link it. */
  ghost predicate Carried(s: State, t: nat, e: nat) {
    t < |s.pcs| && (e in s.chain || (Enqueuing(s.pcs[t]) && s.pcs[t].e == e))
  }

  lemma EnqueueCarries(s: State, t: nat, e: nat)
    requires Inv(s) && t < |s.pcs| && Enqueuing(s.pcs[t]) && s.pcs[t].e == e
    ensures Carried(EnqueueStep(s, t), t, e)
  {
    assert PcOk(s, s.pcs[t]);
    var s' := EnqueueStep(s, t);
    if s.pcs[t].Swing? { assert s.chain[s.pcs[t].g + 1] == e; }
    if |s'.chain| > |s.chain| { assert s'.chain[|s.chain|] == e; }
  }

  /** Only its own steps move a thread in the middle of an operation. */
  lemma OthersKeep(s: State, ev: Event, t: nat)
    requires t < |s.pcs|
    ensures t < |Step(s, ev).pcs|
    ensures ev != Go(t) && !s.pcs[t].Idle? ==> Step(s, ev).pcs[t] == s.pcs[t]
  {
  }

  lemma CarriedStep(s: State, ev: Event, t: nat, e: nat)
    requires Inv(s) && Carried(s, t, e)
    ensures Carried(Step(s, ev), t, e)
  {
    StepKeeps(s, ev);
    if e in s.chain {
      OthersKeep(s, ev, t);
    } else if ev == Go(t) {
      EnqueueCarries(s, t, e);
    } else {
      OthersKeep(s, ev, t);
    }
  }

  /** Entry e holds v, and is linked or carried by thread t. */
  ghost predicate Placed(s: State, t: nat, e: nat, v: int) {
    Carried(s, t, e) && e < |s.nodes| && s.nodes[e].value == v
  }

  lemma PlacedFirst(s: State, t: nat, v: int)
    requires t < |s.pcs| && s.pcs[t].Idle?
    ensures Placed(Step(s, Enqueue(t, v)), t, |s.nodes|, v)
  {
  }

  lemma PlacedStep(s: State, ev: Event, s': State, t: nat, e: nat, v: int)
    requires Inv(s) && Placed(s, t, e, v) && s' == Step(s, ev)
    ensures Placed(s', t, e, v)
  {
    StepKeeps(s, ev);
    CarriedStep(s, ev, t, e);
  }

  ghost predicate PlacedAt(evs: seq<Event>, n: nat, t: nat, e: nat, v: int) {
    n <= |evs| && Placed(Run(evs[..n]), t, e, v)
  }

  lemma PlacedBegins(evs: seq<Event>, a: nat, v: int)
    requires Begins(evs, a, v)
    ensures PlacedAt(evs, a + 1, evs[a].t, |Run(evs[..a]).nodes|, v)
  {
    RunNext(evs, a);
    PlacedFirst(Run(evs[..a]), evs[a].t, v);
  }

  lemma PlacedNext(evs: seq<Event>, n: nat, t: nat, e: nat, v: int)
    requires n < |evs| && PlacedAt(evs, n, t, e, v)
    ensures PlacedAt(evs, n + 1, t, e, v)
  {
    RunNext(evs, n);
    RunInv(evs[..n]);
    PlacedStep(Run(evs[..n]), evs[n], Run(evs[..n + 1]), t, e, v);
  }

  lemma {:induction false} PlacedOn(evs: seq<Event>, m: nat, n: nat, t: nat, e: nat, v: int)
    requires m <= n <= |evs| && PlacedAt(evs, m, t, e, v)
    ensures PlacedAt(evs, n, t, e, v)
    decreases n
  {
    if m < n {
      PlacedOn(evs, m, n - 1, t, e, v);
      PlacedNext(evs, n - 1, t, e, v);
    }
  }

  /** When an enqueue has returned its entry is linked behind the stub, once, with the value it was given. */
  lemma EnqueueReturned(evs: seq<Event>, a: nat, t: nat, v: int) returns (i: nat)
    requires Begins(evs, a, v) && evs[a].t == t && t < |Run(evs).pcs| && !Enqueuing(Run(evs).pcs[t])
    ensures var s := Run(evs);
            && 0 < i < |s.chain| && s.chain[i] == |Run(evs[..a]).nodes| < |s.nodes| && s.nodes[s.chain[i]].value == v
            && forall j :: 0 <= j < |s.chain| && s.chain[j] == s.chain[i] ==> j == i
  {
    var s, e := Run(evs), |Run(evs[..a]).nodes|;
    assert evs[..|evs|] == evs;
    PlacedBegins(evs, a, v);
    PlacedOn(evs, a + 1, |evs|, t, e, v);
    RunInv(evs);
    i :| 0 <= i < |s.chain| && s.chain[i] == e;
    var birth := Origins(evs);
    NotStub(evs[..a]);
  }

  lemma NotStub(evs: seq<Event>)
    ensures |Run(evs).nodes| > 0
  {
    RunInv(evs);
    assert LinkAt(Run(evs).nodes, Run(evs).chain, 0);
  }
}
