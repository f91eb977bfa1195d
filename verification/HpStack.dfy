/**
 A stack whose pops are protected by hazard pointers, as a step machine: one shared load, store or
 compare-and-swap per step, in any interleaving of any number of threads over any number of entries.
 Destroyed entries are allocated and pushed again.
 */
module HpStack {

  /** Who an entry belongs to. */
  datatype Status =
    | Free              // destroyed, or never used
    | Owned(t: nat)     // allocated by a thread that may push it
    | Stacked
    | Out(t: nat)       // popped by a thread that may retire it
    | Retired(t: nat)   // on the thread's pending list

  /** The length of the array a reclamation copies hazard pointers to. */
  const CACHE: nat := 512

  /** NULL is -1. */
  datatype Node = Node(next: int, status: Status)

  /** How a pop came to check the head again: from its first loop, after a failed CAS, or from the
      loop that follows. */
  datatype Phase = First | AfterCas | Again

  datatype PC =
    | Idle
    | PushLink(e: nat, s: int)            // store entry->next
    | PushCas(e: nat, s: int)
    | Load                                // load the head
    | Guard(c: int, phase: Phase)         // store the hazard pointer
    | Check(c: int, phase: Phase)         // load the head again
    | Next(x: nat)                        // load entry->next
    | Cas(x: nat, n: int)
    | Scan(i: nat, cache: seq<int>)       // load the state of record i - 1
    | Peek(i: nat, cache: seq<int>)       // load its hazard pointer
    | Sweep(j: nat, cache: seq<int>)      // the pending entries from j on are still to be looked at

  datatype Rec = Rec(used: bool, hz: int, pc: PC, pending: seq<nat>)

  /** `st` is the abstract stack, top first. */
  datatype State = State(head: int, nodes: seq<Node>, recs: seq<Rec>, st: seq<nat>)

  datatype Event =
    | Register
    | Recycle(t: nat)
    | Unregister(t: nat)
    | Alloc(t: nat, e: nat)
    | Push(t: nat, e: nat)
    | Pop(t: nat)
    | Clear(t: nat)
    | Retire(t: nat, e: nat)
    | Reclaim(t: nat)
    | Go(t: nat)                          // the next step of the operation in progress

  function Init(n: nat): State { State(-1, seq(n, _ => Node(-1, Free)), [], []) }

  predicate Ready(s: State, t: nat) { t < |s.recs| && s.recs[t].used && s.recs[t].pc == Idle }

  function SetRec(s: State, t: nat, r: Rec): State
    requires t < |s.recs|
  {
    s.(recs := s.recs[t := r])
  }

  function SetPC(s: State, t: nat, pc: PC): State
    requires t < |s.recs|
  {
    SetRec(s, t, s.recs[t].(pc := pc))
  }

  function SetStatus(s: State, e: nat, x: Status): State
    requires e < |s.nodes|
  {
    s.(nodes := s.nodes[e := s.nodes[e].(status := x)])
  }

  function Drop(p: seq<nat>, j: nat): seq<nat>
    requires j < |p|
  {
    p[..j] + p[j + 1..]
  }

  /** The next step of thread t. */
  function Advance(s: State, t: nat): State
    requires t < |s.recs|
  {
    var r := s.recs[t];
    match r.pc
    case Idle => s
    case PushLink(e, h) =>
      if e < |s.nodes| then SetPC(s.(nodes := s.nodes[e := s.nodes[e].(next := h)]), t, PushCas(e, h)) else s
    case PushCas(e, h) =>
      if s.head != h then SetPC(s, t, PushLink(e, s.head))
      else if e < |s.nodes| then
        SetPC(SetStatus(s, e, Stacked).(head := e, st := [e] + s.st), t, Idle)
      else s
    case Load => if s.head == -1 then SetPC(s, t, Idle) else SetPC(s, t, Guard(s.head, First))
    case Guard(c, phase) => SetRec(s, t, r.(hz := c, pc := Check(c, phase)))
    case Check(c, phase) =>
      if phase == Again && s.head == -1 then SetPC(s, t, Idle)
      else if s.head == c && c >= 0 then SetPC(s, t, Next(c))
      else if phase == First then SetPC(s, t, Load)
      else SetPC(s, t, Guard(s.head, Again))
    case Next(x) => if x < |s.nodes| then SetPC(s, t, Cas(x, s.nodes[x].next)) else s
    case Cas(x, n) =>
      if s.head == x && x < |s.nodes| then
        SetPC(SetStatus(s, x, Out(t)).(head := n, st := if s.st == [] then [] else s.st[1..]), t, Idle)
      else if s.head == -1 then SetPC(s, t, Idle)
      else SetPC(s, t, Guard(s.head, AfterCas))
    case Scan(i, cache) => // past CACHE + 1 pointers the rest is not looked at
      if i == 0 then SetPC(s, t, Sweep(0, cache))
      else if i <= |s.recs| && s.recs[i - 1].used && |cache| <= CACHE then SetPC(s, t, Peek(i, cache))
      else SetPC(s, t, Scan(i - 1, cache))
    case Peek(i, cache) =>
      if i == 0 then s
      else if i <= |s.recs| && s.recs[i - 1].hz != -1 then
        SetPC(s, t, Scan(i - 1, cache + [s.recs[i - 1].hz]))
      else SetPC(s, t, Scan(i - 1, cache))
    case Sweep(j, cache) =>
      if j >= |r.pending| then SetPC(s, t, Idle)
      else if r.pending[j] in cache then SetPC(s, t, Sweep(j + 1, cache))
      else if r.pending[j] < |s.nodes| then
        SetRec(SetStatus(s, r.pending[j], Free), t, r.(pending := Drop(r.pending, j)))
      else s
  }

  function Step(s: State, ev: Event): State {
    match ev
    case Register => s.(recs := s.recs + [Rec(true, -1, Idle, [])])
    case Recycle(t) =>
      if t < |s.recs| && !s.recs[t].used then SetRec(s, t, s.recs[t].(used := true)) else s
    case Unregister(t) =>
      if Ready(s, t) && s.recs[t].pending == [] then SetRec(s, t, s.recs[t].(used := false)) else s
    case Alloc(t, e) =>
      if t < |s.recs| && e < |s.nodes| && s.nodes[e].status.Free? then SetStatus(s, e, Owned(t)) else s
    case Push(t, e) =>
      if Ready(s, t) && e < |s.nodes| && s.nodes[e].status == Owned(t) then SetPC(s, t, PushLink(e, s.head)) else s
    case Pop(t) => if Ready(s, t) then SetPC(s, t, Load) else s
    case Clear(t) => if Ready(s, t) then SetRec(s, t, s.recs[t].(hz := -1)) else s
    case Retire(t, e) =>
      if Ready(s, t) && e < |s.nodes| && s.nodes[e].status == Out(t) then
        SetRec(SetStatus(s, e, Retired(t)), t, s.recs[t].(pending := [e] + s.recs[t].pending))
      else s
    case Reclaim(t) => if Ready(s, t) then SetPC(s, t, Scan(|s.recs|, [])) else s
    case Go(t) => if t < |s.recs| then Advance(s, t) else s
  }

  function Run(n: nat, evs: seq<Event>): State {
    if evs == [] then Init(n) else Step(Run(n, evs[..|evs| - 1]), evs[|evs| - 1])
  }

  // ---- The invariant -------------------------------------------------------------------------------------

  /** The thread relies on entry x not being destroyed. */
  predicate Protects(r: Rec, x: int) { (r.pc.Next? || r.pc.Cas?) && r.pc.x == x }

  predicate Live(nodes: seq<Node>, x: int) {
    0 <= x < |nodes| && (nodes[x].status.Stacked? || nodes[x].status.Out? || nodes[x].status.Retired?)
  }

  predicate RecOk(nodes: seq<Node>, t: nat, r: Rec) {
    && (!r.used ==> r.pc == Idle && r.pending == [])
    && match r.pc
       case PushLink(e, _) => e < |nodes| && nodes[e].status == Owned(t)
       case PushCas(e, h) => e < |nodes| && nodes[e].status == Owned(t) && nodes[e].next == h
       case Check(c, _) => r.hz == c
       case Next(x) => r.hz == x && Live(nodes, x)
       case Cas(x, n) => r.hz == x && Live(nodes, x) && nodes[x].next == n
       case Sweep(j, _) => j <= |r.pending|
       case _ => true
  }

  ghost predicate PendingOk(nodes: seq<Node>, t: nat, r: Rec) {
    && (forall i :: 0 <= i < |r.pending| ==> r.pending[i] < |nodes| && nodes[r.pending[i]].status == Retired(t))
    && (forall i, j :: 0 <= i < j < |r.pending| ==> r.pending[i] != r.pending[j])
  }

  /** Reclaimer r will see, or has seen, what thread t protects among the entries r is to destroy. */
  ghost predicate Seen(r: Rec, t: nat, q: Rec) {
    forall x: nat {:trigger Protects(q, x)} :: Protects(q, x) && x in r.pending ==>
      && (r.pc.Scan? || r.pc.Peek? ==> t < r.pc.i || x in r.pc.cache)
      && (r.pc.Sweep? ==> x in r.pc.cache)
  }

  ghost predicate LinkAt(nodes: seq<Node>, st: seq<nat>, i: nat) {
    && i < |st| && st[i] < |nodes| && nodes[st[i]].status.Stacked?
    && nodes[st[i]].next == if i + 1 < |st| then st[i + 1] else -1
  }

  /** Head and next pointers spell out the abstract stack. */
  ghost predicate StackOk(head: int, nodes: seq<Node>, st: seq<nat>) {
    && head == (if st == [] then -1 else st[0])
    && (forall i: nat {:trigger LinkAt(nodes, st, i)} :: i < |st| ==> LinkAt(nodes, st, i))
    && (forall i, j :: 0 <= i < j < |st| ==> st[i] != st[j])
    && (forall e: nat {:trigger nodes[e]} :: e < |nodes| && nodes[e].status.Stacked? ==> e in st)
  }

  ghost predicate RecsOk(s: State) {
    forall t: nat {:trigger s.recs[t]} :: t < |s.recs| ==>
      RecOk(s.nodes, t, s.recs[t]) && PendingOk(s.nodes, t, s.recs[t])
  }

  ghost predicate RetiredOk(s: State) {
    forall e: nat {:trigger s.nodes[e]} :: e < |s.nodes| && s.nodes[e].status.Retired? ==>
      s.nodes[e].status.t < |s.recs| && e in s.recs[s.nodes[e].status.t].pending
  }

  ghost predicate AllSeen(s: State) {
    forall r: nat, t: nat {:trigger Seen(s.recs[r], t, s.recs[t])} :: r < |s.recs| && t < |s.recs| ==>
      Seen(s.recs[r], t, s.recs[t])
  }

  /** A snapshot holds at most one pointer for each record it has looked at. */
  predicate CacheOk(count: nat, r: Rec) {
    && (r.pc.Scan? || r.pc.Peek? ==> |r.pc.cache| + r.pc.i <= count)
    && (r.pc.Sweep? ==> |r.pc.cache| <= count)
  }

  ghost predicate CachesOk(s: State) {
    forall t: nat {:trigger s.recs[t]} :: t < |s.recs| ==> CacheOk(|s.recs|, s.recs[t])
  }

  ghost predicate Inv(s: State) {
    StackOk(s.head, s.nodes, s.st) && RecsOk(s) && RetiredOk(s) && AllSeen(s) && CachesOk(s)
  }

  // ---- One record changes -----------------------------------------------------------------------------------

  /** Thread t changes its own record, but not its pending list. */
  lemma RecChange(s: State, t: nat, r: Rec)
    requires Inv(s) && t < |s.recs| && r.pending == s.recs[t].pending && RecOk(s.nodes, t, r)
    requires forall u: nat {:trigger s.recs[u]} :: u < |s.recs| && u != t ==>
               Seen(s.recs[u], t, r) && Seen(r, u, s.recs[u])
    requires Seen(r, t, r) && CacheOk(|s.recs|, r)
    ensures Inv(SetRec(s, t, r))
  {
    var s' := SetRec(s, t, r);
    assert PendingOk(s.nodes, t, s.recs[t]);
    forall u: nat, q: nat | u < |s'.recs| && q < |s'.recs| ensures Seen(s'.recs[u], q, s'.recs[q]) {
      if u != t && q != t { assert Seen(s.recs[u], q, s.recs[q]); }
    }
  }

  predicate Scanning(r: Rec) { r.pc.Scan? || r.pc.Peek? || r.pc.Sweep? }

  predicate Popping(r: Rec) { r.pc.Next? || r.pc.Cas? }

  /** A record that neither reclaims nor protects concerns no other. */
  lemma QuietChange(s: State, t: nat, r: Rec)
    requires Inv(s) && t < |s.recs| && r.pending == s.recs[t].pending && RecOk(s.nodes, t, r)
    requires !Scanning(r) && !Popping(r)
    ensures Inv(SetRec(s, t, r))
  {
    RecChange(s, t, r);
  }

  /** A pop that holds an entry which is still on the stack concerns no reclaimer. */
  lemma PopChange(s: State, t: nat, r: Rec)
    requires Inv(s) && t < |s.recs| && r.pending == s.recs[t].pending && RecOk(s.nodes, t, r) && Popping(r)
    requires s.nodes[r.pc.x].status.Stacked? || Protects(s.recs[t], r.pc.x)
    ensures Inv(SetRec(s, t, r))
  {
    forall u: nat | u < |s.recs| && u != t ensures Seen(s.recs[u], t, r) {
      assert Seen(s.recs[u], t, s.recs[t]);
      assert PendingOk(s.nodes, u, s.recs[u]);
    }
    RecChange(s, t, r);
  }

  lemma ScanChange(s: State, t: nat, r: Rec)
    requires Inv(s) && t < |s.recs| && r.pending == s.recs[t].pending && RecOk(s.nodes, t, r) && Scanning(r)
    requires CacheOk(|s.recs|, r)
    requires forall u: nat {:trigger s.recs[u]} :: u < |s.recs| && u != t ==> Seen(r, u, s.recs[u])
    ensures Inv(SetRec(s, t, r))
  {
    RecChange(s, t, r);
  }

  // ---- One entry changes ---------------------------------------------------------------------------------------

  /** An entry changes that is not on the stack and that no thread's record depends on. */
  lemma NodeChange(s: State, e: nat, nd: Node)
    requires Inv(s) && e < |s.nodes| && !s.nodes[e].status.Stacked? && !nd.status.Stacked?
    requires !s.nodes[e].status.Retired? && !nd.status.Retired?
    requires forall t: nat {:trigger s.recs[t]} :: t < |s.recs| ==> RecOk(s.nodes[e := nd], t, s.recs[t])
    ensures Inv(s.(nodes := s.nodes[e := nd]))
  {
    var nodes' := s.nodes[e := nd];
    OffStack(s.head, s.nodes, s.st, e, nd);
    forall t: nat | t < |s.recs| ensures PendingOk(nodes', t, s.recs[t]) {
      assert PendingOk(s.nodes, t, s.recs[t]);
    }
    SeenSame(s, s.(nodes := nodes'));
  }

  lemma OffStack(head: int, nodes: seq<Node>, st: seq<nat>, e: nat, nd: Node)
    requires StackOk(head, nodes, st) && e < |nodes| && !nodes[e].status.Stacked? && !nd.status.Stacked?
    ensures StackOk(head, nodes[e := nd], st)
  {
    var nodes' := nodes[e := nd];
    forall i: nat | i < |st| ensures LinkAt(nodes', st, i) {
      assert LinkAt(nodes, st, i);
    }
  }

  lemma SeenSame(s: State, s': State)
    requires AllSeen(s) && s'.recs == s.recs
    ensures AllSeen(s')
  {
    forall r: nat, t: nat | r < |s'.recs| && t < |s'.recs| ensures Seen(s'.recs[r], t, s'.recs[t]) {
      assert Seen(s.recs[r], t, s.recs[t]);
    }
  }

  // ---- Each step ------------------------------------------------------------------------------------------------

  lemma PushLinkInv(s: State, t: nat)
    requires Inv(s) && t < |s.recs| && s.recs[t].pc.PushLink?
    ensures Inv(Advance(s, t))
  {
    var r := s.recs[t];
    var e, h := r.pc.e, r.pc.s;
    assert RecOk(s.nodes, t, r);
    var s1 := s.(nodes := s.nodes[e := s.nodes[e].(next := h)]);
    NodeChange(s, e, s.nodes[e].(next := h));
    QuietChange(s1, t, r.(pc := PushCas(e, h)));
    assert Advance(s, t) == SetRec(s1, t, r.(pc := PushCas(e, h)));
  }

  /** An owned entry that points at the top becomes the top. */
  lemma PushTop(head: int, nodes: seq<Node>, st: seq<nat>, e: nat)
    requires StackOk(head, nodes, st) && e < |nodes| && !nodes[e].status.Stacked? && nodes[e].next == head
    ensures StackOk(e, nodes[e := nodes[e].(status := Stacked)], [e] + st)
  {
    var nodes', st' := nodes[e := nodes[e].(status := Stacked)], [e] + st;
    forall i: nat | i < |st'| ensures LinkAt(nodes', st', i) {
      if i > 0 { assert LinkAt(nodes, st, i - 1); }
    }
    forall i | 0 <= i < |st| ensures st[i] != e {
      assert LinkAt(nodes, st, i);
    }
    forall x: nat | x < |nodes'| && nodes'[x].status.Stacked? ensures x in st' {
      if x != e {
        assert nodes[x].status.Stacked?;
        var i :| 0 <= i < |st| && st[i] == x;
        assert st'[i + 1] == x;
      } else {
        assert st'[0] == e;
      }
    }
  }

  lemma PushCasInv(s: State, t: nat)
    requires Inv(s) && t < |s.recs| && s.recs[t].pc.PushCas?
    ensures Inv(Advance(s, t))
  {
    var r := s.recs[t];
    var e, h := r.pc.e, r.pc.s;
    assert RecOk(s.nodes, t, r);
    if s.head != h {
      QuietChange(s, t, r.(pc := PushLink(e, s.head)));
    } else {
      var s1 := SetPC(s, t, Idle);
      QuietChange(s, t, r.(pc := Idle));
      PushTop(s.head, s.nodes, s.st, e);
      var s2 := Advance(s, t);
      assert s2 == SetStatus(s1, e, Stacked).(head := e, st := [e] + s.st);
      StatusUp(s1, s2, e);
    }
  }

  /** The rest of the invariant when an owned entry is pushed or a stacked one popped. */
  lemma StatusUp(s: State, s': State, e: nat)
    requires Inv(s) && s'.recs == s.recs && e < |s.nodes| == |s'.nodes| && StackOk(s'.head, s'.nodes, s'.st)
    requires s'.nodes == s.nodes[e := s.nodes[e].(status := s'.nodes[e].status)]
    requires Live(s'.nodes, e) && !s'.nodes[e].status.Retired? && !s.nodes[e].status.Retired?
    requires forall t: nat {:trigger s.recs[t]} :: t < |s.recs| && (s.recs[t].pc.PushLink? || s.recs[t].pc.PushCas?) ==>
               s.recs[t].pc.e != e
    ensures Inv(s')
  {
    forall t: nat | t < |s'.recs| ensures RecOk(s'.nodes, t, s'.recs[t]) && PendingOk(s'.nodes, t, s'.recs[t]) {
      assert RecOk(s.nodes, t, s.recs[t]) && PendingOk(s.nodes, t, s.recs[t]);
    }
    SeenSame(s, s');
  }

  /** Every thread's push is of an entry of its own. */
  lemma OwnPush(s: State, t: nat)
    requires Inv(s) && t < |s.recs| && (s.recs[t].pc.PushLink? || s.recs[t].pc.PushCas?)
    ensures s.recs[t].pc.e < |s.nodes| && s.nodes[s.recs[t].pc.e].status == Owned(t)
  {
    assert RecOk(s.nodes, t, s.recs[t]);
  }

  lemma PopTop(head: int, nodes: seq<Node>, st: seq<nat>, x: nat, to: Status)
    requires StackOk(head, nodes, st) && head == x && !to.Stacked?
    ensures st != [] && x == st[0] && x < |nodes|
    ensures StackOk(nodes[x].next, nodes[x := nodes[x].(status := to)], st[1..])
  {
    assert LinkAt(nodes, st, 0);
    var nodes', st' := nodes[x := nodes[x].(status := to)], st[1..];
    forall i: nat | i < |st'| ensures LinkAt(nodes', st', i) {
      assert LinkAt(nodes, st, i + 1);
    }
    forall e: nat | e < |nodes'| && nodes'[e].status.Stacked? ensures e in st' {
      assert nodes[e].status.Stacked?;
      var i :| 0 <= i < |st| && st[i] == e;
      assert st'[i - 1] == e;
    }
  }

  lemma CasInv(s: State, t: nat)
    requires Inv(s) && t < |s.recs| && s.recs[t].pc.Cas?
    ensures Inv(Advance(s, t))
  {
    var r := s.recs[t];
    var x := r.pc.x;
    assert RecOk(s.nodes, t, r);
    if s.head == x {
      PopTop(s.head, s.nodes, s.st, x, Out(t));
      var s1, s2 := SetPC(s, t, Idle), Advance(s, t);
      QuietChange(s, t, r.(pc := Idle));
      assert s2 == SetStatus(s1, x, Out(t)).(head := r.pc.n, st := s.st[1..]);
      forall u: nat | u < |s1.recs| && (s1.recs[u].pc.PushLink? || s1.recs[u].pc.PushCas?)
        ensures s1.recs[u].pc.e != x
      {
        OwnPush(s1, u);
      }
      assert LinkAt(s.nodes, s.st, 0);
      StatusUp(s1, s2, x);
    } else if s.head == -1 {
      QuietChange(s, t, r.(pc := Idle));
    } else {
      QuietChange(s, t, r.(pc := Guard(s.head, AfterCas)));
    }
  }

  lemma CheckInv(s: State, t: nat)
    requires Inv(s) && t < |s.recs| && s.recs[t].pc.Check?
    ensures Inv(Advance(s, t))
  {
    var r := s.recs[t];
    assert RecOk(s.nodes, t, r);
    var c, phase := r.pc.c, r.pc.phase;
    if phase == Again && s.head == -1 {
      QuietChange(s, t, r.(pc := Idle));
    } else if s.head == c && c >= 0 {
      assert LinkAt(s.nodes, s.st, 0);
      PopChange(s, t, r.(pc := Next(c)));
    } else if phase == First {
      QuietChange(s, t, r.(pc := Load));
    } else {
      QuietChange(s, t, r.(pc := Guard(s.head, Again)));
    }
  }

  lemma ScanInv(s: State, t: nat)
    requires Inv(s) && t < |s.recs| && (s.recs[t].pc.Scan? || s.recs[t].pc.Peek?)
    requires |s.recs| <= CACHE
    ensures Inv(Advance(s, t))
  {
    var r := s.recs[t];
    var i, cache := r.pc.i, r.pc.cache;
    assert RecOk(s.nodes, t, r) && CacheOk(|s.recs|, r);
    var r' := Advance(s, t).recs[t];
    forall u: nat | u < |s.recs| && u != t ensures Seen(r', u, s.recs[u]) {
      assert Seen(r, u, s.recs[u]);
      assert RecOk(s.nodes, u, s.recs[u]);
    }
    ScanChange(s, t, r');
  }

  /** No other record relies on an entry that is not in the snapshot. */
  lemma DestroyOther(s: State, t: nat, u: nat, nodes: seq<Node>)
    requires Inv(s) && t < |s.recs| && u < |s.recs| && u != t && s.recs[t].pc.Sweep?
    requires var r := s.recs[t];
             && r.pc.j < |r.pending| && r.pending[r.pc.j] < |s.nodes| && r.pending[r.pc.j] !in r.pc.cache
             && nodes == s.nodes[r.pending[r.pc.j] := s.nodes[r.pending[r.pc.j]].(status := Free)]
    ensures RecOk(nodes, u, s.recs[u]) && PendingOk(nodes, u, s.recs[u])
  {
    var r := s.recs[t];
    assert PendingOk(s.nodes, t, r);
    assert RecOk(s.nodes, u, s.recs[u]) && PendingOk(s.nodes, u, s.recs[u]);
    assert Seen(r, u, s.recs[u]);
    assert !Protects(s.recs[u], r.pending[r.pc.j]);
  }

  /** An entry that no hazard pointer protects is destroyed. */
  lemma DestroyInv(s: State, t: nat)
    requires Inv(s) && t < |s.recs| && s.recs[t].pc.Sweep?
    requires s.recs[t].pc.j < |s.recs[t].pending| && s.recs[t].pending[s.recs[t].pc.j] !in s.recs[t].pc.cache
    ensures Inv(Advance(s, t))
  {
    var r := s.recs[t];
    var j := r.pc.j;
    var e := r.pending[j];
    assert RecOk(s.nodes, t, r) && PendingOk(s.nodes, t, r);
    var r', s' := r.(pending := Drop(r.pending, j)), Advance(s, t);
    assert s' == SetRec(SetStatus(s, e, Free), t, r');
    OffStack(s.head, s.nodes, s.st, e, s.nodes[e].(status := Free));
    DropOk(s.nodes, s'.nodes, t, r, j);
    forall u: nat | u < |s'.recs| ensures RecOk(s'.nodes, u, s'.recs[u]) && PendingOk(s'.nodes, u, s'.recs[u]) {
      if u != t { DestroyOther(s, t, u, s'.nodes); }
    }
    DropListed(s, t, j);
    DropSeen(s, t, j);
  }

  /** The retired nodes are still listed after one of record t has been destroyed. */
  lemma DropListed(s: State, t: nat, j: nat)
    requires Inv(s) && t < |s.recs| && j < |s.recs[t].pending| && s.recs[t].pending[j] < |s.nodes|
    ensures var r := s.recs[t];
            RetiredOk(SetRec(SetStatus(s, r.pending[j], Free), t, r.(pending := Drop(r.pending, j))))
  {
    var r := s.recs[t];
    var r' := r.(pending := Drop(r.pending, j));
    var s' := SetRec(SetStatus(s, r.pending[j], Free), t, r');
    forall x: nat | x < |s'.nodes| && s'.nodes[x].status.Retired?
      ensures s'.nodes[x].status.t < |s'.recs| && x in s'.recs[s'.nodes[x].status.t].pending
    {
      assert s.nodes[x].status.Retired?;
      if s.nodes[x].status.t == t {
        var i :| 0 <= i < |r.pending| && r.pending[i] == x;
        assert r'.pending[if i < j then i else i - 1] == x;
      }
    }
  }

  lemma DropSeen(s: State, t: nat, j: nat)
    requires Inv(s) && t < |s.recs| && j < |s.recs[t].pending| && s.recs[t].pending[j] < |s.nodes|
    ensures var r := s.recs[t];
            AllSeen(SetRec(SetStatus(s, r.pending[j], Free), t, r.(pending := Drop(r.pending, j))))
  {
    var r := s.recs[t];
    var s' := SetRec(SetStatus(s, r.pending[j], Free), t, r.(pending := Drop(r.pending, j)));
    assert PendingOk(s.nodes, t, r);
    DropOk(s.nodes, s'.nodes, t, r, j);
    forall u: nat, q: nat | u < |s'.recs| && q < |s'.recs| ensures Seen(s'.recs[u], q, s'.recs[q]) {
      assert Seen(s.recs[u], q, s.recs[q]);
      forall x: nat | Protects(s'.recs[q], x) && x in s'.recs[u].pending ensures x in s.recs[u].pending {}
      assert forall x: nat :: Protects(s'.recs[q], x) ==> Protects(s.recs[q], x);
    }
  }

  lemma DropOk(nodes: seq<Node>, nodes': seq<Node>, t: nat, r: Rec, j: nat)
    requires PendingOk(nodes, t, r) && j < |r.pending|
    requires nodes' == nodes[r.pending[j] := nodes[r.pending[j]].(status := Free)]
    ensures PendingOk(nodes', t, r.(pending := Drop(r.pending, j)))
    ensures forall x :: x in Drop(r.pending, j) ==> x in r.pending
  {
  }

  lemma SweepInv(s: State, t: nat)
    requires Inv(s) && t < |s.recs| && s.recs[t].pc.Sweep?
    ensures Inv(Advance(s, t))
  {
    var r := s.recs[t];
    var j, cache := r.pc.j, r.pc.cache;
    assert RecOk(s.nodes, t, r) && PendingOk(s.nodes, t, r);
    if j >= |r.pending| {
      QuietChange(s, t, r.(pc := Idle));
    } else if r.pending[j] in cache {
      var r' := r.(pc := Sweep(j + 1, cache));
      forall u: nat | u < |s.recs| && u != t ensures Seen(r', u, s.recs[u]) {
        assert Seen(r, u, s.recs[u]);
      }
      ScanChange(s, t, r');
    } else {
      DestroyInv(s, t);
    }
  }

  lemma AdvanceInv(s: State, t: nat)
    requires Inv(s) && t < |s.recs| <= CACHE
    ensures Inv(Advance(s, t))
  {
    var r := s.recs[t];
    assert RecOk(s.nodes, t, r);
    match r.pc
    case Idle =>
    case PushLink(_, _) => PushLinkInv(s, t);
    case PushCas(_, _) => PushCasInv(s, t);
    case Load => QuietChange(s, t, Advance(s, t).recs[t]);
    case Guard(c, phase) => QuietChange(s, t, r.(hz := c, pc := Check(c, phase)));
    case Check(_, _) => CheckInv(s, t);
    case Next(x) => PopChange(s, t, r.(pc := Cas(x, s.nodes[x].next)));
    case Cas(_, _) => CasInv(s, t);
    case Scan(_, _) => ScanInv(s, t);
    case Peek(_, _) => ScanInv(s, t);
    case Sweep(_, _) => SweepInv(s, t);
  }

  lemma RegisterInv(s: State)
    requires Inv(s)
    ensures Inv(Step(s, Register))
  {
    var s' := Step(s, Register);
    forall t: nat | t < |s'.recs| ensures RecOk(s'.nodes, t, s'.recs[t]) && PendingOk(s'.nodes, t, s'.recs[t]) {
      if t < |s.recs| { assert RecOk(s.nodes, t, s.recs[t]) && PendingOk(s.nodes, t, s.recs[t]); }
    }
    forall r: nat, t: nat | r < |s'.recs| && t < |s'.recs| ensures Seen(s'.recs[r], t, s'.recs[t]) {
      if r < |s.recs| && t < |s.recs| { assert Seen(s.recs[r], t, s.recs[t]); }
    }
    forall e: nat | e < |s'.nodes| && s'.nodes[e].status.Retired?
      ensures s'.nodes[e].status.t < |s'.recs| && e in s'.recs[s'.nodes[e].status.t].pending
    {
      assert s.nodes[e].status.Retired?;
    }
  }

  lemma AllocInv(s: State, t: nat, e: nat)
    requires Inv(s) && t < |s.recs| && e < |s.nodes| && s.nodes[e].status.Free?
    ensures Inv(SetStatus(s, e, Owned(t)))
  {
    var nodes' := s.nodes[e := s.nodes[e].(status := Owned(t))];
    forall u: nat | u < |s.recs| ensures RecOk(nodes', u, s.recs[u]) {
      assert RecOk(s.nodes, u, s.recs[u]);
    }
    NodeChange(s, e, s.nodes[e].(status := Owned(t)));
  }

  lemma RetireListed(s: State, t: nat, e: nat)
    requires RetiredOk(s) && Ready(s, t) && e < |s.nodes| && s.nodes[e].status == Out(t)
    ensures RetiredOk(Step(s, Retire(t, e)))
  {
    var r, s' := s.recs[t], Step(s, Retire(t, e));
    forall x: nat | x < |s'.nodes| && s'.nodes[x].status.Retired?
      ensures s'.nodes[x].status.t < |s'.recs| && x in s'.recs[s'.nodes[x].status.t].pending
    {
      if x == e {
        assert s'.recs[t].pending[0] == e;
      } else {
        assert s.nodes[x].status.Retired?;
        if s.nodes[x].status.t == t {
          var i :| 0 <= i < |r.pending| && r.pending[i] == x;
          assert s'.recs[t].pending[i + 1] == x;
        }
      }
    }
  }

  lemma RetireRec(nodes: seq<Node>, t: nat, e: nat, u: nat, r: Rec)
    requires RecOk(nodes, u, r) && PendingOk(nodes, u, r) && e < |nodes| && nodes[e].status == Out(t)
    ensures var nodes' := nodes[e := nodes[e].(status := Retired(t))];
            && RecOk(nodes', u, r) && PendingOk(nodes', u, r)
            && (u == t && r.pc == Idle && r.used ==>
                  && RecOk(nodes', u, r.(pending := [e] + r.pending))
                  && PendingOk(nodes', u, r.(pending := [e] + r.pending)))
  {
  }

  lemma RetireInv(s: State, t: nat, e: nat)
    requires Inv(s) && Ready(s, t) && e < |s.nodes| && s.nodes[e].status == Out(t)
    ensures Inv(Step(s, Retire(t, e)))
  {
    var r := s.recs[t];
    var r', s' := r.(pending := [e] + r.pending), Step(s, Retire(t, e));
    assert s' == SetRec(SetStatus(s, e, Retired(t)), t, r');
    OffStack(s.head, s.nodes, s.st, e, s.nodes[e].(status := Retired(t)));
    forall u: nat | u < |s'.recs| ensures RecOk(s'.nodes, u, s'.recs[u]) && PendingOk(s'.nodes, u, s'.recs[u]) {
      assert RecOk(s.nodes, u, s.recs[u]) && PendingOk(s.nodes, u, s.recs[u]);
      RetireRec(s.nodes, t, e, u, s.recs[u]);
    }
    RetireListed(s, t, e);
    forall u: nat, q: nat | u < |s'.recs| && q < |s'.recs| ensures Seen(s'.recs[u], q, s'.recs[q]) {
      assert Seen(s.recs[u], q, s.recs[q]);
    }
  }

  lemma ReclaimInv(s: State, t: nat)
    requires Inv(s) && Ready(s, t)
    ensures Inv(Step(s, Reclaim(t)))
  {
    assert RecOk(s.nodes, t, s.recs[t]);
    ScanChange(s, t, s.recs[t].(pc := Scan(|s.recs|, [])));
  }

  lemma StepInv(s: State, ev: Event)
    requires Inv(s) && |s.recs| <= CACHE
    ensures Inv(Step(s, ev))
  {
    match ev
    case Register => RegisterInv(s);
    case Recycle(t) => if t < |s.recs| && !s.recs[t].used { QuietChange(s, t, s.recs[t].(used := true)); }
    case Unregister(t) =>
      if Ready(s, t) && s.recs[t].pending == [] { QuietChange(s, t, s.recs[t].(used := false)); }
    case Alloc(t, e) => if t < |s.recs| && e < |s.nodes| && s.nodes[e].status.Free? { AllocInv(s, t, e); }
    case Push(t, e) =>
      if Ready(s, t) && e < |s.nodes| && s.nodes[e].status == Owned(t) {
        QuietChange(s, t, s.recs[t].(pc := PushLink(e, s.head)));
      }
    case Pop(t) => if Ready(s, t) { QuietChange(s, t, s.recs[t].(pc := Load)); }
    case Clear(t) => if Ready(s, t) { QuietChange(s, t, s.recs[t].(hz := -1)); }
    case Retire(t, e) =>
      if Ready(s, t) && e < |s.nodes| && s.nodes[e].status == Out(t) { RetireInv(s, t, e); }
    case Reclaim(t) => if Ready(s, t) { ReclaimInv(s, t); }
    case Go(t) => if t < |s.recs| { AdvanceInv(s, t); }
  }

  /** Records are never given back. */
  lemma StepRecords(s: State, ev: Event)
    ensures |s.recs| <= |Step(s, ev).recs|
  {
  }

  lemma {:induction false} RunInv(n: nat, evs: seq<Event>)
    requires |Run(n, evs).recs| <= CACHE
    ensures Inv(Run(n, evs))
  {
    if evs != [] {
      var s := Run(n, evs[..|evs| - 1]);
      StepRecords(s, evs[|evs| - 1]);
      RunInv(n, evs[..|evs| - 1]);
      StepInv(s, evs[|evs| - 1]);
    }
  }

  // ---- What every run guarantees ---------------------------------------------------------------------------------

  /** In every interleaving of at most CACHE records, while a pop holds an entry whose next it may read or
      install, the entry has not been destroyed, let alone allocated again, and its next is the one that was
      read. */
  lemma NotDestroyedInUse(n: nat, evs: seq<Event>, t: nat)
    requires |Run(n, evs).recs| <= CACHE
    requires t < |Run(n, evs).recs| && Popping(Run(n, evs).recs[t])
    ensures var s := Run(n, evs);
            && Live(s.nodes, s.recs[t].pc.x)
            && (s.recs[t].pc.Cas? ==> s.nodes[s.recs[t].pc.x].next == s.recs[t].pc.n)
  {
    RunInv(n, evs);
    assert RecOk(Run(n, evs).nodes, t, Run(n, evs).recs[t]);
  }

  /** What a step does to the abstract stack. */
  datatype Effect = None | Pushed(e: nat) | Popped(e: nat)

  function EffectOf(s: State, ev: Event): Effect {
    if ev.Go? && ev.t < |s.recs| then
      match s.recs[ev.t].pc
      case PushCas(e, h) => if s.head == h then Pushed(e) else None
      case Cas(x, _) => if s.head == x then Popped(x) else None
      case _ => None
    else None
  }

  /** A LIFO stack. */
  function Apply(st: seq<nat>, eff: Effect): seq<nat> {
    match eff
    case None => st
    case Pushed(e) => [e] + st
    case Popped(_) => if st == [] then [] else st[1..]
  }

  lemma {:induction false} EffectOnStack(s: State, ev: Event)
    ensures EffectOf(s, ev) == None ==> Step(s, ev).st == s.st
  {
    match ev
    case Go(t) => if t < |s.recs| && EffectOf(s, ev) == None { AdvanceStack(s, t); }
    case _ =>
  }

  lemma AdvanceStack(s: State, t: nat)
    requires t < |s.recs| && EffectOf(s, Go(t)) == None
    ensures Advance(s, t).st == s.st
  {
  }

  lemma PushEffect(s: State, t: nat)
    requires Inv(s) && t < |s.recs| && EffectOf(s, Go(t)).Pushed?
    ensures var e := EffectOf(s, Go(t)).e; Advance(s, t).st == [e] + s.st && e !in s.st
  {
    assert RecOk(s.nodes, t, s.recs[t]);
    NotStacked(s, s.recs[t].pc.e);
  }

  lemma PopEffect(s: State, t: nat)
    requires Inv(s) && t < |s.recs| && EffectOf(s, Go(t)).Popped?
    ensures var e, s' := EffectOf(s, Go(t)).e, Advance(s, t);
            && |s.st| > 0 && s.st[0] == e < |s'.nodes| && s'.st == s.st[1..] && s'.nodes[e].status == Out(t)
  {
    assert RecOk(s.nodes, t, s.recs[t]);
    assert LinkAt(s.nodes, s.st, 0);
  }

  /** Every step of every run acts on the concrete list as on a LIFO stack: a successful pop removes the
      top and leaves its true successor on top, a successful push adds an entry that was not there. */
  lemma Refines(n: nat, evs: seq<Event>, ev: Event)
    requires |Run(n, evs + [ev]).recs| <= CACHE
    ensures var s, s' := Run(n, evs), Run(n, evs + [ev]);
            var eff := EffectOf(s, ev);
            && s'.st == Apply(s.st, eff) && StackOk(s'.head, s'.nodes, s'.st)
            && (eff.Pushed? ==> eff.e !in s.st)
            && (eff.Popped? ==> |s.st| > 0 && s.st[0] == eff.e < |s'.nodes| && s'.nodes[eff.e].status == Out(ev.t))
  {
    var s := Run(n, evs);
    assert (evs + [ev])[..|evs|] == evs;
    assert Run(n, evs + [ev]) == Step(s, ev);
    StepRecords(s, ev);
    RunInv(n, evs);
    RunInv(n, evs + [ev]);
    EffectOnStack(s, ev);
    if EffectOf(s, ev).Pushed? { PushEffect(s, ev.t); }
    if EffectOf(s, ev).Popped? { PopEffect(s, ev.t); }
  }

  lemma NotStacked(s: State, e: nat)
    requires Inv(s) && e < |s.nodes| && !s.nodes[e].status.Stacked?
    ensures e !in s.st
  {
    forall i: nat | i < |s.st| ensures s.st[i] != e {
      assert LinkAt(s.nodes, s.st, i);
    }
  }

  /** A pop that gives up does so at a moment when the stack is empty. */
  lemma EmptyWhenGivenUp(n: nat, evs: seq<Event>, t: nat)
    requires t < |Run(n, evs).recs| <= CACHE
    requires var s := Run(n, evs);
             && (s.recs[t].pc.Load? || s.recs[t].pc.Check? || s.recs[t].pc.Cas?)
             && Advance(s, t).recs[t].pc == Idle && EffectOf(s, Go(t)) == None
    ensures Run(n, evs).st == []
  {
    RunInv(n, evs);
    var s := Run(n, evs);
    assert RecOk(s.nodes, t, s.recs[t]);
  }

  /** Entries are conserved: each is free, owned, popped, on the stack, or on one pending list, and
      appears there exactly once. */
  lemma OnePlace(n: nat, evs: seq<Event>, e: nat)
    requires e < |Run(n, evs).nodes| && |Run(n, evs).recs| <= CACHE
    ensures var s := Run(n, evs);
            && (s.nodes[e].status.Stacked? <==> e in s.st)
            && (forall t: nat :: t < |s.recs| ==> (s.nodes[e].status == Retired(t) <==> e in s.recs[t].pending))
            && (forall i, j :: 0 <= i < j < |s.st| ==> s.st[i] != s.st[j])
            && (forall t: nat, i, j :: t < |s.recs| && 0 <= i < j < |s.recs[t].pending| ==>
                  s.recs[t].pending[i] != s.recs[t].pending[j])
  {
    RunInv(n, evs);
    var s := Run(n, evs);
    if !s.nodes[e].status.Stacked? { NotStacked(s, e); }
    forall t: nat | t < |s.recs| ensures PendingOk(s.nodes, t, s.recs[t]) {}
  }
}
