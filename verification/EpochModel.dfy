/**
 Epoch-based reclamation as a sequentially consistent step machine.

 Every record is driven by one thread. A step of a record performs exactly one access to
 memory that other threads read or write (the global epoch, or the `state`, `active` and
 `epoch` fields of a record); work on fields only the owner touches is folded into the
 neighbouring step. A schedule is a sequence of events, and an event whose caller
 obligations do not hold leaves the state alone, so "for every schedule" means "for every
 interleaving of every number of records".

 Epoch counters are unbounded here.
 */
module EpochModel {

  const GRACE: nat := 3 // epochs after which a snapshot cannot be in use
  const LENGTH: nat := 4 // deferral lists per record
  const PASSES: nat := GRACE - 1 // scan passes made by synchronize

  /** One of the two reference buckets of a record. */
  datatype Ref = Ref(epoch: nat, count: nat)

  /** The identity of one begin/end pair: no two sections of a record share a serial. */
  datatype Section = Section(record: nat, serial: nat)

  datatype Bucket = Plain | In(i: nat)

  /** What an open section holds: its bucket, and the epoch it was opened at. */
  datatype Open = Open(bucket: Bucket, epoch: nat)

  /** A deferred callback. `waiters` and `calledAt` record the sections open when it was
      deferred and the position of that event in the schedule. `within` records the dispatches
      that had a callback in progress then, each with the first list it had still to take. */
  datatype Entry = Entry(id: nat, epoch: nat, waiters: set<Section>, calledAt: nat,
                         within: map<nat, nat>)

  /** How poll or synchronize left its loop. */
  datatype Exit =
    | Busy                                   // poll: some active record is at another epoch
    | Quiet                                  // poll: every record was seen inactive
    | PollTick                               // poll: the epoch was, or had been, advanced
    | SyncQuiet(iter: nat, resumed: bool)    // synchronize: the `active == false` break
    | SyncGoal                               // synchronize: the goal epoch was observed
    | SyncStale                              // synchronize: last pass saw the epoch move
    | SyncGrace                              // synchronize: last pass ended in a tick

  /** A run of poll or synchronize. `targets` are the sections open when it read the global
      epoch, at position `startedAt` of the schedule. */
  datatype Job = Job(poll: bool, reclaim: bool, start: nat, iter: nat, resumed: bool,
                     targets: set<Section>, startedAt: nat)

  /** The dispatch of lists `next` to `end - 1`, after the list whose remaining entries are
      `queue` and of which `ran` have run. `since` is the position in the schedule of the call
      of poll or synchronize that led to it, and so names the dispatch. */
  datatype Dispatch = Dispatch(since: nat, exit: Exit, next: nat, end: nat, queue: seq<Entry>,
                               ran: nat)

  datatype Load = LoadState | LoadActive | LoadEpoch

  datatype PC =
    | Idle
    | BeginLoad(section: bool)
    | BeginStore(section: bool, snap: nat)
    | AddRef
    | DelRef(i: nat)
    | UnregisterState
    | Head(job: Job, e: nat)
    | Look(job: Job, e: nat, cur: nat, af: bool, load: Load)
    | Recheck(job: Job, e: nat, cur: nat)
    | Tick(job: Job, e: nat)
    | Publish(job: Job, value: nat, next: nat, end: nat, exit: Exit)
    | Drain(d: Dispatch)

  /** A record, with its owner's program counter and open sections. `calls` counts the
      callbacks deferred since the record was registered. `frames` are the dispatches with a
      callback in progress, outermost first: the callback is the head of the dispatch's queue,
      and `pc` is where the innermost callback, or else the owner's own code, has got to. */
  datatype Rec = Rec(used: bool, active: nat, epoch: nat, bucket: seq<Ref>,
                     pending: seq<seq<Entry>>, nPending: nat, nDispatch: nat, calls: nat,
                     serials: nat, open: map<nat, Open>, frames: seq<Dispatch>, pc: PC)

  /** The stack of records only grows at its head: index 0 is the oldest record and the
      successor of index i is i - 1. */
  datatype State = State(g: nat, recs: seq<Rec>)

  datatype Op =
    | Begin(section: bool)
    | End(serial: nat)
    | Call(id: nat)
    | Poll
    | Synchronize(reclaim: bool)
    | Unregister
    | Return // of the innermost callback

  datatype Event =
    | Register
    | Recycle(r: nat)
    | Do(r: nat, op: Op) // start `op` if the record is idle, otherwise continue

  const FRESH_REC: Rec :=
    Rec(true, 0, 0, [Ref(0, 0), Ref(0, 0)], [[], [], [], []], 0, 0, 0, 0, map[], [], Idle)

  const INIT: State := State(1, [])

  ghost predicate IsOpen(s: State, w: Section) {
    w.record < |s.recs| && w.serial in s.recs[w.record].open
  }

  function AllOpen(s: State): (ws: set<Section>)
    ensures forall w :: w in ws <==> IsOpen(s, w)
  {
    set r, k | 0 <= r < |s.recs| && k in s.recs[r].open :: Section(r, k)
  }

  function OpenSection(r: Rec, b: Bucket, e: nat): Rec {
    r.(serials := r.serials + 1, open := r.open[r.serials := Open(b, e)], pc := Idle)
  }

  predicate HasPlain(r: Rec) { exists k :: k in r.open && r.open[k].bucket.Plain? }

  predicate HasRef(r: Rec) { exists k :: k in r.open && r.open[k].bucket.In? }

  /** Caller obligations: sections nested in one another either all pass a section object or
      none does; poll and synchronize are not called inside a section; a record is given up
      only outside a callback, with no section open and nothing pending. A callback is under no
      other restriction. */
  predicate MayStart(r: Rec, op: Op) {
    match op
    case Begin(section) => if section then !HasPlain(r) else !HasRef(r)
    case End(k) => k in r.open && r.active > 0
    case Call(_) => |r.pending| == LENGTH
    case Poll => r.active == 0
    case Synchronize(_) => r.active == 0
    case Unregister => r.active == 0 && r.frames == [] && r.pending == [[], [], [], []]
    case Return => r.frames != []
  }

  /** The first shared access of begin, end and unregister. */
  function QuietStart(x: Rec, op: Op): Rec
    requires MayStart(x, op) && (op.Begin? || op.End? || op.Unregister?)
  {
    match op
    case Begin(section) =>
      if x.active == 0 then x.(active := 1, pc := BeginLoad(section))
      else if section then x.(active := x.active + 1, pc := AddRef)
      else OpenSection(x.(active := x.active + 1), Plain, x.epoch)
    case End(k) => Ended(x, k)
    case Unregister =>
      x.(epoch := 0, bucket := [Ref(0, 0), Ref(0, 0)], nPending := 0, nDispatch := 0, calls := 0,
         pc := UnregisterState)
  }

  function Ended(x: Rec, k: nat): Rec
    requires k in x.open && x.active > 0
  {
    x.(active := x.active - 1, open := x.open - {k},
       pc := match x.open[k].bucket case Plain => Idle case In(i) => DelRef(i))
  }

  /** The remaining accesses of begin, end and unregister; `g` is the global epoch. */
  function QuietNext(x: Rec, g: nat): Rec {
    match x.pc
    case BeginLoad(section) => x.(pc := BeginStore(section, g))
    case BeginStore(section, snap) =>
      var y := x.(epoch := snap);
      if section then y.(pc := AddRef) else OpenSection(y, Plain, snap)
    case AddRef => Referenced(x, g)
    case DelRef(i) => Release(x, i)
    case UnregisterState => x.(used := false, pc := Idle)
    case _ => x
  }

  /** Deferring a callback to the list of the current epoch. */
  function Deferred(x: Rec, entry: Entry): Rec
    requires |x.pending| == LENGTH
  {
    var slot := entry.epoch % LENGTH;
    x.(nPending := x.nPending + 1, calls := x.calls + 1,
       pending := x.pending[slot := [entry] + x.pending[slot]])
  }

  /** The dispatches in progress, and the list each is to take next. */
  function Within(frames: seq<Dispatch>): map<nat, nat> {
    if frames == [] then map[]
    else var f := frames[|frames| - 1]; Within(frames[..|frames| - 1])[f.since := f.next]
  }

  /** The entry that record r defers at position `now` of the schedule. */
  function Deferral(s: State, r: nat, id: nat, now: nat): Entry
    requires r < |s.recs|
  {
    Entry(id, s.g, AllOpen(s), now, Within(s.recs[r].frames))
  }

  /** The innermost callback returns to the loop that called it. */
  function Returned(x: Rec): Rec
    requires x.frames != []
  {
    var d := x.frames[|x.frames| - 1];
    x.(frames := x.frames[..|x.frames| - 1],
       pc := Drain(d.(queue := if d.queue == [] then [] else d.queue[1..], ran := d.ran + 1)))
  }

  /** The first shared access of an operation, at position `now` of the schedule. */
  function Start(s: State, r: nat, op: Op, now: nat): State
    requires r < |s.recs| && MayStart(s.recs[r], op)
  {
    var x := s.recs[r];
    Upd(s, r,
      match op
      case Call(id) => Deferred(x, Deferral(s, r, id, now))
      case Poll => x.(pc := Head(NewJob(s, true, false, now), s.g))
      case Synchronize(reclaim) => x.(pc := Head(NewJob(s, false, reclaim, now), s.g))
      case Return => Returned(x)
      case _ => QuietStart(x, op))
  }

  function NewJob(s: State, poll: bool, reclaim: bool, now: nat): Job {
    Job(poll, reclaim, s.g, 0, false, AllOpen(s), now)
  }

  /** How many lists, from list 0 on, are dispatched when synchronize is called from the
      barrier. */
  function ReclaimEnd(job: Job): nat { if job.reclaim then LENGTH else 0 }

  /** The scan reached the end of the record list. */
  function ScanEnd(job: Job, e: nat, af: bool): PC {
    if af then Tick(job, e)
    else if job.poll then Publish(job, e, 0, LENGTH, Quiet)
    else Publish(job, e, 0, ReclaimEnd(job), SyncQuiet(job.iter, job.resumed))
  }

  /** The scan moves past record `cur`. */
  function Advance(job: Job, e: nat, cur: nat, af: bool): PC {
    if cur == 0 then ScanEnd(job, e, af) else Look(job, e, cur - 1, af, LoadState)
  }

  /** The scan stops at an active record whose epoch differs. */
  function ScanStop(job: Job, e: nat, cur: nat): PC {
    if job.poll then Publish(job, e, 0, 0, Busy) else Recheck(job, e, cur)
  }

  /** The end of one pass of synchronize. */
  function NextPass(job: Job, delta: nat, exit: Exit): PC {
    if job.iter + 1 < PASSES then Head(job.(iter := job.iter + 1, resumed := false), delta)
    else Publish(job, delta, 0, ReclaimEnd(job), exit)
  }

  /** Visiting one record: its state, then its active count, then its epoch. */
  function LookNext(s: State, pc: PC): PC
    requires pc.Look? && pc.cur < |s.recs|
  {
    var Look(job, e, cur, af, load) := pc;
    var c := s.recs[cur];
    match load
    case LoadState =>
      if !c.used then Advance(job, e, cur, af) else Look(job, e, cur, af, LoadActive)
    case LoadActive =>
      if c.active == 0 then Advance(job, e, cur, af) else Look(job, e, cur, true, LoadEpoch)
    case LoadEpoch =>
      if c.epoch != e then ScanStop(job, e, cur) else Advance(job, e, cur, af)
  }

  /** The global epoch after a compare-and-swap from `e` to its successor. */
  function Ticked(g: nat, e: nat): nat { if g == e then e + 1 else g }

  /** The one list that poll dispatches after a compare-and-swap from `e`. */
  function TickList(e: nat): nat { (e + 1) % LENGTH }

  /** What follows the compare-and-swap that left the global epoch at `g`. */
  function TickNext(g: nat, pc: PC): PC
    requires pc.Tick?
  {
    if pc.job.poll then Publish(pc.job, g, TickList(pc.e), TickList(pc.e) + 1, PollTick)
    else NextPass(pc.job, g, SyncGrace)
  }

  /** A failed scan of synchronize re-reads the global epoch `g`. */
  function RecheckNext(g: nat, pc: PC): PC
    requires pc.Recheck?
  {
    var Recheck(job, e, cur) := pc;
    if g == e then Look(job.(resumed := true), e, cur, false, LoadState)
    else if g >= job.start + GRACE then Publish(job, g, 0, ReclaimEnd(job), SyncGoal)
    else NextPass(job, g, SyncStale)
  }

  /** One step of a record that is in the middle of an operation. */
  function Continue(s: State, r: nat): State
    requires r < |s.recs|
  {
    var x := s.recs[r];
    match x.pc
    case Head(job, e) => Upd(s, r, x.(pc := Look(job, e, |s.recs| - 1, false, LoadState)))
    case Look(_, _, cur, _, _) =>
      if cur < |s.recs| then Upd(s, r, x.(pc := LookNext(s, x.pc))) else s
    case Recheck(_, _, _) => Upd(s, r, x.(pc := RecheckNext(s.g, x.pc)))
    case Tick(_, e) =>
      var g' := Ticked(s.g, e);
      Upd(s.(g := g'), r, x.(pc := TickNext(g', x.pc)))
    case Publish(_, _, _, _, _) => Upd(s, r, Published(x))
    case Drain(_) => Upd(s, r, DrainStep(x))
    case _ => Upd(s, r, QuietNext(x, s.g))
  }

  function Upd(s: State, r: nat, x: Rec): State
    requires r < |s.recs|
  {
    s.(recs := s.recs[r := x])
  }

  /** Taking a reference in the bucket of the current epoch; a bucket not in use caches it. */
  function Referenced(x: Rec, g: nat): Rec {
    if |x.bucket| == 2 then
      var prev := x.bucket[g % 2];
      var ref := Ref(if prev.count == 0 then g else prev.epoch, prev.count + 1);
      OpenSection(x.(bucket := x.bucket[g % 2 := ref]), In(g % 2), ref.epoch)
    else x
  }

  /** Dropping a reference: the last section of the older bucket moves the record's snapshot
      to the newer one. */
  function Release(x: Rec, i: nat): Rec {
    if |x.bucket| == 2 && i < 2 && x.bucket[i].count > 0 then
      var cur := x.bucket[i].(count := x.bucket[i].count - 1);
      var other := x.bucket[(i + 1) % 2];
      x.(bucket := x.bucket[i := cur], pc := Idle,
         epoch := if cur.count == 0 && other.count > 0 && cur.epoch < other.epoch
                  then other.epoch else x.epoch)
    else x
  }

  /** The snapshot of the record itself is brought up to date before lists are dispatched. */
  function Published(x: Rec): Rec
    requires x.pc.Publish?
  {
    var Publish(job, value, next, end, exit) := x.pc;
    x.(epoch := value,
       pc := if next == end then Idle else Drain(Dispatch(job.startedAt, exit, next, end, [], 0)))
  }

  /** Call the next callback of the list being dispatched, or account for the finished list and
      take the next one. */
  function DrainStep(x: Rec): Rec
    requires x.pc.Drain?
  {
    var d := x.pc.d;
    if d.queue != [] then x.(frames := x.frames + [d], pc := Idle)
    else
      var y := x.(nPending := if d.ran <= x.nPending then x.nPending - d.ran else 0,
                  nDispatch := x.nDispatch + d.ran);
      if d.next < d.end && d.next < |x.pending| then
        y.(pending := x.pending[d.next := []],
           pc := Drain(d.(next := d.next + 1, queue := x.pending[d.next], ran := 0)))
      else y.(pc := Idle)
  }

  function Step(s: State, ev: Event, now: nat): State {
    match ev
    case Register => s.(recs := s.recs + [FRESH_REC])
    case Recycle(r) =>
      if r < |s.recs| && !s.recs[r].used then Upd(s, r, s.recs[r].(used := true)) else s
    case Do(r, op) =>
      if r >= |s.recs| || !s.recs[r].used then s
      else if !s.recs[r].pc.Idle? then Continue(s, r)
      else if MayStart(s.recs[r], op) then Start(s, r, op, now)
      else s
  }

  /** The state reached from the initial state by a schedule. */
  function Run(evs: seq<Event>): State {
    if evs == [] then INIT else Step(Run(evs[..|evs| - 1]), evs[|evs| - 1], |evs| - 1)
  }
}
