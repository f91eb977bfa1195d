/** The inductive invariant of the epoch machine and its preservation by every step. */
module EpochInvariant {
  import opened EpochModel

  // ---- One record -------------------------------------------------------------------

  /** The record is active and has loaded the global epoch. */
  ghost predicate Loaded(r: Rec) { r.active > 0 && !r.pc.BeginLoad? }

  /** The snapshot the record holds or is about to store. */
  ghost function Snap(r: Rec): nat { if r.pc.BeginStore? then r.pc.snap else r.epoch }

  ghost predicate Opening(r: Rec) { r.pc.BeginLoad? || r.pc.BeginStore? || r.pc.AddRef? }

  /** Poll or synchronize is under way. */
  ghost predicate Scanning(r: Rec) {
    r.pc.Head? || r.pc.Look? || r.pc.Recheck? || r.pc.Tick? || r.pc.Publish?
  }

  ghost predicate Working(r: Rec) { Scanning(r) || r.pc.Drain? }

  ghost function Refs(open: map<nat, Open>, i: nat): set<nat> {
    set k | k in open && open[k].bucket == In(i)
  }

  ghost predicate Shape(r: Rec) {
    && |r.pending| == LENGTH && |r.bucket| == 2
    && (forall k :: k in r.open ==> k < r.serials)
    && r.active == |r.open| + (if Opening(r) then 1 else 0)
    && (Scanning(r) || r.pc.UnregisterState? ==> r.active == 0)
    && (r.pc.BeginLoad? || r.pc.BeginStore? ==> r.active == 1)
    && (r.pc.DelRef? ==> r.pc.i < 2 && !HasPlain(r))
    && (!r.used ==> r.pc.Idle? && r.active == 0)
    && (!r.used || r.pc.UnregisterState? ==> r.frames == [])
  }

  /** Snapshots of active records trail the global epoch by at most one. */
  ghost predicate Window(r: Rec, g: nat) {
    && r.epoch <= Snap(r) <= g
    && (Loaded(r) ==> g <= Snap(r) + 1)
  }

  /** Bucket i counts its open sections exactly; in use, it holds one epoch of parity i that
      is the record's snapshot or its successor. */
  ghost predicate BucketOk(r: Rec, i: nat)
    requires |r.bucket| == 2 && i < 2
  {
    && r.bucket[i].count == |Refs(r.open, i)| + (if r.pc == DelRef(i) then 1 else 0)
    && (r.bucket[i].count > 0 ==>
          r.bucket[i].epoch % 2 == i && r.epoch <= r.bucket[i].epoch <= r.epoch + 1)
  }

  /** Open sections are never older than the snapshot, and agree with their bucket. */
  ghost predicate SectionsOk(r: Rec, g: nat)
    requires |r.bucket| == 2
  {
    && (forall k :: k in r.open ==> r.epoch <= r.open[k].epoch <= g)
    && (forall k :: k in r.open && r.open[k].bucket.In? ==>
          r.open[k].bucket.i < 2 && r.open[k].epoch == r.bucket[r.open[k].bucket.i].epoch)
    && (HasPlain(r) ==> !HasRef(r))
    && (r.pc.AddRef? ==> !HasPlain(r))
  }

  ghost predicate Buckets(r: Rec, g: nat)
    requires |r.bucket| == 2
  {
    BucketOk(r, 0) && BucketOk(r, 1) && SectionsOk(r, g)
  }

  function Total(p: seq<seq<Entry>>): nat
    requires |p| == LENGTH
  {
    |p[0]| + |p[1]| + |p[2]| + |p[3]|
  }

  /** Entries taken off their list by dispatches that have not accounted for them. */
  function Taken(frames: seq<Dispatch>): nat {
    if frames == [] then 0
    else
      var f := frames[|frames| - 1];
      Taken(frames[..|frames| - 1]) + |f.queue| + f.ran
  }

  /** n_pending counts exactly the deferred entries that have not been accounted as run, and
      every deferred entry is pending or dispatched. */
  ghost predicate Counters(r: Rec)
    requires |r.pending| == LENGTH
  {
    && r.nPending == Total(r.pending) + Taken(r.frames) +
                     (if r.pc.Drain? then |r.pc.d.queue| + r.pc.d.ran else 0)
    && r.nPending + r.nDispatch == r.calls
  }

  ghost predicate RecInv(r: Rec, g: nat) {
    Shape(r) && Window(r, g) && Buckets(r, g) && Counters(r)
  }

  // ---- Sections and entries ---------------------------------------------------------

  ghost predicate Known(s: State, w: Section) {
    w.record < |s.recs| && w.serial < s.recs[w.record].serials
  }

  ghost function OpenOf(s: State, w: Section): Open
    requires IsOpen(s, w)
  {
    s.recs[w.record].open[w.serial]
  }

  /** Sections of `ws` still open were opened at epoch `e` or before. */
  ghost predicate OpenedBy(s: State, ws: set<Section>, e: nat) {
    forall w :: w in ws ==> Known(s, w) && (IsOpen(s, w) ==> OpenOf(s, w).epoch <= e)
  }

  ghost predicate AllClosed(s: State, ws: set<Section>) {
    forall w :: w in ws ==> Known(s, w) && !IsOpen(s, w)
  }

  /** Open sections of `ws` belong to records before `lo`. */
  ghost predicate OpenBelow(s: State, ws: set<Section>, lo: nat) {
    forall w :: w in ws ==> Known(s, w) && (IsOpen(s, w) ==> w.record < lo)
  }

  ghost predicate EntryInv(s: State, en: Entry, slot: nat) {
    en.epoch <= s.g && en.epoch % LENGTH == slot && OpenedBy(s, en.waiters, en.epoch)
  }

  ghost predicate ListInv(s: State, r: Rec)
    requires |r.pending| == LENGTH
  {
    forall slot, k :: 0 <= slot < LENGTH && 0 <= k < |r.pending[slot]| ==>
      EntryInv(s, r.pending[slot][k], slot)
  }

  ghost predicate QueueSafe(s: State, q: seq<Entry>) {
    forall k :: 0 <= k < |q| ==> AllClosed(s, q[k].waiters)
  }

  /** Lists `lo` to `hi - 1` are safe to run. */
  ghost predicate ListsSafe(s: State, r: Rec, lo: nat, hi: nat)
    requires |r.pending| == LENGTH
  {
    forall m :: lo <= m < hi && m < LENGTH ==> QueueSafe(s, r.pending[m])
  }

  // ---- Dispatches -------------------------------------------------------------------

  /** The entries not deferred by a callback of the dispatch `since` are safe to run. */
  ghost predicate EarlySafe(s: State, since: nat, q: seq<Entry>) {
    forall k :: 0 <= k < |q| && since !in q[k].within ==> AllClosed(s, q[k].waiters)
  }

  /** The entries being run come from the list before `next`. */
  ghost predicate FromList(q: seq<Entry>, next: nat) {
    forall k :: 0 <= k < |q| ==> q[k].epoch % LENGTH + 1 == next
  }

  /** Poll after a tick dispatches one list; every other dispatch goes on to the last. */
  ghost predicate DispatchShape(d: Dispatch) {
    && d.next <= d.end <= LENGTH && FromList(d.queue, d.next)
    && (if d.exit.PollTick? then d.end <= d.next + 1 && (d.next < d.end ==> d.queue == [])
        else d.end == LENGTH)
  }

  ghost predicate DispatchInv(s: State, r: Rec, d: Dispatch)
    requires |r.pending| == LENGTH
  {
    && DispatchShape(d)
    && (!Unjustified(d.exit) ==>
          && EarlySafe(s, d.since, d.queue)
          && forall m :: d.next <= m < d.end ==> EarlySafe(s, d.since, r.pending[m]))
  }

  ghost predicate FramesInv(s: State, r: Rec)
    requires |r.pending| == LENGTH
  {
    forall k :: 0 <= k < |r.frames| ==>
      r.frames[k].queue != [] && DispatchInv(s, r, r.frames[k])
  }

  // ---- Running jobs -----------------------------------------------------------------

  /** As long as the global epoch is `e`, every record from `lo` on that holds a snapshot
      holds `e`. */
  ghost predicate Visited(s: State, e: nat, lo: nat) {
    s.g == e ==> forall j :: lo <= j < |s.recs| && Loaded(s.recs[j]) ==> Snap(s.recs[j]) == e
  }

  ghost predicate JobBase(s: State, r: Rec, job: Job, e: nat)
    requires |r.pending| == LENGTH
  {
    && job.start <= e <= s.g
    && job.iter < PASSES
    && (job.poll ==> job.iter == 0 && !job.resumed && e == job.start)
    && (job.iter > 0 ==> job.start < e)
    && OpenedBy(s, job.targets, job.start)
    && ListTargets(s, r, job)
  }

  /** Deferred entries of the record precede the job, and wait only for its targets. */
  ghost predicate ListTargets(s: State, r: Rec, job: Job)
    requires |r.pending| == LENGTH
  {
    forall slot, k :: 0 <= slot < LENGTH && 0 <= k < |r.pending[slot]| ==>
      && r.pending[slot][k].epoch <= job.start
      && forall w :: w in r.pending[slot][k].waiters && IsOpen(s, w) ==> w in job.targets
  }

  /** A pass whose end shows the targets closed: a later pass, or a first pass that has not
      been resumed and has seen nobody active. */
  ghost predicate Decisive(job: Job, af: bool) { job.iter > 0 || (!job.resumed && !af) }

  /** The `active == false` break of a first pass whose last scan was a resumed one. */
  predicate Unjustified(exit: Exit) { exit == SyncQuiet(0, true) }

  ghost predicate JobInv(s: State, r: Rec)
    requires |r.pending| == LENGTH
  {
    match r.pc
    case Head(job, e) => JobBase(s, r, job, e)
    case Look(job, e, cur, af, load) =>
      && JobBase(s, r, job, e) && cur < |s.recs|
      && Visited(s, e, cur + 1)
      && (load.LoadEpoch? ==> af)
      && (Decisive(job, af) ==> OpenBelow(s, job.targets, cur + 1))
    case Recheck(job, e, cur) =>
      && JobBase(s, r, job, e) && cur < |s.recs| && !job.poll
      && Visited(s, e, cur + 1)
      && (job.iter > 0 ==> OpenBelow(s, job.targets, cur + 1))
    case Tick(job, e) =>
      && JobBase(s, r, job, e)
      && Visited(s, e, 0)
      && (job.iter > 0 ==> AllClosed(s, job.targets))
    case Publish(job, value, next, end, exit) =>
      && value <= s.g
      && next <= end <= LENGTH
      && (if exit.PollTick? then end == next + 1 && next == TickList(job.start)
          else next == 0 && (end == 0 || end == LENGTH))
      && (exit.Quiet? ==> end == LENGTH)
      && (!job.poll && !Unjustified(exit) ==> AllClosed(s, job.targets))
      && (!Unjustified(exit) ==> ListsSafe(s, r, next, end))
    case Drain(d) => DispatchInv(s, r, d)
    case _ => true
  }

  ghost predicate Inv(s: State) {
    forall j :: 0 <= j < |s.recs| ==> RecInv(s.recs[j], s.g) && WorkInv(s, s.recs[j])
  }

  /** The deferral lists, the dispatches and the job of a record. */
  ghost predicate WorkInv(s: State, r: Rec)
    requires |r.pending| == LENGTH
  {
    ListInv(s, r) && FramesInv(s, r) && JobInv(s, r)
  }

  // ---- What a step leaves alone -----------------------------------------------------

  /** No section is reopened, known sections keep their data, and passed scans stay passed. */
  ghost predicate Later(s: State, s': State) {
    && |s.recs| <= |s'.recs| && s.g <= s'.g
    && (forall w :: Known(s, w) ==>
          Known(s', w) && (IsOpen(s', w) ==> IsOpen(s, w) && OpenOf(s', w) == OpenOf(s, w)))
    && (forall e: nat, lo: nat :: e <= s.g && Visited(s, e, lo) ==> Visited(s', e, lo))
  }

  /** What every step must establish. */
  ghost predicate Good(s: State, s': State) { Inv(s') && Later(s, s') }

  lemma LaterKeepsDispatch(s: State, s': State, r: Rec, d: Dispatch)
    requires |r.pending| == LENGTH
    requires Later(s, s') && DispatchInv(s, r, d)
    ensures DispatchInv(s', r, d)
  {
  }

  lemma LaterKeepsJob(s: State, s': State, r: Rec)
    requires |r.pending| == LENGTH
    requires Later(s, s') && ListInv(s, r) && JobInv(s, r)
    ensures JobInv(s', r)
  {
    if r.pc.Drain? { LaterKeepsDispatch(s, s', r, r.pc.d); }
  }

  lemma LaterKeepsRecord(s: State, s': State, r: Rec)
    requires |r.pending| == LENGTH
    requires Later(s, s') && WorkInv(s, r)
    ensures WorkInv(s', r)
  {
    LaterKeepsJob(s, s', r);
    forall slot, k | 0 <= slot < LENGTH && 0 <= k < |r.pending[slot]|
      ensures EntryInv(s', r.pending[slot][k], slot)
    {
      assert EntryInv(s, r.pending[slot][k], slot);
    }
    forall k | 0 <= k < |r.frames| ensures DispatchInv(s', r, r.frames[k]) {
      LaterKeepsDispatch(s, s', r, r.frames[k]);
    }
  }

  /** How the owner may change its record while the global epoch is `g`. */
  ghost predicate Evolves(x: Rec, y: Rec, g: nat) {
    && x.serials <= y.serials
    && (forall k :: k in y.open && k < x.serials ==> k in x.open && y.open[k] == x.open[k])
    && (Loaded(y) ==> Snap(y) == g || (Loaded(x) && Snap(x) <= Snap(y) <= g))
  }

  lemma EvolvesIsLater(s: State, r: nat, y: Rec)
    requires r < |s.recs| && Evolves(s.recs[r], y, s.g)
    ensures Later(s, Upd(s, r, y))
  {
    var s' := Upd(s, r, y);
    forall e: nat, lo: nat | e <= s.g && Visited(s, e, lo) ensures Visited(s', e, lo) {
    }
  }

  /** A step that changes one record only: the other records keep their part. */
  lemma LocalStep(s: State, r: nat, y: Rec)
    requires Inv(s) && r < |s.recs| && Evolves(s.recs[r], y, s.g)
    requires RecInv(y, s.g)
    requires WorkInv(Upd(s, r, y), y)
    ensures Good(s, Upd(s, r, y))
  {
    var s' := Upd(s, r, y);
    EvolvesIsLater(s, r, y);
    forall j | 0 <= j < |s'.recs|
      ensures RecInv(s'.recs[j], s'.g) && WorkInv(s', s'.recs[j])
    {
      if j != r { LaterKeepsRecord(s, s', s.recs[j]); }
    }
  }

  /** As above for a step that leaves the deferral lists and runs no job. */
  lemma QuietStep(s: State, r: nat, y: Rec)
    requires Inv(s) && r < |s.recs| && QuietMove(s.recs[r], y, s.g)
    ensures Good(s, Upd(s, r, y))
  {
    EvolvesIsLater(s, r, y);
    var x := s.recs[r].(pc := Idle);
    assert WorkInv(s, x);
    LaterKeepsRecord(s, Upd(s, r, y), x);
    LocalStep(s, r, y);
  }

  // ---- Sections ---------------------------------------------------------------------

  lemma RefsAdd(open: map<nat, Open>, k: nat, o: Open, i: nat)
    requires k !in open
    ensures |open[k := o]| == |open| + 1
    ensures |Refs(open[k := o], i)| == |Refs(open, i)| + (if o.bucket == In(i) then 1 else 0)
  {
    assert open[k := o].Keys == open.Keys + {k};
    RefsMore(open, k, o, i);
  }

  lemma RefsMore(open: map<nat, Open>, k: nat, o: Open, i: nat)
    requires k !in open
    ensures k !in Refs(open, i)
    ensures Refs(open[k := o], i) == if o.bucket == In(i) then Refs(open, i) + {k} else Refs(open, i)
  {
  }

  lemma RefsRemove(open: map<nat, Open>, k: nat, i: nat)
    requires k in open
    ensures |open - {k}| == |open| - 1
    ensures |Refs(open, i)| == |Refs(open - {k}, i)| + (if open[k].bucket == In(i) then 1 else 0)
  {
    var after := open - {k};
    assert after.Keys == open.Keys - {k};
    if open[k].bucket == In(i) {
      assert Refs(open, i) == Refs(after, i) + {k};
    } else {
      assert Refs(after, i) == Refs(open, i);
    }
  }

  lemma NoRefs(open: map<nat, Open>, i: nat)
    ensures |Refs(open, i)| == 0 <==> forall k :: k in open ==> open[k].bucket != In(i)
  {
    if k :| k in open && open[k].bucket == In(i) {
      assert k in Refs(open, i);
    } else {
      assert Refs(open, i) == {};
    }
  }

  /** A record that has no open section. */
  lemma Closed(x: Rec, g: nat)
    requires RecInv(x, g) && |x.open| == 0
    ensures x.open == map[] && !HasPlain(x) && !HasRef(x)
    ensures forall i :: 0 <= i < 2 && x.pc != DelRef(i) ==> x.bucket[i].count == 0
    ensures |Refs(x.open, 0)| == 0 && |Refs(x.open, 1)| == 0
  {
    assert x.open == map[];
    NoRefs(x.open, 0);
    NoRefs(x.open, 1);
  }

  /** The owner changed only its own section state. */
  ghost predicate QuietMove(x: Rec, y: Rec, g: nat) {
    && RecInv(y, g) && Evolves(x, y, g) && !Working(y)
    && y.pending == x.pending && y.frames == x.frames
  }

  lemma OpenPlain(x: Rec, z: Rec, g: nat)
    requires RecInv(x, g) && !HasRef(x) && Loaded(x)
    requires x.pc.Idle? || x.pc.BeginStore?
    requires z == x.(epoch := Snap(x), active := |x.open| + 1)
    ensures QuietMove(x, OpenSection(z, Plain, z.epoch), g)
  {
    var y := OpenSection(z, Plain, z.epoch);
    if x.pc.BeginStore? { Closed(x, g); }
    RefsAdd(x.open, x.serials, Open(Plain, z.epoch), 0);
    RefsAdd(x.open, x.serials, Open(Plain, z.epoch), 1);
    assert |Refs(x.open, 0)| == 0 && |Refs(x.open, 1)| == 0 by {
      NoRefs(x.open, 0);
      NoRefs(x.open, 1);
    }
    assert !HasRef(y) by {
      forall k | k in y.open ensures y.open[k].bucket.Plain? {
        if k in x.open { assert x.open[k].bucket.Plain?; }
      }
    }
    assert Shape(y) && Window(y, g) && Counters(y);
    assert BucketOk(y, 0) && BucketOk(y, 1);
    assert SectionsOk(y, g);
  }

  lemma BeginRec(x: Rec, g: nat, section: bool)
    requires RecInv(x, g) && x.used && x.pc.Idle? && MayStart(x, Begin(section))
    ensures QuietMove(x, QuietStart(x, Begin(section)), g)
  {
    if x.active > 0 && !section {
      OpenPlain(x, x.(active := x.active + 1), g);
    } else if x.active == 0 {
      FirstBegin(x, g, section);
    }
  }

  lemma FirstBegin(x: Rec, g: nat, section: bool)
    requires RecInv(x, g) && x.used && x.pc.Idle? && x.active == 0
    ensures QuietMove(x, x.(active := 1, pc := BeginLoad(section)), g)
  {
    Closed(x, g);
  }

  lemma BeginStoreRec(x: Rec, g: nat)
    requires RecInv(x, g) && x.used && x.pc.BeginStore?
    ensures QuietMove(x, QuietNext(x, g), g)
  {
    Closed(x, g);
    if !x.pc.section {
      OpenPlain(x, x.(epoch := x.pc.snap), g);
    }
  }

  /** Taking a reference: the parity of the bucket and the window leave no epoch but the
      current one for a bucket in use. */
  lemma AddRefRec(x: Rec, g: nat)
    requires RecInv(x, g) && x.used && x.pc.AddRef?
    ensures QuietMove(x, Referenced(x, g), g)
  {
    AddRefBucket(x, g);
    AddRefCounts(x, g, 0);
    AddRefCounts(x, g, 1);
    assert Shape(Referenced(x, g)) by { RefsAdd(x.open, x.serials, Open(In(g % 2), g), 0); }
    AddRefSections(x, Referenced(x, g), g);
  }

  /** The parity of the global epoch picks a bucket of that epoch or a free one. */
  lemma AddRefBucket(x: Rec, g: nat)
    requires RecInv(x, g) && x.used && x.pc.AddRef?
    ensures x.bucket[g % 2].count > 0 ==> x.bucket[g % 2].epoch == g
    ensures var y := Referenced(x, g);
            && y.open == x.open[x.serials := Open(In(g % 2), g)]
            && y.bucket == x.bucket[g % 2 := Ref(g, x.bucket[g % 2].count + 1)]
  {
  }

  lemma AddRefCounts(x: Rec, g: nat, i: nat)
    requires RecInv(x, g) && x.used && x.pc.AddRef? && i < 2
    ensures |Referenced(x, g).bucket| == 2 && BucketOk(Referenced(x, g), i)
  {
    AddRefBucket(x, g);
    RefsAdd(x.open, x.serials, Open(In(g % 2), g), i);
  }

  lemma AddRefSections(x: Rec, y: Rec, g: nat)
    requires RecInv(x, g) && x.pc.AddRef? && y.pc.Idle? && y.epoch == x.epoch
    requires x.bucket[g % 2].count > 0 ==> x.bucket[g % 2].epoch == g
    requires y.open == x.open[x.serials := Open(In(g % 2), g)]
    requires y.bucket == x.bucket[g % 2 := Ref(g, x.bucket[g % 2].count + 1)]
    ensures SectionsOk(y, g)
  {
    NoRefs(x.open, g % 2);
    forall k | k in y.open ensures y.open[k].bucket.In? {
      if k in x.open { assert !x.open[k].bucket.Plain?; }
    }
  }

  lemma EndShape(x: Rec, g: nat, k: nat)
    requires RecInv(x, g) && x.used && x.pc.Idle? && k in x.open
    ensures x.active > 0 && Shape(Ended(x, k)) && Window(Ended(x, k), g) && Counters(Ended(x, k))
  {
    RefsRemove(x.open, k, 0);
    if Ended(x, k).pc.DelRef? { assert HasRef(x); }
  }

  lemma EndBucket(x: Rec, g: nat, k: nat, i: nat)
    requires RecInv(x, g) && x.active > 0 && x.pc.Idle? && k in x.open && i < 2
    ensures |Ended(x, k).bucket| == 2 && BucketOk(Ended(x, k), i)
  {
    RefsRemove(x.open, k, i);
  }

  lemma EndRec(x: Rec, g: nat, k: nat)
    requires RecInv(x, g) && x.used && x.pc.Idle? && k in x.open
    ensures x.active > 0 && QuietMove(x, Ended(x, k), g)
  {
    EndShape(x, g, k);
    EndBucket(x, g, k, 0);
    EndBucket(x, g, k, 1);
    assert SectionsOk(Ended(x, k), g);
  }

  /** When the last section of the older bucket goes, all the others are at the newer epoch. */
  lemma DelRefMoves(x: Rec, g: nat)
    requires RecInv(x, g) && x.used && x.pc.DelRef?
    requires Release(x, x.pc.i).epoch != x.epoch
    ensures |x.open| > 0 && Release(x, x.pc.i).epoch == x.epoch + 1
    ensures forall k :: k in x.open ==> x.open[k].epoch == x.epoch + 1
  {
    NoRefs(x.open, x.pc.i);
    if |x.open| == 0 { Closed(x, g); }
    forall k | k in x.open ensures x.open[k].bucket.In? {
      assert !x.open[k].bucket.Plain?;
    }
  }

  lemma DelRefRec(x: Rec, g: nat)
    requires RecInv(x, g) && x.used && x.pc.DelRef?
    ensures QuietMove(x, Release(x, x.pc.i), g)
  {
    var y := Release(x, x.pc.i);
    assert y.bucket[x.pc.i].count == |Refs(x.open, x.pc.i)|;
    if y.epoch != x.epoch { DelRefMoves(x, g); }
    assert Shape(y) && Counters(y);
    assert Window(y, g) && BucketOk(y, 0) && BucketOk(y, 1);
    assert SectionsOk(y, g);
  }

  lemma QuietStartRec(x: Rec, g: nat, op: Op)
    requires RecInv(x, g) && x.used && x.pc.Idle? && MayStart(x, op)
    requires op.Begin? || op.End? || op.Unregister?
    ensures QuietMove(x, QuietStart(x, op), g)
  {
    match op
    case Begin(section) => BeginRec(x, g, section);
    case End(k) => EndRec(x, g, k);
    case Unregister => Closed(x, g);
  }

  lemma QuietNextRec(x: Rec, g: nat)
    requires RecInv(x, g) && x.used && !x.pc.Idle? && !Working(x)
    ensures QuietMove(x, QuietNext(x, g), g)
  {
    match x.pc
    case BeginLoad(_) => Closed(x, g);
    case BeginStore(_, _) => BeginStoreRec(x, g);
    case AddRef => AddRefRec(x, g);
    case DelRef(_) => DelRefRec(x, g);
    case UnregisterState =>
  }

  // ---- Deferral, polling and synchronizing -------------------------------------------

  lemma WithinFrames(frames: seq<Dispatch>, k: nat)
    requires k < |frames|
    ensures frames[k].since in Within(frames)
  {
    if k < |frames| - 1 {
      assert frames[..|frames| - 1][k] == frames[k];
      WithinFrames(frames[..|frames| - 1], k);
    }
  }

  lemma CallLists(s: State, x: Rec, en: Entry)
    requires |x.pending| == LENGTH && ListInv(s, x)
    requires EntryInv(s, en, en.epoch % LENGTH)
    ensures ListInv(s, Deferred(x, en))
  {
    var y := Deferred(x, en);
    var slot := en.epoch % LENGTH;
    forall m, k | 0 <= m < LENGTH && 0 <= k < |y.pending[m]|
      ensures EntryInv(s, y.pending[m][k], m)
    {
      if m != slot { assert EntryInv(s, x.pending[m][k], m); }
      else if k > 0 { assert EntryInv(s, x.pending[m][k - 1], m); }
    }
  }

  /** A callback's own entry asks nothing of the dispatch it is deferred in. */
  lemma CallDispatch(s: State, x: Rec, en: Entry, d: Dispatch)
    requires |x.pending| == LENGTH && DispatchInv(s, x, d) && d.since in en.within
    ensures DispatchInv(s, Deferred(x, en), d)
  {
  }

  /** Deferring is open to the owner and to its callbacks at any depth. */
  lemma CallStep(s: State, r: nat, en: Entry)
    requires Inv(s) && r < |s.recs| && s.recs[r].used && s.recs[r].pc.Idle?
    requires en.epoch == s.g && en.waiters == AllOpen(s) && en.within == Within(s.recs[r].frames)
    ensures |s.recs[r].pending| == LENGTH
    ensures Good(s, Upd(s, r, Deferred(s.recs[r], en)))
  {
    var x := s.recs[r];
    assert RecInv(x, s.g);
    var y := Deferred(x, en);
    OpenNow(s);
    CallLists(s, x, en);
    forall k | 0 <= k < |x.frames| ensures DispatchInv(s, y, y.frames[k]) {
      WithinFrames(x.frames, k);
      CallDispatch(s, x, en, x.frames[k]);
    }
    EvolvesIsLater(s, r, y);
    LaterKeepsRecord(s, Upd(s, r, y), y);
    LocalStep(s, r, y);
  }

  /** All sections are known, and were opened no later than now. */
  lemma OpenNow(s: State)
    requires Inv(s)
    ensures OpenedBy(s, AllOpen(s), s.g)
  {
    forall w | w in AllOpen(s) ensures Known(s, w) && OpenOf(s, w).epoch <= s.g {
      assert RecInv(s.recs[w.record], s.g);
    }
  }

  lemma StartJob(s: State, r: nat, job: Job)
    requires Inv(s) && r < |s.recs| && s.recs[r].used && s.recs[r].pc.Idle?
    requires s.recs[r].active == 0
    requires job.start == s.g && job.iter == 0 && !job.resumed && job.targets == AllOpen(s)
    ensures Good(s, Upd(s, r, s.recs[r].(pc := Head(job, s.g))))
  {
    var x := s.recs[r];
    var y := x.(pc := Head(job, s.g));
    assert RecInv(x, s.g);
    OpenNow(s);
    assert JobBase(s, y, job, s.g) by {
      forall slot, k | 0 <= slot < LENGTH && 0 <= k < |x.pending[slot]|
        ensures x.pending[slot][k].epoch <= job.start
      {
        assert EntryInv(s, x.pending[slot][k], slot);
      }
    }
    EvolvesIsLater(s, r, y);
    assert WorkInv(s, y);
    LaterKeepsRecord(s, Upd(s, r, y), y);
    LocalStep(s, r, y);
  }

  /** A step that only moves the program counter of a job; the lists stay. */
  lemma JobStep(s: State, r: nat, pc: PC)
    requires Inv(s) && r < |s.recs| && Scanning(s.recs[r])
    requires Scanning(s.recs[r].(pc := pc))
    requires |s.recs[r].pending| == LENGTH && JobInv(s, s.recs[r].(pc := pc))
    ensures Good(s, Upd(s, r, s.recs[r].(pc := pc)))
  {
    var x := s.recs[r];
    var y := x.(pc := pc);
    assert RecInv(x, s.g) && RecInv(y, s.g);
    EvolvesIsLater(s, r, y);
    assert WorkInv(s, y);
    LaterKeepsRecord(s, Upd(s, r, y), y);
    LocalStep(s, r, y);
  }

  /** Entries wait only for targets, so closed targets make every list safe to run. */
  lemma ClosedTargets(s: State, r: Rec, job: Job)
    requires |r.pending| == LENGTH && ListInv(s, r) && ListTargets(s, r, job)
    requires AllClosed(s, job.targets)
    ensures ListsSafe(s, r, 0, LENGTH)
  {
    forall slot | 0 <= slot < LENGTH ensures QueueSafe(s, r.pending[slot]) {
      forall k | 0 <= k < |r.pending[slot]| ensures AllClosed(s, r.pending[slot][k].waiters) {
        assert EntryInv(s, r.pending[slot][k], slot);
      }
    }
  }

  lemma ScanEndInv(s: State, r: Rec, job: Job, e: nat, af: bool)
    requires |r.pending| == LENGTH && ListInv(s, r)
    requires JobBase(s, r, job, e) && Visited(s, e, 0)
    requires Decisive(job, af) ==> OpenBelow(s, job.targets, 0)
    ensures JobInv(s, r.(pc := ScanEnd(job, e, af)))
  {
    if !af && Decisive(job, af) {
      ClosedTargets(s, r, job);
    }
  }

  lemma AdvanceInv(s: State, r: Rec, job: Job, e: nat, cur: nat, af: bool)
    requires |r.pending| == LENGTH && ListInv(s, r)
    requires JobBase(s, r, job, e) && Visited(s, e, cur) && cur < |s.recs|
    requires Decisive(job, af) ==> OpenBelow(s, job.targets, cur)
    ensures JobInv(s, r.(pc := Advance(job, e, cur, af)))
  {
    if cur == 0 { ScanEndInv(s, r, job, e, af); }
  }

  /** A record seen free or inactive holds no snapshot and no open section. */
  lemma PassInactive(s: State, job: Job, e: nat, cur: nat, af: bool)
    requires Inv(s) && cur < |s.recs| && (!s.recs[cur].used || s.recs[cur].active == 0)
    requires Visited(s, e, cur + 1)
    requires Decisive(job, af) ==> OpenBelow(s, job.targets, cur + 1)
    ensures Visited(s, e, cur)
    ensures Decisive(job, af) ==> OpenBelow(s, job.targets, cur)
  {
    assert RecInv(s.recs[cur], s.g);
    assert s.recs[cur].open == map[];
  }

  /** A record seen at epoch `e` holds snapshot `e` while the epoch is `e`, and none of its
      sections opened before `e` is open. */
  lemma PassAtEpoch(s: State, job: Job, e: nat, cur: nat)
    requires Inv(s) && cur < |s.recs| && s.recs[cur].epoch == e
    requires Visited(s, e, cur + 1) && OpenedBy(s, job.targets, job.start)
    requires job.iter > 0 ==> job.start < e && OpenBelow(s, job.targets, cur + 1)
    ensures Visited(s, e, cur)
    ensures job.iter > 0 ==> OpenBelow(s, job.targets, cur)
  {
    assert RecInv(s.recs[cur], s.g);
  }

  /** The load shows that the scan may step over the record. */
  ghost predicate Passing(c: Rec, e: nat, load: Load) {
    match load
    case LoadState => !c.used
    case LoadActive => c.active == 0
    case LoadEpoch => c.epoch == e
  }

  lemma PassInv(s: State, x: Rec)
    requires Inv(s) && |x.pending| == LENGTH && x.pc.Look? && JobInv(s, x) && ListInv(s, x)
    requires Passing(s.recs[x.pc.cur], x.pc.e, x.pc.load)
    ensures JobInv(s, x.(pc := Advance(x.pc.job, x.pc.e, x.pc.cur, x.pc.af)))
  {
    var Look(job, e, cur, af, load) := x.pc;
    if load.LoadEpoch? { PassAtEpoch(s, job, e, cur); } else { PassInactive(s, job, e, cur, af); }
    AdvanceInv(s, x, job, e, cur, af);
  }

  lemma LookInv(s: State, x: Rec)
    requires Inv(s) && |x.pending| == LENGTH && x.pc.Look? && JobInv(s, x) && ListInv(s, x)
    ensures JobInv(s, x.(pc := LookNext(s, x.pc)))
    ensures Scanning(x.(pc := LookNext(s, x.pc)))
  {
    if Passing(s.recs[x.pc.cur], x.pc.e, x.pc.load) {
      assert LookNext(s, x.pc) == Advance(x.pc.job, x.pc.e, x.pc.cur, x.pc.af);
      PassInv(s, x);
    } else {
      StayInv(s, x);
    }
  }

  /** The scan goes on to the next load of the record, or stops at it. */
  lemma StayInv(s: State, x: Rec)
    requires |x.pending| == LENGTH && x.pc.Look? && JobInv(s, x) && ListInv(s, x)
    requires !Passing(s.recs[x.pc.cur], x.pc.e, x.pc.load)
    ensures JobInv(s, x.(pc := LookNext(s, x.pc)))
    ensures Scanning(x.(pc := LookNext(s, x.pc)))
  {
  }

  /** An open section keeps the global epoch within one of the epoch it was opened at. */
  lemma OpenIsRecent(s: State, w: Section)
    requires Inv(s) && IsOpen(s, w)
    ensures s.g <= OpenOf(s, w).epoch + 1
  {
    var x := s.recs[w.record];
    assert RecInv(x, s.g);
    assert w.serial in x.open;
    assert |x.open| > 0;
    assert Loaded(x) && !x.pc.BeginStore?;
  }

  lemma TargetsClosedByAge(s: State, ws: set<Section>, e: nat)
    requires Inv(s) && OpenedBy(s, ws, e) && e + 2 <= s.g
    ensures AllClosed(s, ws)
  {
    forall w | w in ws ensures !IsOpen(s, w) {
      if IsOpen(s, w) { OpenIsRecent(s, w); }
    }
  }

  lemma RecheckInv(s: State, x: Rec)
    requires Inv(s) && |x.pending| == LENGTH && x.pc.Recheck? && JobInv(s, x) && ListInv(s, x)
    ensures JobInv(s, x.(pc := RecheckNext(s.g, x.pc)))
    ensures Scanning(x.(pc := RecheckNext(s.g, x.pc)))
  {
    var job := x.pc.job;
    if s.g >= job.start + 2 {
      TargetsClosedByAge(s, job.targets, job.start);
      ClosedTargets(s, x, job);
    }
  }

  /** Entries of the list that poll dispatches after a tick are at least three epochs old. */
  lemma TickedSlotSafe(s: State, x: Rec, job: Job, e: nat)
    requires Inv(s) && |x.pending| == LENGTH && ListInv(s, x)
    requires JobBase(s, x, job, e) && e == job.start
    ensures TickList(e) < LENGTH && ListsSafe(s, x, TickList(e), TickList(e) + 1)
  {
    var slot := TickList(e);
    forall k | 0 <= k < |x.pending[slot]| ensures AllClosed(s, x.pending[slot][k].waiters) {
      var en := x.pending[slot][k];
      assert EntryInv(s, en, slot);
      assert en.epoch + 3 <= e;
      TargetsClosedByAge(s, en.waiters, en.epoch);
    }
  }

  /** Advancing the global epoch once every record holds it. */
  lemma AdvanceEpoch(s: State)
    requires Inv(s) && Visited(s, s.g, 0)
    ensures Good(s, s.(g := s.g + 1))
  {
    var s' := s.(g := s.g + 1);
    forall j | 0 <= j < |s'.recs|
      ensures RecInv(s'.recs[j], s'.g) && WorkInv(s', s'.recs[j])
    {
      assert RecInv(s.recs[j], s.g);
      LaterKeepsRecord(s, s', s.recs[j]);
    }
  }

  lemma OneListInv(s: State, x: Rec, job: Job, m: nat)
    requires |x.pending| == LENGTH && m < LENGTH && ListsSafe(s, x, m, m + 1) && job.poll
    requires m == TickList(job.start)
    ensures JobInv(s, x.(pc := Publish(job, s.g, m, m + 1, PollTick)))
  {
  }

  lemma TickInv(s: State, x: Rec)
    requires Inv(s) && |x.pending| == LENGTH && x.pc.Tick? && ListInv(s, x)
    requires JobBase(s, x, x.pc.job, x.pc.e)
    requires x.pc.e < s.g && (x.pc.job.iter > 0 ==> AllClosed(s, x.pc.job.targets))
    ensures JobInv(s, x.(pc := TickNext(s.g, x.pc)))
  {
    var y := x.(pc := TickNext(s.g, x.pc));
    if x.pc.job.poll {
      TickedSlotSafe(s, x, x.pc.job, x.pc.e);
      OneListInv(s, x, x.pc.job, TickList(x.pc.e));
    } else if x.pc.job.iter > 0 {
      ClosedTargets(s, x, x.pc.job);
    } else {
      assert JobBase(s, y, y.pc.job, y.pc.e);
    }
  }

  /** The compare-and-swap is over, and the global epoch is past the job's. */
  lemma TickedStep(s: State, r: nat)
    requires Inv(s) && r < |s.recs| && s.recs[r].pc.Tick? && s.recs[r].pc.e < s.g
    ensures Good(s, Upd(s, r, s.recs[r].(pc := TickNext(s.g, s.recs[r].pc))))
  {
    var x := s.recs[r];
    assert RecInv(x, s.g) && JobInv(s, x);
    TickInv(s, x);
    JobStep(s, r, TickNext(s.g, x.pc));
  }

  /** The compare-and-swap succeeds. */
  lemma AdvanceStep(s: State, s1: State, r: nat)
    requires Inv(s) && r < |s.recs| && s.recs[r].pc.Tick? && s.recs[r].pc.e == s.g
    requires s1 == s.(g := s.g + 1)
    ensures Good(s, Upd(s1, r, s.recs[r].(pc := TickNext(s1.g, s.recs[r].pc))))
  {
    assert JobInv(s, s.recs[r]);
    AdvanceEpoch(s);
    TickedStep(s1, r);
    LaterTrans(s, s1, Upd(s1, r, s.recs[r].(pc := TickNext(s1.g, s.recs[r].pc))));
  }

  lemma TickStep(s: State, r: nat)
    requires Inv(s) && r < |s.recs| && s.recs[r].used && s.recs[r].pc.Tick?
    ensures Good(s, Continue(s, r))
  {
    var x := s.recs[r];
    if s.g == x.pc.e {
      var s1 := s.(g := s.g + 1);
      AdvanceStep(s, s1, r);
      assert Continue(s, r) == Upd(s1, r, x.(pc := TickNext(s1.g, x.pc)));
    } else {
      assert JobInv(s, x);
      TickedStep(s, r);
      assert Continue(s, r) == Upd(s, r, x.(pc := TickNext(s.g, x.pc)));
    }
  }

  lemma LaterTrans(a: State, b: State, c: State)
    requires Later(a, b) && Later(b, c)
    ensures Later(a, c)
  {
  }

  lemma PublishStep(s: State, r: nat)
    requires Inv(s) && r < |s.recs| && s.recs[r].used && s.recs[r].pc.Publish?
    ensures Good(s, Upd(s, r, Published(s.recs[r])))
  {
    var x := s.recs[r];
    assert RecInv(x, s.g);
    var y := Published(x);
    Closed(x, s.g);
    EvolvesIsLater(s, r, y);
    assert JobInv(s, y) by {
      forall m | x.pc.next <= m < x.pc.end && !Unjustified(x.pc.exit)
        ensures EarlySafe(s, x.pc.job.startedAt, x.pending[m])
      {
        assert QueueSafe(s, x.pending[m]);
      }
    }
    assert WorkInv(s, y);
    LaterKeepsRecord(s, Upd(s, r, y), y);
    LocalStep(s, r, y);
  }

  lemma FrameTaken(frames: seq<Dispatch>, d: Dispatch)
    ensures Taken(frames + [d]) == Taken(frames) + |d.queue| + d.ran
  {
    assert (frames + [d])[..|frames|] == frames;
  }

  /** Taking list m off leaves every dispatch what it needs. */
  lemma TakenDispatch(s: State, x: Rec, y: Rec, m: nat, d: Dispatch)
    requires |x.pending| == LENGTH && DispatchInv(s, x, d)
    requires m < LENGTH && y.pending == x.pending[m := []]
    ensures DispatchInv(s, y, d)
  {
    assert EarlySafe(s, d.since, []);
  }

  lemma TakenLists(s: State, x: Rec, y: Rec, m: nat)
    requires |x.pending| == LENGTH && ListInv(s, x)
    requires m < LENGTH && y.pending == x.pending[m := []]
    ensures ListInv(s, y) && FromList(x.pending[m], m + 1)
    ensures Total(y.pending) + |x.pending[m]| == Total(x.pending)
  {
    forall n, k | 0 <= n < LENGTH && 0 <= k < |y.pending[n]|
      ensures EntryInv(s, y.pending[n][k], n)
    {
      assert EntryInv(s, x.pending[n][k], n);
    }
    forall k | 0 <= k < |x.pending[m]| ensures x.pending[m][k].epoch % LENGTH == m {
      assert EntryInv(s, x.pending[m][k], m);
    }
  }

  /** The finished list is accounted for, and the next one becomes the queue. */
  lemma TakeNext(s: State, x: Rec)
    requires RecInv(x, s.g) && x.pc.Drain? && x.pc.d.queue == [] && WorkInv(s, x)
    requires x.pc.d.next < x.pc.d.end
    ensures var y := DrainStep(x);
            |y.pending| == LENGTH && Counters(y) && WorkInv(s, y)
  {
    var d := x.pc.d;
    var y := DrainStep(x);
    TakenLists(s, x, y, d.next);
    forall k | 0 <= k < |y.frames| ensures DispatchInv(s, y, y.frames[k]) {
      TakenDispatch(s, x, y, d.next, x.frames[k]);
    }
    TakenDispatch(s, x, y, d.next, d);
  }

  /** A step of a dispatch leaves the owner's sections alone. */
  lemma SectionsKept(x: Rec, y: Rec, g: nat)
    requires RecInv(x, g) && x.used && (x.pc.Idle? || x.pc.Drain?) && (y.pc.Idle? || y.pc.Drain?)
    requires y == x.(pending := y.pending, nPending := y.nPending, nDispatch := y.nDispatch,
                     frames := y.frames, pc := y.pc)
    requires |y.pending| == LENGTH && Counters(y)
    ensures RecInv(y, g) && Evolves(x, y, g)
  {
  }

  lemma TakeRec(s: State, x: Rec)
    requires RecInv(x, s.g) && x.used && x.pc.Drain? && x.pc.d.queue == [] && WorkInv(s, x)
    ensures var y := DrainStep(x);
            RecInv(y, s.g) && Evolves(x, y, s.g) && WorkInv(s, y)
  {
    if x.pc.d.next < x.pc.d.end { TakeNext(s, x); }
    SectionsKept(x, DrainStep(x), s.g);
  }

  lemma DrainRec(s: State, x: Rec)
    requires RecInv(x, s.g) && x.used && x.pc.Drain? && WorkInv(s, x)
    ensures var y := DrainStep(x);
            RecInv(y, s.g) && Evolves(x, y, s.g) && WorkInv(s, y)
  {
    if x.pc.d.queue == [] {
      TakeRec(s, x);
    } else {
      FrameTaken(x.frames, x.pc.d);
      SectionsKept(x, DrainStep(x), s.g);
    }
  }

  lemma ReturnRec(s: State, x: Rec)
    requires RecInv(x, s.g) && x.used && x.pc.Idle? && x.frames != [] && WorkInv(s, x)
    ensures var y := Returned(x);
            RecInv(y, s.g) && Evolves(x, y, s.g) && WorkInv(s, y)
  {
    var outer := x.frames[..|x.frames| - 1];
    assert x.frames == outer + [x.frames[|x.frames| - 1]];
    FrameTaken(outer, x.frames[|x.frames| - 1]);
    SectionsKept(x, Returned(x), s.g);
  }

  lemma ReturnStep(s: State, r: nat)
    requires Inv(s) && r < |s.recs| && s.recs[r].used && s.recs[r].pc.Idle?
    requires s.recs[r].frames != []
    ensures Good(s, Upd(s, r, Returned(s.recs[r])))
  {
    var y := Returned(s.recs[r]);
    ReturnRec(s, s.recs[r]);
    EvolvesIsLater(s, r, y);
    LaterKeepsRecord(s, Upd(s, r, y), y);
    LocalStep(s, r, y);
  }

  lemma DrainStepInv(s: State, r: nat)
    requires Inv(s) && r < |s.recs| && s.recs[r].used && s.recs[r].pc.Drain?
    ensures Good(s, Upd(s, r, DrainStep(s.recs[r])))
  {
    var y := DrainStep(s.recs[r]);
    DrainRec(s, s.recs[r]);
    EvolvesIsLater(s, r, y);
    LaterKeepsRecord(s, Upd(s, r, y), y);
    LocalStep(s, r, y);
  }

  ghost predicate IsFresh(x: Rec) {
    && x.active == 0 && x.epoch == 0 && x.open == map[] && x.frames == [] && x.pc.Idle?
    && x.bucket == [Ref(0, 0), Ref(0, 0)] && x.pending == [[], [], [], []]
    && x.nPending == x.nDispatch == x.calls == 0
  }

  lemma FreshInv(s: State, x: Rec)
    requires IsFresh(x)
    ensures RecInv(x, s.g) && WorkInv(s, x)
  {
    NoRefs(x.open, 0);
    NoRefs(x.open, 1);
  }

  lemma RegisterLater(s: State, x: Rec)
    requires x.active == 0
    ensures Later(s, s.(recs := s.recs + [x]))
  {
  }

  lemma RegisterStep(s: State, x: Rec)
    requires Inv(s) && IsFresh(x)
    ensures Good(s, s.(recs := s.recs + [x]))
  {
    var s' := s.(recs := s.recs + [x]);
    RegisterLater(s, x);
    FreshInv(s', x);
    forall j | 0 <= j < |s'.recs|
      ensures RecInv(s'.recs[j], s'.g) && WorkInv(s', s'.recs[j])
    {
      if j < |s.recs| { LaterKeepsRecord(s, s', s.recs[j]); }
    }
  }

  lemma RecycleStep(s: State, r: nat)
    requires Inv(s) && r < |s.recs| && !s.recs[r].used
    ensures Good(s, Upd(s, r, s.recs[r].(used := true)))
  {
    assert RecInv(s.recs[r], s.g);
    QuietStep(s, r, s.recs[r].(used := true));
  }

  lemma StartStep(s: State, r: nat, op: Op, now: nat)
    requires Inv(s) && r < |s.recs| && s.recs[r].used && s.recs[r].pc.Idle?
    requires MayStart(s.recs[r], op)
    ensures Good(s, Start(s, r, op, now))
  {
    match op
    case Call(id) => CallStep(s, r, Deferral(s, r, id, now));
    case Poll => StartJob(s, r, NewJob(s, true, false, now));
    case Synchronize(reclaim) => StartJob(s, r, NewJob(s, false, reclaim, now));
    case Return => ReturnStep(s, r);
    case _ =>
      QuietStartRec(s.recs[r], s.g, op);
      QuietStep(s, r, QuietStart(s.recs[r], op));
  }

  lemma HeadStep(s: State, r: nat)
    requires Inv(s) && r < |s.recs| && s.recs[r].used && s.recs[r].pc.Head?
    ensures var pc := s.recs[r].pc;
            Good(s, Upd(s, r, s.recs[r].(pc := Look(pc.job, pc.e, |s.recs| - 1, false, LoadState))))
  {
    var x := s.recs[r];
    JobStep(s, r, Look(x.pc.job, x.pc.e, |s.recs| - 1, false, LoadState));
  }

  lemma LookStep(s: State, r: nat)
    requires Inv(s) && r < |s.recs| && s.recs[r].used && s.recs[r].pc.Look?
    ensures s.recs[r].pc.cur < |s.recs|
    ensures Good(s, Upd(s, r, s.recs[r].(pc := LookNext(s, s.recs[r].pc))))
  {
    LookInv(s, s.recs[r]);
    JobStep(s, r, LookNext(s, s.recs[r].pc));
  }

  lemma RecheckStep(s: State, r: nat)
    requires Inv(s) && r < |s.recs| && s.recs[r].used && s.recs[r].pc.Recheck?
    ensures Good(s, Upd(s, r, s.recs[r].(pc := RecheckNext(s.g, s.recs[r].pc))))
  {
    RecheckInv(s, s.recs[r]);
    JobStep(s, r, RecheckNext(s.g, s.recs[r].pc));
  }

  lemma SectionStep(s: State, r: nat)
    requires Inv(s) && r < |s.recs| && s.recs[r].used
    requires !s.recs[r].pc.Idle? && !Working(s.recs[r])
    ensures Good(s, Continue(s, r))
  {
    QuietNextRec(s.recs[r], s.g);
    QuietStep(s, r, QuietNext(s.recs[r], s.g));
  }

  lemma WorkStep(s: State, r: nat)
    requires Inv(s) && r < |s.recs| && s.recs[r].used
    requires s.recs[r].pc.Tick? || s.recs[r].pc.Publish? || s.recs[r].pc.Drain?
    ensures Good(s, Continue(s, r))
  {
    var pc := s.recs[r].pc;
    if pc.Tick? { TickStep(s, r); }
    else if pc.Publish? { PublishStep(s, r); }
    else { DrainStepInv(s, r); }
  }

  lemma ScanStep(s: State, r: nat)
    requires Inv(s) && r < |s.recs| && s.recs[r].used
    requires s.recs[r].pc.Head? || s.recs[r].pc.Look? || s.recs[r].pc.Recheck?
    ensures Good(s, Continue(s, r))
  {
    var pc := s.recs[r].pc;
    if pc.Head? {
      assert Continue(s, r) == Upd(s, r, s.recs[r].(pc := Look(pc.job, pc.e, |s.recs| - 1, false, LoadState)));
      HeadStep(s, r);
    } else if pc.Look? {
      LookStep(s, r);
      assert Continue(s, r) == Upd(s, r, s.recs[r].(pc := LookNext(s, pc)));
    } else {
      assert Continue(s, r) == Upd(s, r, s.recs[r].(pc := RecheckNext(s.g, pc)));
      RecheckStep(s, r);
    }
  }

  lemma ContinueStep(s: State, r: nat)
    requires Inv(s) && r < |s.recs| && s.recs[r].used && !s.recs[r].pc.Idle?
    ensures Good(s, Continue(s, r))
  {
    var pc := s.recs[r].pc;
    if pc.Head? || pc.Look? || pc.Recheck? { ScanStep(s, r); }
    else if pc.Tick? || pc.Publish? || pc.Drain? { WorkStep(s, r); }
    else { SectionStep(s, r); }
  }

  lemma DoStep(s: State, r: nat, op: Op, now: nat)
    requires Inv(s)
    ensures Good(s, Step(s, Do(r, op), now))
  {
    if r < |s.recs| && s.recs[r].used {
      if !s.recs[r].pc.Idle? {
        ContinueStep(s, r);
        assert Step(s, Do(r, op), now) == Continue(s, r);
      } else if MayStart(s.recs[r], op) {
        StartStep(s, r, op, now);
        assert Step(s, Do(r, op), now) == Start(s, r, op, now);
      }
    }
  }

  /** A step of record r changes no other record. */
  lemma ContinueFrame(s: State, r: nat)
    requires r < |s.recs|
    ensures |Continue(s, r).recs| == |s.recs| && s.g <= Continue(s, r).g <= s.g + 1
    ensures forall j :: 0 <= j < |s.recs| && j != r ==> Continue(s, r).recs[j] == s.recs[j]
  {
  }

  lemma NewRecords(s: State, ev: Event, now: nat, j: nat)
    requires |s.recs| <= j < |Step(s, ev, now).recs|
    ensures Step(s, ev, now).recs[j] == FRESH_REC
  {
    if ev.Do? && ev.r < |s.recs| { ContinueFrame(s, ev.r); }
  }

  /** Every event keeps the invariant and reopens no section. */
  lemma StepInv(s: State, ev: Event, now: nat)
    requires Inv(s)
    ensures Good(s, Step(s, ev, now))
  {
    match ev
    case Register => RegisterStep(s, FRESH_REC);
    case Recycle(r) => if r < |s.recs| && !s.recs[r].used { RecycleStep(s, r); }
    case Do(r, op) => DoStep(s, r, op, now);
  }

  lemma {:induction false} RunInv(evs: seq<Event>)
    ensures Inv(Run(evs))
  {
    if evs != [] {
      RunInv(evs[..|evs| - 1]);
      StepInv(Run(evs[..|evs| - 1]), evs[|evs| - 1], |evs| - 1);
    }
  }
}
