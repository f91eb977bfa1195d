# Concurrency Kit, modelled and proved

This project models the hardest parts of Concurrency Kit, the library of concurrent data structures and synchronisation
primitives under `ext/libck`, and proves what they promise. `dafny verify dfyconfig.toml` checks all of it.

## How the code is modelled

**Concurrent code** is a state machine. The state holds the shared words and, for every thread, a program counter with the
thread's local variables. One event is one step of one thread: one load, one store or one atomic read-modify-write of
shared memory. A schedule is any sequence of events, and an event that is not possible changes nothing, so a statement about
`Run(events)` is about every interleaving of any number of threads.

**Sequential code that works in place** is imperative. `RhsMap.Rhs` is the Robin Hood hash set with an array of slot
descriptors that its methods change; `HsSet.Hs` is the closed hash set, whose methods issue one store at a time to the
words of the current map.

The parts, and what is proved of each:

- **Epoch reclamation** (`EpochModel`, `EpochInvariant`, `EpochOrder`, `EpochSafety`, `EpochCallbacks`, `EpochCalls`,
  `EpochAlone`, `EpochCounterexample`, `EpochPollSchedule`). Callbacks are code like any other: while one is in progress its record may
  begin and end sections, defer, poll and synchronize, to any depth. A callback deferred before a poll or barrier was called
  is run by it, and a synchronize call returns, only after every section that was open when the callback was deferred or the
  call was made has closed. This holds for every exit of the reclamation code but one: the break of `ck_epoch_synchronize`
  that is taken when a scan of the first pass, resumed after it met a lagging record, has seen no active record *since it was
  resumed*. A concrete schedule shows a synchronize call and a callback of a barrier overtaking an open section through that
  exit, and `JustifiedExits` and `JustifiedCallbacks` prove that the remaining exits are safe in every schedule and this one
  is not. A callback deferred *by a callback* has no such guarantee: the loop over the four lists reaches it if it went to a
  later list. `SameDispatch` proves that the dispatch in progress can run it if and only if that dispatch goes through all
  lists and the epoch at the deferral selects a list after the one being run, `SameDispatchSafe` that this is safe in every
  continuation if and only if moreover no section is open, and `LateEntriesRun` that it has been run once the dispatch is
  over. `PollFails` is a schedule in which a poll that has found every record inactive does it. After a tick, poll dispatches
  one list and is safe for all callbacks. No deferred callback is ever lost (`NothingLost`), and when a barrier returns every
  callback deferred before it has been run or is in the hands of a dispatch that encloses the barrier (`BarrierRuns`).
- **Robin Hood hash set** (`RhsProbe` to `RhsMap`, `RhsSaturation`, `RhsRemoval`). Insertion, lookup, removal and growth
  refine a finite map. The invariant ties every slot's recorded probe number, the home slots' probe bounds and the per-slot
  counters of passing keys to the layout of the keys; displacement chains and backward-shift deletion keep it through each of
  their moves. One promise fails: the loop that should look for another entry of the same home before a saturated bound (255)
  is lowered compares with a probe number one too small and never finds one (`LowerBound`). Removal still keeps every other
  entry in place, but lookups may no longer reach it. `MaximumExact` proves that all maps of a given capacity and probe maximum
  survive all removals if and only if the maximum is below 255, `CapacityExact` that all maps of a given capacity do if and only
  if its probe limit is below 255, which is up to 4096 slots, and `OneHomeExact` says which removals lose keys when all keys
  have one hash value. `LosesKeys` does it with the operations of the set: put any 256 or more keys of one hash value into a new
  set, remove the one in their home slot, and lookups miss all the others but one. `FindRoom` says exactly which of the keys
  that lookups miss an insertion still finds; any other would be stored a second time.
- **Closed hash set** (`HsViews`, `HsReader`, `HsProbe`, `HsLines`, `HsSet`). A lookup that overlaps any history of the writer's
  stores, including growth, moves over tombstones and garbage collection, never misses a key that was in the set all along,
  and what it returns was the set's object for the key at some moment while it ran.
  The writer's operations are proved to issue only stores of that discipline and to refine a finite map. The probe sequence
  is proved equal to the code's word arithmetic on words of any width, with the exact condition for two levels of it to share
  a line; hence how many slots it offers, and that an insertion succeeds without memory while there are fewer keys than that.
- **Barriers** (`BarrierDissemination`, `BarrierTournament`). No thread leaves an episode before every thread has entered
  it, over any number of episodes, exactly as long as there are at most 2^31 threads; neither barrier is ever stuck.
- **Hazard pointers and their stack** (`HpStack`, `HpReclaim`, `HpOverflow`). With at most 512 records, no node is destroyed while a pop
  may still read it, the stack is last-in-first-out, and an empty answer is given only when the stack is empty. 512 is the
  length of the array that a reclamation copies hazard pointers to. The code is written to fall back on scanning the records
  that did not fit, but its loop always runs to the end of the list and never reports any. `RecordsExact` proves that
  reclamation is sound in all schedules of at most so many records if and only if they are at most 512, and `HeldDestroyed`
  is a schedule in which a node that a pop has verified is destroyed. A reclamation destroys everything retired that was not
  a hazard while it ran.
- **Queues** (`Fifo`, `Ring`). The multi-producer multi-consumer queue and the bounded ring deliver every value once, in the
  order in which it was put in. Each value dequeued is the argument of an enqueue call of its own, and undisturbed operations
  end with the right answer from every reachable state.
- **Phase-fair reader-writer lock** (`Pflock`). Writers exclude everybody, with the counters kept in 32-bit words that wrap
  around, and a waiting reader sees at most one writer begin: it can enter if and only if a write section has ended since it
  arrived. The lock is never stuck.

## Model

| member | source | states |
|---|---|---|
| `Internal.PowerAndLog` | ext/libck/src/ck_internal.h:38-61 | the bit-smearing power of two followed by the mask logarithm is the least shift that clears count - 1 if and only if the count is from 1 to 2^31 |
| `Internal.PowerWraps` | ext/libck/src/ck_internal.h:50-61 | for zero and for counts above 2^31 the power of two wraps around to 0, and its logarithm is 0 |
| `Internal.RoundsCover` | ext/libck/src/ck_barrier_dissemination.c:44 | the number of rounds computed from the thread count is the least k with 2^k not below it if and only if the count is at most 2^31 |
| `Internal.MapSize` | ext/libck/src/ck_rhs.c:342-344 | the capacity of a map is the least power of two that is at least eight and at least the number of entries asked for |
| `Internal.SizeIsPower` | ext/libck/src/ck_internal.h:50-61 | that capacity is what the 32-bit rounding yields, raised to eight, if and only if the number of entries is at most 2^31 |
| `Internal.MaskIsRemainder` | ext/libck/src/ck_barrier_dissemination.c:61-64 | a number that shares no bit with its predecessor is a power of two in this sense: masking with the predecessor takes the remainder |
| `EpochModel.AllOpen` | ext/libck/include/ck_epoch.h:118-160 | the sections a grace period has to wait for are exactly those open in some record |
| `EpochInvariant.AddRefRec` | ext/libck/src/ck_epoch.c:178-219 | adding a section reference keeps the buckets exact: each counts the open sections that refer to it, and all of those began in its epoch |
| `EpochInvariant.DelRefRec` | ext/libck/src/ck_epoch.c:142-176 | dropping a reference keeps the buckets exact and leaves the record at the epoch of its oldest open section |
| `EpochInvariant.BeginStoreRec` | ext/libck/include/ck_epoch.h:118-160 | publishing the snapshot taken when the outermost section begins keeps the record within one epoch of the global epoch |
| `EpochInvariant.CallStep` | ext/libck/include/ck_epoch.h:183-196 | deferring, by the owner or by one of its callbacks at any depth, keeps the invariant, with the entry waiting for every section open at that moment |
| `EpochInvariant.PassInactive` | ext/libck/src/ck_epoch.c:304-340 | a scan may step over an unused or inactive record: as long as the global epoch is the scanned one every record passed that holds a snapshot holds that epoch, and on a deciding scan no target section is open in the records passed |
| `EpochInvariant.PassAtEpoch` | ext/libck/src/ck_epoch.c:304-340 | a scan may step over a record at the scanned epoch with the same guarantees, where on a later pass no target section is open in the records passed |
| `EpochInvariant.LookInv` | ext/libck/src/ck_epoch.c:304-340 | one look at one record of the scan keeps what the running pass has established |
| `EpochInvariant.RecheckInv` | ext/libck/src/ck_epoch.c:416-431 | re-reading the global epoch after a lagging record, and resuming or giving up the scan, keeps what the pass has established |
| `EpochInvariant.TargetsClosedByAge` | ext/libck/src/ck_epoch.c:464-475 | sections opened by epoch e are all closed once the global epoch is at least e + 2 |
| `EpochInvariant.AdvanceEpoch` | ext/libck/src/ck_epoch.c:451-455 | the global epoch may advance once every record that holds a snapshot is known to hold the current epoch: the invariant stays and no section is reopened |
| `EpochInvariant.TickedSlotSafe` | ext/libck/src/ck_epoch.c:507-545 | after a successful poll every entry in the slot it dispatches waits for closed sections only |
| `EpochInvariant.TickInv` | ext/libck/src/ck_epoch.c:451-476 | the compare-and-swap that advances the epoch, won or lost, establishes what the next pass or the dispatch needs |
| `EpochInvariant.DrainRec` | ext/libck/src/ck_epoch.c:342-367 | calling the next callback of a detached list, or accounting for the list and detaching the next, keeps the lists, the counters and, for this dispatch and all that enclose it, the safety of the entries not deferred by their own callbacks |
| `EpochInvariant.ReturnRec` | ext/libck/src/ck_epoch.c:352-359 | the return of a callback resumes the loop that called it and keeps the same |
| `EpochInvariant.RegisterStep` | ext/libck/src/ck_epoch.c:260-280 | a registered record joins the list without disturbing any scan under way |
| `EpochInvariant.RecycleStep` | ext/libck/src/ck_epoch.c:232-258 | taking a free record back into use disturbs no scan under way |
| `EpochInvariant.StepInv` | ext/libck/src/ck_epoch.c:386-486 | every step of every operation keeps the invariant, never reopens a section and never lowers the global epoch |
| `EpochInvariant.RunInv` | ext/libck/src/ck_epoch.c:304-545 | the invariant holds after every schedule |
| `EpochOrder.TakingOrder` | ext/libck/src/ck_epoch.c:349-350 | detaching a list keeps the order of deferrals and dispatches: an entry taken was deferred before the dispatch was called, or by one of its callbacks while the list was still to come |
| `EpochOrder.CallOrder` | ext/libck/include/ck_epoch.h:183-196 | deferring keeps the order with respect to every dispatch in progress |
| `EpochOrder.RunOrder` | ext/libck/src/ck_epoch.c:342-381 | in every reachable state an entry was deferred by a callback of a dispatch exactly if it was deferred after that dispatch was called, and if it waits in a list the dispatch has passed it was deferred after the list was detached |
| `EpochOrder.NewestCalledFirst` | ext/libck/src/ck_epoch.c:349-359 | the callbacks of a list are called newest first |
| `EpochSafety.CallbackSafe` | ext/libck/src/ck_epoch.c:342-367 | a callback deferred before the poll or barrier that runs it was deferred by that record, and every section open when it was deferred has closed since, unless it was dispatched through the one unjustified exit |
| `EpochSafety.CallbackLate` | ext/libck/src/ck_epoch.c:526-533 | any other callback was deferred while a callback of the same dispatch, from an earlier list, was in progress, and the dispatch goes through all lists |
| `EpochSafety.TickCallbackSafe` | ext/libck/src/ck_epoch.c:535-544 | every callback that poll runs after a tick, whoever deferred it, runs after the sections open at its deferral have closed |
| `EpochSafety.SynchronizeSafe` | ext/libck/src/ck_epoch.c:386-486 | when synchronize returns, every section open when it was called has closed, unless it left through the one unjustified exit |
| `EpochSafety.SnapshotWindow` | ext/libck/include/ck_epoch.h:127-151 | an active record's snapshot is the global epoch or the one before |
| `EpochSafety.EpochGrowsByOne` | ext/libck/src/ck_epoch.c:451-455 | a step leaves the global epoch or advances it by one, whoever wins the compare-and-swap |
| `EpochSafety.TwoBucketsSuffice` | ext/libck/src/ck_epoch.c:178-219 | the open sections of a record began in its epoch or the next, and two of them share a bucket exactly when they began in the same epoch |
| `EpochSafety.OlderBucketReleased` | ext/libck/src/ck_epoch.c:142-176 | when the last section of the older bucket ends, the record takes the epoch of the sections still open |
| `EpochSafety.PendingIsExact` | ext/libck/src/ck_epoch.c:342-367 | between operations, also inside callbacks, the pending count is the length of the four lists plus what the dispatches in progress have detached, and pending plus dispatched is the number of calls made |
| `EpochCallbacks.NothingLost` | ext/libck/include/ck_epoch.h:183-196 | after every schedule a deferred callback waits in one of the lists or in a detached one, or has been run |
| `EpochCallbacks.SameDispatch` | ext/libck/src/ck_epoch.c:342-381 | what a callback defers can be run by the dispatch that is running the callback if and only if that dispatch goes through all lists and the global epoch selects a later list than the callback's |
| `EpochCallbacks.SameDispatchSafe` | ext/libck/src/ck_epoch.c:342-381 | in every continuation that dispatch runs it only after the sections open at its deferral have closed if and only if none is open or its list is not still to come |
| `EpochCallbacks.StillWaiting` | ext/libck/src/ck_epoch.c:342-381 | what waits when a dispatch of all lists is over was deferred by its own callbacks to a list already detached, or is held by an enclosing dispatch |
| `EpochCallbacks.EarlyEntriesRun` | ext/libck/src/ck_epoch.c:369-381 | when a dispatch is over, whatever was deferred to one of its lists before it was called has been run, or is held by an enclosing dispatch |
| `EpochCallbacks.LateEntriesRun` | ext/libck/src/ck_epoch.c:369-381 | and so has whatever its own callbacks deferred to a list that was still to come |
| `EpochCalls.BarrierRuns` | ext/libck/src/ck_epoch.c:488-495 | in every schedule, when the record that called the barrier is idle again and no deeper in callbacks than at the call, every callback it had deferred before has been called since, or is on a list that a dispatch enclosing the call has detached |
| `EpochCalls.QuietPollRuns` | ext/libck/src/ck_epoch.c:526-533 | the same of a poll that found every record inactive |
| `EpochCalls.TickPollRuns` | ext/libck/src/ck_epoch.c:535-544 | the same of a poll that left after a tick, for callbacks deferred to the list one after that of the epoch at the call |
| `EpochAlone.PollAlone` | ext/libck/src/ck_epoch.c:507-545 | from every reachable state an undisturbed poll fails if some active record is at another epoch, advances the epoch by one if all active records are at the current one, and else leaves the epoch and finds all inactive |
| `EpochAlone.SynchronizeAlone` | ext/libck/src/ck_epoch.c:386-486 | an undisturbed synchronize that finds nobody active leaves by the break of an unresumed first pass |
| `EpochAlone.SecondPassAlone` | ext/libck/src/ck_epoch.c:386-486 | an undisturbed second pass with all active records at the current epoch advances the epoch and is the last |
| `EpochAlone.PassEnds` | ext/libck/src/ck_epoch.c:416-431 | in every reachable state a synchronize stopped at a lagging record goes on from it exactly while the global epoch is the scanned one; otherwise it returns exactly if this is the second pass or the epoch is three past its start, and else makes its second and last pass at the epoch read |
| `EpochAlone.UnregisterAlone` | ext/libck/src/ck_epoch.c:282-302 | an unregistered record is free, and recycling it gives back a new one |
| `EpochPollSchedule.PollFails` | ext/libck/src/ck_epoch.c:526-533 | a schedule in which a poll that found every record inactive runs a callback inside a section that was open when another callback deferred it |
| `EpochCounterexample.SynchronizeFails` | ext/libck/src/ck_epoch.c:409-438 | a schedule of 24 steps in which synchronize returns while a section open at its call is still open |
| `EpochCounterexample.BarrierFails` | ext/libck/src/ck_epoch.c:488-495 | its continuation, in which the barrier runs a callback while a section open at the deferral is still open |
| `EpochCounterexample.JustifiedExits` | ext/libck/src/ck_epoch.c:386-486 | an exit of synchronize guarantees, over all schedules, that the sections waited for have closed if and only if it is not the break of a resumed first pass |
| `EpochCounterexample.JustifiedCallbacks` | ext/libck/src/ck_epoch.c:342-367 | an exit guarantees, over all schedules, that callbacks deferred before the call run after the sections open at their deferral have closed if and only if it is not that break |
| `BarrierDissemination.InitFlags` | ext/libck/src/ck_barrier_dissemination.c:35-76 | for every number of threads, by masking or by division, the partner of thread i in round k is the one the barrier signals, 2^k further round the circle, and all flags start false |
| `BarrierDissemination.PredOfPartner` | ext/libck/src/ck_barrier_dissemination.c:53-68 | each flag has one writer: the thread whose partner it is can be recovered from it |
| `BarrierDissemination.RaisedMeansSignalled` | ext/libck/src/ck_barrier_dissemination.c:113-126 | a flag with the awaited sense means that its writer has signalled in the reader's current episode, never an earlier or a later use of the same flag |
| `BarrierDissemination.Covered` | ext/libck/src/ck_barrier_dissemination.c:96-130 | a thread through k rounds of an episode knows that the 2^k threads before it on the circle have entered it |
| `BarrierDissemination.AllEntered` | ext/libck/src/ck_barrier_dissemination.c:96-130 | a thread that has left m episodes knows that every thread has entered m |
| `BarrierDissemination.SignalInv` | ext/libck/src/ck_barrier_dissemination.c:109-110 | storing the partner's flag keeps every flag equal to what its writer's signal count determines |
| `BarrierDissemination.PassInv` | ext/libck/src/ck_barrier_dissemination.c:112-128 | going on to the next round, or leaving with the parity flipped and on odd parity the sense, keeps the invariant |
| `BarrierDissemination.RunInv` | ext/libck/src/ck_barrier_dissemination.c:96-130 | the invariant holds after every schedule of every number of threads |
| `BarrierDissemination.NobodyLeavesEarly` | ext/libck/src/ck_barrier_dissemination.c:96-130 | with rounds enough for the threads, in every schedule no thread has left more episodes than any other thread has entered |
| `BarrierDissemination.RoundsExact` | ext/libck/src/ck_barrier_dissemination.c:44 | with the number of rounds the code computes, no schedule lets a thread leave early if and only if there are at most 2^31 threads |
| `BarrierDissemination.SomebodyMoves` | ext/libck/src/ck_barrier_dissemination.c:96-130 | after every schedule some thread can take a step: the barrier never deadlocks |
| `BarrierTournament.InitRoles` | ext/libck/src/ck_barrier_tournament.c:59-99 | the role and the opponent of every thread in every round up to its defeat are those of the tables the barrier works with, and every flag is false |
| `BarrierTournament.AssignedRole` | ext/libck/src/ck_barrier_tournament.c:76-87 | the chain of assignments of a round yields the role that the position of the thread in the bracket determines |
| `BarrierTournament.SizeCovers` | ext/libck/src/ck_barrier_tournament.c:101-106 | for two or more threads the computed number of rounds is the height of the bracket if and only if there are at most 2^31 threads |
| `BarrierTournament.RoleBefore` | ext/libck/src/ck_barrier_tournament.c:73-94 | a thread still in the tournament in a round is its loser exactly when it is an odd multiple of half the round's span; the others are champion, bye or winner, and in the last round only thread 0 does not lose |
| `BarrierTournament.Defeat` | ext/libck/src/ck_barrier_tournament.c:73-94 | every thread but 0 loses in exactly one round, to a thread that has the winner's or champion's role there, and only wins or sits out before |
| `BarrierTournament.TableFollows` | ext/libck/src/ck_barrier_tournament.c:59-99 | the role and opponent tables describe one bracket in which each thread loses once to a smaller thread that loses later |
| `BarrierTournament.Arrives` | ext/libck/src/ck_barrier_tournament.c:135-140 | a loser's store keeps the pair in agreement: the winner's flag has the parity of the episodes in which the loser is through the round |
| `BarrierTournament.Sees` | ext/libck/src/ck_barrier_tournament.c:122-152 | a winner or champion that goes on when it sees its sense keeps the pair in agreement: it is never through a round in more episodes than its loser |
| `BarrierTournament.Releases` | ext/libck/src/ck_barrier_tournament.c:170-176 | a winner's wake-up store keeps the pair in agreement: the loser's flag has the parity of the episodes in which it was released |
| `BarrierTournament.Wakes` | ext/libck/src/ck_barrier_tournament.c:141-144 | a loser that goes on when it sees its sense keeps the pair in agreement: it was released in exactly the episodes in which it is through the round |
| `BarrierTournament.StepInv` | ext/libck/src/ck_barrier_tournament.c:108-184 | every step of every thread keeps the flags of every pair in agreement with both program counters |
| `BarrierTournament.RunInv` | ext/libck/src/ck_barrier_tournament.c:108-184 | that agreement holds after every schedule |
| `BarrierTournament.SpeaksFor` | ext/libck/src/ck_barrier_tournament.c:118-154 | once thread 0 is through the last round of an episode, every thread has entered it and is through its own rounds |
| `BarrierTournament.WokenByChampion` | ext/libck/src/ck_barrier_tournament.c:156-178 | no thread is woken in an episode before thread 0 has turned round in it |
| `BarrierTournament.NobodyLeavesEarly` | ext/libck/src/ck_barrier_tournament.c:108-184 | for one or more threads no thread leaves, or is even woken in, an episode that some thread has not entered, in any schedule |
| `BarrierTournament.SizeExact` | ext/libck/src/ck_barrier_tournament.c:101-116 | with the size the code computes, no schedule lets a thread leave early if and only if there are at most 2^31 threads |
| `BarrierTournament.Mover` | ext/libck/src/ck_barrier_tournament.c:118-154 | a thread on its way up can move, or a thread in the subtree it waits for can |
| `BarrierTournament.SomebodyMoves` | ext/libck/src/ck_barrier_tournament.c:108-184 | after every schedule some thread can take a step: the barrier never deadlocks |
| `RhsProbe.PrevUndoesNext` | ext/libck/src/ck_rhs.c:424-449 | stepping back undoes stepping forward |
| `RhsProbe.NextUndoesPrev` | ext/libck/src/ck_rhs.c:424-449 | stepping forward undoes stepping back |
| `RhsProbe.HomeOfSlot` | ext/libck/src/ck_rhs.c:438-449 | walking back from the p-th probe of a home ends at that home |
| `RhsProbe.SlotOfHome` | ext/libck/src/ck_rhs.c:438-449 | every slot is the p-th probe of some home, for every p |
| `RhsProbe.SlotsDistinct` | ext/libck/src/ck_rhs.c:424-436 | the first `capacity` probes from any home visit distinct slots, by the triangular jumps between lines |
| `RhsProbe.EverySlotVisited` | ext/libck/src/ck_rhs.c:424-436 | the first `capacity` probes from any home visit every slot |
| `RhsProbe.GetFirstOffset` | ext/libck/src/ck_rhs.c:890-901 | the loop that goes back a whole line at a time finds the same home as stepping back probe by probe |
| `RhsLayout.SpaceTracks` | ext/libck/src/ck_rhs.c:424-449 | the code's probe sequences have the inverses on which the rest of the theory stands |
| `RhsLayout.FullPrefix` | ext/libck/src/ck_rhs.c:691-803 | a key that meets n full slots in a row proves that the map holds at least n keys |
| `RhsLayout.MoveStruct` | ext/libck/src/ck_rhs.c:905-1066 | moving a key along its own sequence into the hole or an empty slot keeps every key reachable behind full slots, with the slot it left as the new hole |
| `RhsLayout.PassersGrow` | ext/libck/src/ck_rhs.c:841-888 | moving a key further out adds it to the passers of exactly the slots in between |
| `RhsCounters.AddWanted` | ext/libck/src/ck_rhs.c:841-866 | exactly the slots from the old probe up to the new one are counted once more |
| `RhsCounters.RemoveWanted` | ext/libck/src/ck_rhs.c:868-888 | exactly the slots the key no longer passes are counted once less, and the home of the key is returned |
| `RhsSearch.Find` | ext/libck/src/ck_rhs.c:691-803 | a lookup, cut short by an empty slot or by the bound of the home, finds a key if and only if it is held within that bound |
| `RhsSearch.StillAhead` | ext/libck/src/ck_rhs.c:477-491 | a key held within the bound that has not been met yet lies behind a full slot |
| `RhsSearch.FindRoom` | ext/libck/src/ck_rhs.c:691-803 | an insertion finds the key if and only if it is held and not past the probe bound of its home with a displaceable entry within the bound; otherwise it finds the first slot of the sequence that is empty or holds an entry with fewer probes, at which the key would be reachable, or fails only when the map holds at least `probe_limit` keys |
| `RhsSearch.FindNext` | ext/libck/src/ck_rhs.c:691-803 | a displaced entry finds the next slot that is empty or of an entry with fewer probes which is not already being moved, or fails only when the map holds at least `probe_limit` keys |
| `RhsDisplace.BoundSet` | ext/libck/src/ck_rhs.c:452-475 | raises the bound of one home, saturating at 255, and the map's maximum until the probe number is within reach, and changes nothing else |
| `RhsDisplace.Extend` | ext/libck/src/ck_rhs.c:950-960 | recording one more victim extends a chain of entries each of which may move to the slot of the next |
| `RhsDisplace.Advance` | ext/libck/src/ck_rhs.c:923-960 | one round of the search lengthens the chain by one, finds its end or is stuck, and moves no entry |
| `RhsDisplace.FindChain` | ext/libck/src/ck_rhs.c:920-960 | the search for a chain ends without moving an entry, with every victim able to move to the slot of the next and the last to an empty slot, or fails only when the map holds at least `probe_limit` keys |
| `RhsDisplace.Settle` | ext/libck/src/ck_rhs.c:961-971 | moving the last victim into the empty slot opens a hole at the end of the chain and keeps the set |
| `RhsDisplace.Unwind` | ext/libck/src/ck_rhs.c:972-984 | moving the previous victim into the hole moves the hole one step down the chain and keeps the set |
| `RhsDisplace.MoveKey` | ext/libck/src/ck_rhs.c:905-986 | one store of an entry with its probe number and counters keeps layout, probe numbers, bounds and counters |
| `RhsDisplace.Displace` | ext/libck/src/ck_rhs.c:905-986 | the whole displacement frees the wanted slot, keeps the same keys and items, and on failure leaves every entry where it was |
| `RhsDelete.FindSuccessor` | ext/libck/src/ck_rhs.c:1003-1022 | while a key is counted on the freed slot the double loop finds the first entry that passes it, by probe and then by distance; the branch for finding none cannot be taken |
| `RhsDelete.SoleKey` | ext/libck/src/ck_rhs.c:1031-1033 | when one count is left on the home, no key of that home sits further out than the entry just moved |
| `RhsDelete.LowerBound` | ext/libck/src/ck_rhs.c:1029-1055 | the bound of the home becomes the new probe number exactly when one count was left or the bound was saturated; the search for another entry of that home never finds one |
| `RhsDelete.ShiftHoled` | ext/libck/src/ck_rhs.c:1023-1059 | one shift moves the hole to the slot of the moved entry and keeps layout, probe numbers and counters, in every map |
| `RhsDelete.ShiftReaches` | ext/libck/src/ck_rhs.c:1029-1055 | a shift in a map without saturated bounds leaves every key within its bound and saturates none |
| `RhsDelete.Shift` | ext/libck/src/ck_rhs.c:997-1060 | one round of the outer loop moves the first successor up, keeps the keys and lowers the sum of the counters, so the loop ends |
| `RhsDelete.CloseHole` | ext/libck/src/ck_rhs.c:1061-1065 | a hole that no key passes may be emptied, and the bound of the home it was reached from set below it |
| `RhsDelete.ShiftDelete` | ext/libck/src/ck_rhs.c:988-1066 | from every map the deletion removes exactly the key of the slot, without tombstones, by the run of shifts that the other statements are about |
| `RhsDelete.DeletionSafe` | ext/libck/src/ck_rhs.c:988-1066 | a deletion from a map without saturated bounds leaves every other key within reach of lookups |
| `RhsSaturation.Contiguous` | ext/libck/src/ck_rhs.c:424-436 | however n keys of one home came in, they sit at the probes 1 to n |
| `RhsSaturation.CrowdFirst` | ext/libck/src/ck_rhs.c:1003-1018 | among keys of one home the search for a successor finds the next one |
| `RhsSaturation.CrowdTrace` | ext/libck/src/ck_rhs.c:997-1060 | along a whole deletion they move up one after the other, and a saturated bound becomes the probe of the first key moved and stays there |
| `RhsSaturation.OneHomeExact` | ext/libck/src/ck_rhs.c:988-1066 | in a sound map whose keys all have one home, a removal leaves every other key within reach if and only if there are at most 255 keys or the removed one sits at probe 255 or beyond |
| `RhsSaturation.CrowdLost` | ext/libck/src/ck_rhs.c:1061-1065 | keys of a saturated home are lost when the deletion ends at a key of another home |
| `RhsSaturation.CountFits` | ext/libck/src/ck_rhs.c:841-888 | the counter of a slot is at most the square of the probe maximum, so it does not reach its limit of 65535 while the maximum is at most 255 |
| `RhsRemoval.Finishes` | ext/libck/src/ck_rhs.c:997-1060 | from every stage of a deletion the run of shifts goes on to its end |
| `RhsRemoval.MaximumExact` | ext/libck/src/ck_rhs.c:988-1066 | all removals from all sound maps of a given capacity and probe maximum leave the other keys within reach if and only if the maximum is below 255 |
| `RhsRemoval.CapacityExact` | ext/libck/src/ck_rhs.c:988-1066 | all removals from all sound maps of a given capacity do if and only if the probe limit of that capacity is below 255 |
| `RhsGrow.Place` | ext/libck/src/ck_rhs.c:526-543 | the carried entry may be stored in an empty slot |
| `RhsGrow.Swap` | ext/libck/src/ck_rhs.c:544-558 | the carried entry may take the slot of an entry with fewer probes, which is then carried on from its own probe number |
| `RhsGrow.Pass` | ext/libck/src/ck_rhs.c:560-561 | the carried entry may pass a full slot, which is counted once more |
| `RhsGrow.Reinsert` | ext/libck/src/ck_rhs.c:513-562 | reinserting an entry ends with the set extended by exactly that entry and no key passing an entry closer to its home, or fails only when more keys than `probe_limit` are to be stored |
| `RhsMap.PutIn` | ext/libck/src/ck_rhs.c:1314-1368 | an insertion finds the key, adds exactly the item, or reports no room only when the map holds at least `probe_limit` keys, with the entries as before |
| `RhsMap.Rebuild` | ext/libck/src/ck_rhs.c:510-564 | copying every slot yields a sound map of the same items in Robin Hood order: no key passes an entry that is closer to its home than the key is there |
| `RhsMap.Enlarge` | ext/libck/src/ck_rhs.c:493-570 | doubling and restarting after a failed copy ends with a sound map of the same items in that order |
| `RhsMap.NewMap` | ext/libck/src/ck_rhs.c:336-398 | a new map is sound, empty and large enough |
| `RhsMap.Rhs.constructor` | ext/libck/src/ck_rhs.c:1458-1480 | a new set is empty |
| `RhsMap.Rhs.Get` | ext/libck/src/ck_rhs.c:1388-1415 | returns the item stored under the key if the bound of its home lets the lookup reach it, else nothing; in a valid set that is exactly when the key is in the set |
| `RhsMap.Rhs.Remove` | ext/libck/src/ck_rhs.c:1417-1435 | removes exactly the key that a lookup reaches and returns its item, from every map; a valid set stays valid if the key was absent or no bound was saturated |
| `RhsMap.RemoveIn` | ext/libck/src/ck_rhs.c:1417-1435 | the entries afterwards are those before without the key, by the deletion run of that key |
| `RhsMap.Rhs.Grow` | ext/libck/src/ck_rhs.c:493-570 | refuses exactly the capacities below the present one; otherwise the contents stay, the map is at least that large and in Robin Hood order |
| `RhsMap.Rhs.TryPut` | ext/libck/src/ck_rhs.c:1314-1368 | one attempt inserts, finds the key, or has grown the map with the contents unchanged |
| `RhsMap.Rhs.Put` | ext/libck/src/ck_rhs.c:1314-1377 | succeeds if and only if the key was absent, and adds exactly that item; the restart after growth ends |
| `RhsRemoval.NoneHiddenAlone` | ext/libck/src/ck_rhs.c:691-803 | in a map whose keys all have one home an insertion finds every held key, also those that lookups miss |
| `RhsRemoval.LosesKeys` | ext/libck/src/ck_rhs.c:1417-1435 | put any 256 or more keys of one hash value into a new set and remove the one in their home slot: the others are in the set, lookups find one of them, and a lookup of another returns nothing |
| `HsViews.InsertGood` | ext/libck/src/ck_hs.c:763-784 | storing an absent key's entry in an empty slot or a tombstone of its sequence, within the bounds, keeps every key visible |
| `HsViews.CopyGood` | ext/libck/src/ck_hs.c:763-765 | storing a second copy of a key in an earlier tombstone keeps every key visible |
| `HsViews.KillGood` | ext/libck/src/ck_hs.c:774-777 | the old copy may become a tombstone once the generation has been signalled |
| `HsViews.RemoveGood` | ext/libck/src/ck_hs.c:880-898 | turning an entry into a tombstone removes exactly its key from view |
| `HsViews.BoundsGood` | ext/libck/src/ck_hs.c:272-291 | maximum and bounds may change as long as every key stays within them |
| `HsViews.StoreGood` | ext/libck/src/ck_hs.c:737-791 | every store of the discipline keeps every key visible to a fresh lookup |
| `HsReader.WorldGood` | ext/libck/src/ck_hs.c:310-381 | at every moment of every history of the writer, in the current map and in every map it replaced, every key is visible |
| `HsReader.StaysStep` | ext/libck/src/ck_hs.c:97-106 | a key kept by a store stays at its probe unless its generation counter moves |
| `HsReader.HeldInMap` | ext/libck/src/ck_hs.c:853-878 | a key held all along stays in the map that was current when the lookup loaded it |
| `HsReader.ScanFinds` | ext/libck/src/ck_hs.c:401-509 | a scan whose slots are read at arbitrary later moments meets a key that stays at a probe within its limit |
| `HsReader.NeverMisses` | ext/libck/src/ck_hs.c:853-878 | a lookup overlapping any history of the writer never answers that a key is absent which was present from its first load to its generation check: it finds it or retries |
| `HsReader.HitWasCurrent` | ext/libck/src/ck_hs.c:853-878 | an item returned by a lookup has the asked key and was the object of the set for it at some moment between the first load and the last |
| `HsReader.OlderWasCurrent` | ext/libck/src/ck_hs.c:763-777 | a lookup that meets the older copy of a key on the move has passed the new place before the copy was made, when the older one was current |
| `HsReader.StillExact` | ext/libck/src/ck_hs.c:853-878 | a pass during which the writer stores nothing does not retry, finds the object of a key in the set and answers that any other key is absent |
| `HsReader.RetryMeansSignal` | ext/libck/src/ck_hs.c:853-878 | a pass is repeated only if the writer bumped the generation of the key between its two loads of it |
| `HsProbe.ProbesTrack` | ext/libck/src/ck_hs.c:256-270 | the probe sequences stay inside the map, for every hash function and capacity |
| `HsProbe.Next` | ext/libck/src/ck_hs.c:401-509 | the two nested loops visit the slots of the sequence one after the other |
| `HsLines.NextLineOnWords` | ext/libck/src/ck_hs.c:256-270 | on words of any number of bits, with wrap-around, the offset of the next line is the code's expression: the offset, the probes shifted right by three and the stride with bit three set, added and masked, with the stride spread out of the hash shifted right by the step and the level |
| `HsLines.SameLine` | ext/libck/src/ck_hs.c:256-270 | for every hash and any two levels, the exact condition for them to be on the same line |
| `HsLines.SmallHash` | ext/libck/src/ck_hs.c:256-270 | a hash below twice the capacity probes the lines 9, 19, 30, ... slots on from its home |
| `HsLines.SlotsDistinct` | ext/libck/src/ck_hs.c:401-509 | as long as the last line is less than a turn away, all slots probed are different |
| `HsLines.EightLinesSpread` | ext/libck/src/ck_hs.c:256-270 | with at least 128 slots and such a hash this holds of the first eight lines |
| `HsLines.RoomWhenFew` | ext/libck/src/ck_hs.c:401-509 | if the first n probes meet more different slots than there are keys, one of them holds no entry |
| `HsLines.RoomInLines` | ext/libck/src/ck_hs.c:401-509 | so an insertion has room within M different lines while there are fewer than 8 * M keys |
| `HsProbe.NotHeld` | ext/libck/src/ck_hs.c:401-509 | a key not met so far is held only if the next slot is in use and the bound not reached |
| `HsProbe.HasRoom` | ext/libck/src/ck_hs.c:401-509 | the first tombstone or empty slot on the way is a slot at which the key would be visible |
| `HsProbe.Probe` | ext/libck/src/ck_hs.c:401-509 | the search returns the key's slot exactly when it is held, and the earliest slot of the sequence without an entry; it finds neither only if the first `probe_limit` probes all meet entries |
| `HsSet.ReadersFind` | ext/libck/src/ck_hs.c:853-878 | lookups that overlap the operations of this set never miss a key held throughout |
| `HsSet.ReadersCurrent` | ext/libck/src/ck_hs.c:853-878 | what they return was the contents of this set for the key at some moment while they ran |
| `HsSet.PutItems` | ext/libck/src/ck_hs.c:763-784 | a store of an entry changes the contents at its key only |
| `HsSet.OtherItems` | ext/libck/src/ck_hs.c:272-291 | every other store leaves the contents, but for a removal, which drops its key |
| `HsSet.NewMap` | ext/libck/src/ck_hs.c:176-230 | a new map is empty, sound and large enough |
| `HsSet.Place` | ext/libck/src/ck_hs.c:339-365 | an entry goes to the first empty slot of its sequence, or the first `probe_limit` slots are all in use |
| `HsSet.Rebuild` | ext/libck/src/ck_hs.c:310-381 | the new map holds exactly the items of the old one, or some entry met only used slots within the probe limit |
| `HsSet.GatherEntry` | ext/libck/src/ck_hs.c:592-600 | after looking at one entry the gathered maximum and bounds cover every key of the slots seen so far |
| `HsSet.Hs.constructor` | ext/libck/src/ck_hs.c:920-941 | a new set is empty |
| `HsSet.Hs.Exec` | ext/libck/src/ck_hs.c:763-784 | each store extends the history that overlapping lookups see by one permitted step |
| `HsSet.Hs.Get` | ext/libck/src/ck_hs.c:853-878 | a lookup without overlap returns the item stored under the key, or nothing exactly when it is absent |
| `HsSet.Hs.BoundSet` | ext/libck/src/ck_hs.c:272-291 | brings a probe number within the home's bound and the maximum, contents unchanged |
| `HsSet.Hs.Remove` | ext/libck/src/ck_hs.c:880-898 | returns the stored item and removes that key only |
| `HsSet.Hs.Grow` | ext/libck/src/ck_hs.c:310-381 | contents unchanged; publishes a map at least as large as asked, or changes nothing because the capacity is too small or memory has run out |
| `HsSet.Hs.Move` | ext/libck/src/ck_hs.c:763-784 | copy, signal and tombstone together move a key to an earlier probe and keep everything else |
| `HsSet.Hs.Add` | ext/libck/src/ck_hs.c:383-392 | adds exactly the item at the probe given, grows to twice the slots past half load, as long as there is memory, and not otherwise |
| `HsSet.Hs.Locate` | ext/libck/src/ck_hs.c:749-760 | the restart after growth ends with a place for the key, or with memory used up; nothing grows if the key is held or there is room within the probe limit |
| `HsSet.Hs.Set` | ext/libck/src/ck_hs.c:737-791 | stores the item under its key and returns what was there; a held key ends up at the first tombstone before it, if any; fails only without room and without memory, contents unchanged |
| `HsSet.Hs.Put` | ext/libck/src/ck_hs.c:793-841 | adds exactly the item if the key is absent; with room within the probe limit that is if and only if it is absent, at the first slot of its sequence without an entry; otherwise a refusal means that it was present or that memory has run out |
| `HsSet.Hs.Fas` | ext/libck/src/ck_hs.c:622-652 | replaces the item if and only if the key is present, returns the old one, and leaves the key at the first tombstone before it, if any |
| `HsSet.Hs.Tidy` | ext/libck/src/ck_hs.c:578-590 | one entry is moved to the first tombstone of its sequence before it, or stays if there is none; no tombstone precedes it then |
| `HsSet.Hs.Collect` | ext/libck/src/ck_hs.c:565-617 | a full collection tidies every slot in turn from the seed on, keeps the contents and leaves only bounds that some key of the home needed |
| `HsSet.Hs.Glean` | ext/libck/src/ck_hs.c:562-603 | a partial collection tidies the slots in turn from the seed on until as many entries as asked have been looked at, or all; contents, bounds and maximum stay |
| `HsSet.TidiedTombs` | ext/libck/src/ck_hs.c:578-590 | no tombstone comes before an entry that has been looked at, when it has |
| `HsSet.Hs.Gc` | ext/libck/src/ck_hs.c:533-620 | garbage collection keeps the contents and is such a run over the slots, all of them or as many entries as asked; a full one leaves only needed bounds; it fails only without memory |
| `HpStack.PushCasInv` | ext/libck/include/ck_stack.h:53-68 | the compare-and-swap of a push, won or lost, keeps the invariant: head and links spell out the stack with the new node on top only if its link is the head it replaces |
| `HpStack.CheckInv` | ext/libck/include/ck_hp_stack.h:54-84 | re-reading the head after publishing the hazard keeps the invariant: a pop that goes on has its node alive and seen, now or later, by every reclamation that could destroy it |
| `HpStack.CasInv` | ext/libck/include/ck_hp_stack.h:54-84 | the compare-and-swap of a pop, won or lost, keeps the invariant: head and links still spell out the stack, although nodes are recycled, because the successor read is still the node's |
| `HpStack.ScanInv` | ext/libck/src/ck_hp.c:189-218 | with at most 512 records, loading the state of one record, and then its hazard into the array of the snapshot if there is room, keeps the invariant: whatever is protected among the retired nodes is in the snapshot or still to be loaded |
| `HpStack.DestroyInv` | ext/libck/src/ck_hp.c:239-265 | destroying a retired node that is not in the snapshot keeps the invariant, in which every node that a pop has verified is alive |
| `HpStack.RetireInv` | ext/libck/src/ck_hp.c:270-286 | retiring a popped node keeps the invariant: it is listed once, with its record, and every reclamation under way still sees what is protected |
| `HpStack.RegisterInv` | ext/libck/src/ck_hp.c:133-151 | registering a record while others reclaim keeps the invariant |
| `HpStack.StepInv` | ext/libck/include/ck_hp_stack.h:54-84 | with at most 512 records, every step of push, pop, retirement and reclamation keeps the invariant |
| `HpStack.RunInv` | ext/libck/src/ck_hp.c:189-309 | it holds after every schedule that registers at most 512 records |
| `HpStack.NotDestroyedInUse` | ext/libck/src/ck_hp.c:220-268 | with at most 512 records, a node that a pop has verified is not destroyed before the pop's compare-and-swap, and the successor it read is still the node's successor |
| `HpStack.Refines` | ext/libck/include/ck_hp_stack.h:39-84 | with at most 512 records, every step leaves the stack, pushes a new node on it or pops its top for the popping thread, and the linked nodes are that stack |
| `HpStack.EmptyWhenGivenUp` | ext/libck/include/ck_hp_stack.h:54-84 | with at most 512 records, a pop answers that the stack is empty only at a moment when it is |
| `HpStack.OnePlace` | ext/libck/src/ck_hp.c:270-309 | with at most 512 records, no node is twice on the stack or twice retired, and its status says where it is |
| `HpReclaim.LeavesHazardsOnly` | ext/libck/src/ck_hp.c:220-268 | when a reclamation returns, each node still retired was the hazard of a record in use at a moment while it ran; all others retired before it have been destroyed |
| `HpReclaim.PushReturned` | ext/libck/include/ck_stack.h:53-68 | a push that has returned has put its node on the stack |
| `HpReclaim.PopReturns` | ext/libck/include/ck_hp_stack.h:54-84 | a pop returns only when it has taken the top or the stack is empty |
| `HpReclaim.PushAlone` | ext/libck/include/ck_stack.h:53-68 | an undisturbed push puts its node on top |
| `HpReclaim.PopAlone` | ext/libck/include/ck_hp_stack.h:54-84 | an undisturbed pop takes the top, or nothing if the stack is empty |
| `HpOverflow.RecordsExact` | ext/libck/src/ck_hp.c:189-218 | in all schedules of at most so many records every snapshot stays within its array and every node that a pop relies on is alive, if and only if the records are at most 512 |
| `HpOverflow.ArrayOverrun` | ext/libck/src/ck_hp.c:206-212 | a schedule of 513 records, each with a hazard, in which a reclamation stores 513 pointers to its array of 512 |
| `HpOverflow.HeldDestroyed` | ext/libck/src/ck_hp.c:220-268 | a schedule of 515 records in which the node that a pop has verified and is about to read is destroyed |
| `Fifo.LinkInv` | ext/libck/include/ck_fifo.h:244-299 | the double-width compare-and-swap that links an entry, won or lost, keeps the invariant: the links spell out one chain without repetition and the tail is its last or last but one entry |
| `Fifo.TailForward` | ext/libck/include/ck_fifo.h:271-297 | swinging or helping the tail keeps the invariant: tail generation and tail pointer name the same position of the chain |
| `Fifo.UnlinkInv` | ext/libck/include/ck_fifo.h:354-407 | the compare-and-swap that moves the head, won or lost, keeps the invariant: the head does not pass the tail and the value logged is that of the entry reached |
| `Fifo.StepInv` | ext/libck/include/ck_fifo.h:244-407 | every step of enqueue and dequeue keeps the invariant |
| `Fifo.RunInv` | ext/libck/include/ck_fifo.h:244-407 | it holds after every schedule |
| `Fifo.Refines` | ext/libck/include/ck_fifo.h:244-407 | every step leaves the queue, appends one value or removes the front value, and the value returned is that front |
| `Fifo.EmptyWhenNone` | ext/libck/include/ck_fifo.h:354-407 | a dequeue returns only when it has taken the front or the queue is empty |
| `Fifo.InOrderOnce` | ext/libck/include/ck_fifo.h:244-407 | the values taken so far are the values of the first entries linked, in that order, each once |
| `Fifo.OnlyEnqueued` | ext/libck/include/ck_fifo.h:244-299 | the values dequeued are the arguments of enqueue calls by idle threads, a different call for each |
| `Fifo.EnqueueReturned` | ext/libck/include/ck_fifo.h:244-299 | when an enqueue has returned its entry is linked, once, with the value it was given |
| `Fifo.EnqueueAlone` | ext/libck/include/ck_fifo.h:244-299 | from every reachable state an undisturbed enqueue ends within 13 steps with its value at the end of the queue |
| `Fifo.DequeueAlone` | ext/libck/include/ck_fifo.h:354-407 | an undisturbed dequeue ends within 15 steps, and takes the front or finds the queue empty |
| `Ring.ClaimInv` | ext/libck/include/ck_ring.h:166-219 | the compare-and-swap that claims a slot, won or lost, keeps the invariant: at most size - 1 slots are in use and none is claimed twice |
| `Ring.CopyInv` | ext/libck/include/ck_ring.h:197-198 | copying into the claimed slot keeps the invariant: every published value that is still to be taken stays in its slot |
| `Ring.PublishInv` | ext/libck/include/ck_ring.h:200-212 | publishing keeps the invariant: the slots made visible hold their values, in the order in which they were claimed |
| `Ring.TakeInv` | ext/libck/include/ck_ring.h:261-298 | the compare-and-swap of a dequeue, won or lost, keeps the invariant: what was taken is a prefix of what was put in |
| `Ring.StepInv` | ext/libck/include/ck_ring.h:166-298 | every step of the producers and consumers keeps the invariant |
| `Ring.RunInv` | ext/libck/include/ck_ring.h:166-298 | it holds after every schedule |
| `Ring.InOrderOnce` | ext/libck/include/ck_ring.h:166-298 | the values taken are a prefix of the values claimed, and at most size - 1 are in the ring |
| `Ring.TakesNext` | ext/libck/include/ck_ring.h:261-298 | a successful dequeue returns the next value in claim order, fully written, although it was read before the compare-and-swap |
| `Ring.EmptyWhenNone` | ext/libck/include/ck_ring.h:261-298 | a dequeue that finds the ring empty does so at a moment when nothing published is left |
| `Ring.ClaimsExclusive` | ext/libck/include/ck_ring.h:166-219 | no two producers hold the same slot, and a held slot is not visible to consumers |
| `Ring.OnlyEnqueued` | ext/libck/include/ck_ring.h:166-298 | the values dequeued are the arguments of enqueue calls by idle threads, a different call for each |
| `Ring.EnqueueReturns` | ext/libck/include/ck_ring.h:166-219 | an enqueue returns where it found no room, or by publishing the slot it has claimed |
| `Ring.DequeueReturns` | ext/libck/include/ck_ring.h:261-298 | a dequeue returns when it has taken the next value or nothing published is left; only the try form also when another consumer was faster |
| `Ring.EnqueueAlone` | ext/libck/include/ck_ring.h:166-219 | an undisturbed enqueue, with all claimed slots published, succeeds if and only if fewer than size - 1 values are in the ring, and publishes its value |
| `Ring.DequeueAlone` | ext/libck/include/ck_ring.h:261-298 | an undisturbed dequeue takes the oldest published value, if there is one |
| `Pflock.WrapSame` | ext/libck/include/ck_pflock.h:49-53 | two counts less than one wrap apart whose words are equal are equal |
| `Pflock.TurnWords` | ext/libck/include/ck_pflock.h:89-92 | a writer that sees its ticket in the wrapped word is the next writer |
| `Pflock.DrainWords` | ext/libck/include/ck_pflock.h:102-104 | when the words of readers gone and readers ahead agree, all readers ahead have gone |
| `Pflock.AnnounceInv` | ext/libck/include/ck_pflock.h:94-100 | adding the phase and presence bits keeps the invariant: the word read along with it is the wrapped count of the readers ahead |
| `Pflock.DrainInv` | ext/libck/include/ck_pflock.h:102-104 | entering when the words agree keeps the invariant: a writing thread owns the lock and all readers ahead of it have left |
| `Pflock.WaitingInv` | ext/libck/include/ck_pflock.h:132-134 | entering when the writer bits differ from those seen keeps the invariant: a reading thread is ahead of the owner, if there is one |
| `Pflock.StepInv` | ext/libck/include/ck_pflock.h:69-140 | every step keeps words, tickets and counts in agreement |
| `Pflock.RunInv` | ext/libck/include/ck_pflock.h:69-140 | the agreement holds after every schedule |
| `Pflock.WriterExcludesAll` | ext/libck/include/ck_pflock.h:84-108 | while a thread writes no other thread reads or writes |
| `Pflock.AtMostOneWriter` | ext/libck/include/ck_pflock.h:119-140 | while a reader waits at most one writer begins |
| `Pflock.BegunCounts` | ext/libck/include/ck_pflock.h:84-108 | the count of writers begun rises by one exactly when a thread acquires the write lock |
| `Pflock.PhaseFair` | ext/libck/include/ck_pflock.h:119-140 | a waiting reader enters at its next step if and only if a write unlock has happened since its read_lock, whoever has announced itself since |
| `Pflock.ReadsAtOnce` | ext/libck/include/ck_pflock.h:124-130 | a read_lock succeeds at its first step if and only if no writer has announced itself and not unlocked |
| `Pflock.SomebodyMoves` | ext/libck/include/ck_pflock.h:69-140 | when nobody holds the lock and somebody wants it, some thread can move |
| `Pflock.WritesAlone` | ext/libck/include/ck_pflock.h:84-108 | with nobody else at the lock a writer enters after three steps |

## Left out

- Memory ordering: each atomic access is one step on sequentially consistent memory; fences are not modelled.
- Words: counters are unbounded integers, except in the phase-fair lock, in the probe bounds, in the line jumps of the closed hash set and in the size computations; masks with a power of two less one are written as remainders.
- Pointers, items and keys: a key is an integer with an arbitrary hash function, an item a key with a tag; pointer packing (CK_RHS_PP, CK_HS_PP) is not modelled.
- Waiting loops spin by steps that change nothing; fairness of the scheduler and progress under contention are not stated, except that the barriers and the phase-fair lock are never stuck.
- Internal.MapSize: doubles an unbounded number in a loop, whereas the code rounds a 32-bit word with shifts; Internal.SizeIsPower shows that both agree exactly up to 2^31 entries.
- EpochSafety.CallbackSafe: excludes the exit that EpochCounterexample.JustifiedCallbacks shows to be unsafe, and callbacks deferred by callbacks of the same dispatch, for which EpochCallbacks.SameDispatchSafe gives the exact condition.
- EpochSafety.SynchronizeSafe: excludes the exit that EpochCounterexample.JustifiedExits shows to be unsafe.
- Epoch: `ck_epoch_reclaim` called on its own and the peak statistics; a record is not unregistered by a callback; sections with and without a section object are not mixed on one record at the same time, and poll and synchronize are not called inside a section.
- BarrierTournament.InitRoles: says nothing of the table entries after a thread's defeat, which the code leaves unset.
- RhsMap.Rhs.Remove: promises that lookups still reach every other key only if no probe bound was saturated, because otherwise they may not; RhsRemoval.MaximumExact and RhsSaturation.OneHomeExact give the exact conditions.
- RhsMap.Rhs.Put: requires that lookups reach every key, as they do unless a removal has lost some; then RhsSearch.FindRoom says which keys an insertion finds, and one that it does not find is stored a second time, which the map of contents does not express. RhsRemoval.NoneHiddenAlone shows that it finds all of them where all keys have one home.
- RhsMap.Rhs.TryPut: the same.
- RhsDisplace.Displace: displacement chains have no length limit; past 512 victims (CK_RHS_MAX_RH) the code goes on without displacing, from the home of the victim before, which is not modelled.
- RhsCounters.AddWanted: the counter does not saturate at 65535; RhsSaturation.CountFits shows that it cannot while the probe maximum is at most 255.
- RhsCounters.RemoveWanted: does not saturate either, for the same reason.
- RhsDisplace.FindChain: has no limit of 512 victims, like RhsDisplace.Displace.
- RhsRemoval.LosesKeys: with 65536 or more keys of one hash value the counters of the code saturate, which is not modelled.
- Robin Hood set: read-mostly mode, put_unique, set, fetch-and-store, apply, iteration, reset, move, garbage collection, the load-factor setter, allocation failure, and lookups that overlap the writer with their generation counters.
- Robin Hood set: the mark of the first displaced entry stays set after a chain of several moves, as in the code; nothing stated depends on it.
- Closed hash set: only the mode with probe bounds (CK_HS_MODE_DELETE) is modelled; put_unique, apply, iteration, reset, move and the tombstone counter are not.
- Closed hash set: the map's words are a sequence that each store replaces, not an array; the allocator is a budget of successful allocations; in operations other than lookups no other thread writes.
- HpStack: one hazard pointer per record, as the stack uses; what a store past the end of a reclamation's array does to the record's next field is not modelled; reclamation may start at any time, not only past the threshold; try variants, purge, and unregistering with nodes pending are not modelled.
- HpStack.NotDestroyedInUse: with more than 512 records it does not hold, as HpOverflow.RecordsExact shows.
- Fifo: entries are not reused after they leave the queue, so the generation counters are not stressed; the try variants and the single-producer queue are not modelled.
- Ring: the copy of a value is one step, the counters do not wrap around, and a failed enqueue that was disturbed is not claimed to mean that the ring was full; the single-producer and single-consumer forms and the size results are not modelled.
- Pflock: fewer than 2^24 readers and 2^32 writers are outstanding at any time, the capacity of the words.
- The other structures of the library (hash table, spin locks, cohort and elided locks, bitmaps, the other barriers) and the file system daemon that the repository builds around it are not modelled.
