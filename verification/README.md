# A verified model of llingr-demux

llingr-demux consumes partitioned logs, fans records out to one worker per key, and commits, per
partition, only as far as every record has been completed. This project models the parts that carry its
promises and proves those promises over whole runs:

| file | models |
|---|---|
| `WorkItems.dfy`, `GapOrder.dfy`, `ComparisonSort.dfy` | work items; sorting and de-duplicating a gap buffer, by any comparison sort |
| `Tracker.dfy` (module `PartitionTracker`) | one partition's commit state and its atomic steps, as functions |
| `Committer.dfy` | the offset committer as a mutable object, each method proved against those functions |
| `Stamps.dfy` | predecessor stamping in the poll loop |
| `Rebalance.dfy` | the rebalance handler |
| `RebalanceProtocol.dfy`, `OwnershipProjection.dfy` | handler, ticker and ingest as threads with the committer mutex between them, and what one partition sees of it |
| `World.dfy` (module `PartitionWorld`) | log, broker, ownership, poll loop, in-flight work and tracker as one state machine |
| `Soundness.dfy` | what every step keeps without exception: true stamps, offsets within the log |
| `Safety.dfy`, `StampReset.dfy` | no loss, and the one event that breaks it |
| `DeferredWalk.dfy` | the deferred flush: a lowered flag never hides a walk that could go on |
| `Monotone.dfy`, `Ownership.dfy` | the committed position never regresses; every epoch starts clean |
| `Liveness.dfy`, `Progress.dfy`, `Stranding.dfy`, `StallExactly.dfy` | no permanent stall, its one exception, eventual completeness, soundness of repair |
| `Quiescence.dfy`, `QuietRuns.dfy` | what is left when a run comes to rest |
| `Epoch.dfy` | within one epoch the committer refines "longest completed prefix" |
| `Conservation.dfy`, `Canonical.dfy`, `Twins.dfy` | every work item accounted for; the flush is canonical |
| `Pipeline.dfy`, `DrainWorkers.dfy`, `DrainCommitter.dfy`, `EndToEnd.dfy` | dispatcher and workers, tokens, the two drains, and all of it joined |
| `RingBuffer.dfy` | the metrics window |
| `Shutdown.dfy` | the breaker's election and the single shutdown notice |
| `Scenarios.dfy` | concrete runs from a fresh start that reach the behaviours the exact conditions shut out |

`dafny verify dfyconfig.toml` checks everything.

## How the pieces fit

`PartitionTracker` defines each mutex-held step of the committer as a function on a value. `Committer`
is the imperative code (fields updated in place, loops over the partition map in any order, the repair's
filter reading and writing one array), and each method's postcondition is that function applied to the old
state. `PartitionWorld` surrounds one partition's tracker with everything that can happen around it:
appends, compaction and retention, other owners, assigns with a known or an unknown baseline and with or
without a revoke before them, revokes, fencing, rewinds, deliveries, completions of this or any earlier
epoch, batch ends, and ticks whose commit is accepted, refused, or applied and reported failed. A run is
any sequence of enabled steps. `Ownership.TickIsCommitOffsets` and `Ownership.StepsAreMethods` say that
the world's steps are what the methods do, so the run theorems are about the imperative code. That the
world may treat a tick with a commit in flight as excluding resets, marks and completions is derived from
the threads and their mutex: every run of the protocol projects, partition by partition, to the world's
ownership steps under the world's own guards (`OwnershipProjection.ProtocolProjects`,
`OwnershipProjection.ProtocolDrives`). `EndToEnd` joins poll loop, workers, committer and one partition; its
runs project to the world's too (`EndToEnd.Projects`).

A run is called regular when no tick in it strands the epoch the run ends in; stranding is described below.

The library sort is unstable. Steps that sort carry the outcome, any order the comparator allows, and
theorems hold for every outcome.

Assumptions about the environment, all visible as guards in `PartitionWorld.Can`:

- After an assign, delivery starts at the first existing record at or after the committed position.
- Records append at the end of the log and are otherwise only removed.
- One goroutine polls and dispatches, and no polled record straddles an assign's stamp reset
  (demux/subscription/subscription_rebalance.go:142-144).
- One goroutine handles rebalance events, so an assign's reset and mark are not interleaved with another
  event's.
- Read times of an epoch are later than those of earlier epochs, and never go back within one.
- An assign's baseline is the broker's position, or negative when it is unknown.
- A broker that has fenced this consumer refuses its commits.

## Promises that do not hold as stated

Each has a concrete failing run and the exact condition under which the code meets it.

- An assign event that names no partition clears the stamps of every partition and resets no baseline
  (`Rebalance.ForgottenStampsAreRestarted`, `Stamps.AssignClearsOnlyItsPartitions`). The next record is
  then stamped First and can be committed over records still in flight
  (`Scenarios.EmptyAssignLosesARecord`). No record is lost if and only if everything read so far was
  completed (`StampReset.StampResetExactly`); with every reset so drained nothing is lost over whole runs
  (`Safety.NoLoss`). Such an event is accepted and acknowledged
  (demux/subscription/subscription_test.go:1627-1654).
- The `drained` token promises that everything handed over was ingested. The emptiness test and the send
  are two steps while workers send without the mutex, so a drain can start on a verdict that is already
  out of date (`DrainCommitter.StaleVerdictReachable`, `DrainCommitter.TokenExitExactly`). The grace exit
  has its own failing run and condition (`DrainCommitter.HeldAtGraceEnds`, `DrainCommitter.GraceExitExactly`).
- With an unknown baseline a stale First moves the committed position back
  (`Scenarios.UnknownBaselineRegresses`, `Monotone.RegressionExactly`). The repository accepts this one
  (demux/offset/committer_model_test.go:29-36). So does an assign that no revoke preceded, when it finds a
  Ready below the position (`Scenarios.UnrevokedAssignRegresses`, `Monotone.ResetRegressionExactly`).
- A partition can stall for good: a stale First that completes between reset and mark anchors the epoch
  above records it is about to read, and a tick in that window throws the anchor away
  (`Scenarios.StrandedStalls`). Cleared stamps make such Firsts too, so it happens even with real baselines
  and a position that never moves (`Scenarios.RealBaselineStalls`). That tick is the only cause
  (`StallExactly.StrandingExactly`). It cannot happen in a run that never moves the position back and that
  clears a stamp only when everything read under it is committed or gone (`Stranding.MonotoneIsRegular`).
- "At quiescence the gap buffer is empty" (demux/offset/committer_model_test.go:54): not with an orphan
  whose predecessor record was removed (`Scenarios.OrphanStaysBuffered`, `Quiescence.QuiescentExactly`).
- The reported minimum latency forgets a zero as soon as anything follows it: latencies 0 and 5 are reported
  as 5 (`RingBuffer.MinForgetsZero`, `RingBuffer.WindowMinExactly`).
- "A trip in any window reaches the host" (demux/demux_consumer_emergency.go:26-27): a Shutdown that found
  no callback silences it (`Shutdown.EarlyShutdownSilences`), and a trip that the observer has not
  recorded yet is reported as a clean end (`Shutdown.TripToldAsClean`). What the host hears follows from
  the order of steps (`Shutdown.TripToldExactly`).

The comment on `MarkPartitionRevoked` (demux/offset/committer.go:179-180) says it runs after the
acknowledgement. The handler calls it before (demux/subscription/subscription_rebalance.go:84-93), and
the model follows the handler.

## Model

| member | source | states |
|---|---|---|
| `Safety.NoLoss` | demux/offset/committer_process.go:49-138 | over every run from a fresh start that clears no stamp above an uncompleted record, whatever was ever in the log between the group's start and the committed position (or the commit in flight) was completed by this consumer or another owner, or removed |
| `Safety.StepSafe` | demux/offset/committer_process.go:182-231 | each step of log, broker, poll loop and committer keeps the no-loss invariant, through First, positional, linkage and repair promotions |
| `Safety.ArriveSafe` | demux/offset/committer_process.go:49-138 | a completion keeps everything at or below Ready, the baseline and the last commit covered |
| `Safety.WalkSafe` | demux/offset/committer_process.go:182-231 | the batch-end walk never promotes over an uncompleted surviving record |
| `Safety.RepairSafe` | demux/offset/committer_repair.go:85-127 | promotion by either proof of the repair keeps coverage |
| `Safety.StampedExtends` | demux/pipeline/prev/prev_partition_offsets.go:56-89 | a stamp true of the log when given stays true after any appends, removals and completions |
| `Safety.RunSafe` | demux/offset/send_commits.go:64-142 | the no-loss invariant over every run whose all-partitions stamp resets each find the partition drained |
| `Soundness.StepSound` | demux/pipeline/prev/prev_partition_offsets.go:56-104 | every step, the clearing of stamps included, keeps stamps true of the log, tracked offsets within it, and the poll loop one past its stamp |
| `StampReset.StampResetExactly` | demux/pipeline/prev/prev_partition_offsets.go:96-99 | clearing a marked partition's stamp, fenced or not, with or without a commit in flight, keeps no-loss in every continuation if and only if every surviving record read so far is completed |
| `StampReset.ResetLoses` | demux/subscription/subscription_rebalance.go:64-65 | otherwise some continuation commits over an uncompleted record |
| `Scenarios.EmptyAssignLosesARecord` | demux/subscription/subscription_rebalance.go:201-207 | a concrete run from a fresh start in which an empty assign event ends in the loss of a record |
| `Monotone.PositionNeverRegresses` | demux/offset/send_commits.go:94-134 | over every run, assigns without a revoke and cleared stamps included, in which no stale First and no kept Ready below the position meets an unknown baseline, the committed position never moves back, failed-but-applied commits included |
| `Monotone.StepMono` | demux/offset/committer_process.go:49-54 | each step keeps the floor under the next commit at or above the committed position |
| `Monotone.RealBaselinesNeverRegress` | demux/offset/committer.go:118-159 | with real baselines no completion and no assign can be a regressive one |
| `Monotone.RealBaselinesMonotone` | demux/offset/send_commits.go:94-134 | with real baselines, between any two moments of any run from a fresh start without a rewind, cleared stamps included, the position does not move back |
| `Monotone.RegressionExactly` | demux/offset/committer_process.go:49-54 | a First anchoring an unknown baseline moves the position back if and only if the chain the buffer links to it ends below the committed record |
| `Monotone.ResetRegressionExactly` | demux/offset/committer.go:118-159 | an assign with an unknown baseline on a marked partition moves the position back at the next tick if and only if no revoke marked the tracker, a Ready survived, and its chain ends below the committed record |
| `DeferredWalk.FlagHidesNothingOverRuns` | demux/offset/committer_process.go:168-244 | over every run, repairs, refused commits, orphans and unrevoked assigns included, and every outcome of the sort, a flush ends at the candidate it would reach with the deferred flag raised, and that is where the links lead |
| `DeferredWalk.TickCommitsChainOverRuns` | demux/offset/send_commits.go:64-142 | an accepted tick of any run with a candidate at or above the baseline commits the end of the chain the buffer links to it |
| `DeferredWalk.StepWalked` | demux/offset/committer_repair.go:106-130 | each step keeps, with the flag down, whatever the walk could promote out of its reach |
| `Scenarios.UnknownBaselineRegresses` | demux/offset/committer_process.go:49-54 | a concrete run from a fresh start in which the position moves back without a rewind |
| `Scenarios.UnrevokedAssignRegresses` | demux/offset/committer.go:137-159 | a concrete run in which an assign without a revoke moves the position back with no completion involved |
| `Ownership.SilentUntilMarked` | demux/subscription/subscription_rebalance.go:82-95 | in the partition's world, from its unmarking until it is marked again, no commit is in flight or issued and only others move its position |
| `RebalanceProtocol.NoCommitAfterRevoke` | demux/subscription/subscription_rebalance.go:76-95 | over every interleaving of handler, ticker and ingest: at most one caller is committing, a commit names only owned partitions reset since their revoke, and none whose revoke is being or has been acknowledged, whose tracker keeps the revoke's mark until an assign resets it |
| `RebalanceProtocol.SilentUntilMarked` | demux/offset/send_commits.go:54-75 | from a revoke's acknowledgement until the next mark no commit names the partition |
| `RebalanceProtocol.AcknowledgedIsSilent` | demux/subscription/subscription_rebalance.go:82-95 | the same from the step that acknowledges a revoke naming it, whatever run came before |
| `OwnershipProjection.ProtocolProjects` | demux/subscription/subscription_rebalance.go:54-95 | every run of handler, ticker and ingest, as any one partition sees it, is a run of the world's ownership steps: resets, marks, revokes and ticks each under the guard the world puts on it |
| `OwnershipProjection.WorldIsSkeleton` | demux/offset/committer.go:104-196 | the world's guards on ownership and the mutex are exactly those of these steps, and so are its changes of owner and of commits in flight |
| `OwnershipProjection.ProtocolDrives` | demux/offset/send_commits.go:42-75 | after any run of the protocol, a world in the same position can take every step matching the protocol's next one, and then stands where the protocol does |
| `RebalanceProtocol.StepOk` | demux/offset/send_commits.go:42-75 | each lock, unlock, mark, reset and broker call keeps mutual exclusion and the ownership invariant |
| `Ownership.EpochStartsClean` | demux/offset/committer.go:104-162 | whatever run came before, an assign's reset leaves nothing behind, and hands all of it back, if and only if a revoke preceded it or there was nothing to keep |
| `Ownership.TickIsCommitOffsets` | demux/offset/send_commits.go:42-150 | a tick of the world is what CommitOffsets does to one partition, with the broker's answer |
| `Ownership.StepsAreMethods` | demux/offset/committer.go:104-196 | arrivals, batch-end flushes, resets and revoke marks of the world are what the methods do |
| `Progress.TickProgress` | demux/offset/send_commits.go:64-142 | with everything delivered completed and the last delivery uncommitted, every accepted tick strictly reduces the held items, orphans sorted in front or not |
| `Progress.TicksComplete` | demux/offset/send_commits.go:64-142 | as many accepted ticks as held items commit everything the epoch delivered |
| `Progress.EventuallyCommitted` | demux/offset/committer_model_test.go:52-53 | the same after any regular run from a fresh start, stale Firsts, cleared stamps, rewinds and unrevoked assigns included |
| `Progress.UncommittedIsProvable` | demux/offset/committer_repair.go:87-103 | with the flag spent and Ready empty, the lowest uncommitted delivery satisfies a proof of the repair |
| `Progress.EpochCommitted` | demux/offset/committer_process.go:105-109 | once Ready is empty and no flush is pending, an epoch whose First completed has committed up to its baseline |
| `Progress.BaselineAgrees` | demux/offset/committer_model_test.go:58-59 | right after every accepted commit of a regular run the baseline, the last committed record and the broker's position agree |
| `Progress.RepairSound` | demux/offset/committer_repair.go:69-130 | no surviving record lies between the last commit and the promoted item; every pruned item is covered or gone from the log; everything else stays buffered |
| `Liveness.StepLive` | demux/offset/committer_process.go:105-109 | each step, cleared stamps included, except a tick that strands the epoch, keeps every completed delivery committed, below Ready or the baseline, or buffered, and the baseline gripped or below the epoch |
| `Liveness.StepBase` | demux/pipeline/prev/prev_partition_offsets.go:56-104 | every step without exception keeps the epoch's deliveries a chain of ascending stamps, dated apart from orphans |
| `Liveness.RunLive` | demux/offset/send_commits.go:64-142 | the liveness invariant at the end of every run in which each tick that strands an epoch is followed by another assign |
| `StallExactly.StrandingExactly` | demux/offset/send_commits.go:67-75 | after a tick between reset and mark no regular continuation, cleared stamps included, stalls if and only if it did not discard an anchor with a record of the epoch below it |
| `Stranding.MonotoneIsRegular` | demux/offset/send_commits.go:67-75 | a run that rewinds nothing, takes no regressive step and clears a stamp only when everything read under it is committed or gone has no such tick |
| `Scenarios.StrandedStalls` | demux/offset/committer_process.go:49-57 | a concrete run to a stall: everything delivered completed, the position below it, and every tick the identity |
| `Scenarios.RealBaselineStalls` | demux/subscription/subscription_rebalance.go:64-65 | another with real baselines, no rewind, no other owner and the position at 0 throughout, through an empty assign between two deliveries |
| `Quiescence.QuiescentExactly` | demux/offset/committer_model_test.go:54 | with everything delivered completed, one more accepted tick than held items leaves Ready and the buffer empty if and only if no offset cuts the buffer; what is left are orphans above the last delivery stamped above the last commit |
| `Quiescence.SettlesOrFalls` | demux/offset/send_commits.go:64-142 | in any state, an accepted tick retires a held item or finds nothing left to do |
| `Quiescence.SettledHolds` | demux/offset/committer_repair.go:60-67 | when nothing is left to do everything delivered is committed, and every buffered item is provably not the successor |
| `QuietRuns.QuiescentOverRuns` | demux/offset/committer_model_test.go:52-59 | at the rest of any regular run from a fresh start: the exact condition for an empty tracker, and baseline, last commit and broker position agree |
| `QuietRuns.CleanEpochEmpties` | demux/offset/committer_model_test.go:54 | it empties whenever the epoch's assign found nothing in flight |
| `QuietRuns.CompleteLogEmpties` | demux/offset/committer_model_test.go:54 | it empties whenever nothing was removed and the log is delivered to its end, orphans or not |
| `Scenarios.OrphanStaysBuffered` | demux/offset/committer_repair.go:62-67 | a concrete run at rest with the whole log committed, whose buffer no number of ticks empties |
| `Epoch.BatchBoundaryIsCompletedPrefix` | demux/offset/committer_process.go:168-244 | after an assign with nothing in flight and nothing kept, for every completion order, batching and pattern of broker failures, the frontier at a batch boundary is exactly the end of the longest completed prefix |
| `Epoch.TickCommitsCompletedPrefix` | demux/offset/send_commits.go:64-142 | a tick commits exactly that, sends nothing exactly when it is committed already, and the repair takes no part |
| `Epoch.RunExact` | demux/offset/committer_process.go:76-164 | throughout the epoch the tracker encodes two numbers, committed and walked deliveries, and the deferred flag is up whenever the walk could go on |
| `Epoch.WalkEncodes` | demux/offset/committer_process.go:182-231 | the walk stops exactly at the first delivery that has not completed |
| `Epoch.RepairInert` | demux/offset/committer_repair.go:85-106 | within one epoch the repair finds no candidate |
| `Conservation.WorkItemsConserved` | demux/offset/committer_process.go:189-240 | over any run, arrivals are as a multiset the returned, held and dropped items, and drops never exceed duplicate-offset arrivals |
| `Conservation.RunAccount` | demux/offset/committer_process.go:302-308 | every operation moves items between those fates and loses none; every dropped item leaves a survivor of its offset |
| `Conservation.DuplicatesCount` | demux/offset/committer_process.go:267-272 | duplicate-offset arrivals are arrivals minus distinct offsets |
| `Conservation.RepairRearranges` | demux/offset/committer_repair.go:110-124 | the in-place filter splits the buffer into pruned, kept and the successor |
| `Twins.FlushCanonicalOverRuns` | demux/offset/committer_process.go:168-273 | over every run, what a flush does depends only on which items are buffered, not on completion order or the unstable sort |
| `Twins.StepApart` | demux/offset/committer_process.go:259-264 | each step keeps twins apart: no two items of one offset were read at the same time |
| `Canonical.FlushCanonicalExactly` | demux/offset/committer_process.go:168-273 | for an arbitrary buffer, a flush is canonical if and only if no offset has two different latest-read items |
| `Canonical.CompactionAgrees` | demux/offset/committer_process.go:247-273 | without such ties every sorted order compacts to the same buffer |
| `Canonical.CanSurvive` | demux/offset/committer_process.go:262-264 | any latest-read twin survives in some order the unstable sort may produce |
| `Canonical.FlushIsIdempotent` | demux/offset/committer_process.go:168-244 | flagging and flushing again changes nothing |
| `Canonical.FlushedBuffer` | demux/offset/committer_process.go:233-242 | what a flush leaves is strictly ascending and sorts back to itself with nothing dropped |
| `GapOrder.CompactStrict` | demux/offset/committer_process.go:267-272 | de-duplicated offsets strictly increase |
| `GapOrder.CompactKeepsLatest` | demux/offset/committer_process.go:259-264 | every offset survives, by an item read no earlier than any other of that offset |
| `GapOrder.CompactSplits` | demux/offset/committer_process.go:269-271 | kept and dropped items together are the sorted buffer |
| `ComparisonSort.DuplicatesAreMet` | demux/offset/committer_process.go:248-265 | any comparison sort has compared two items of one offset exactly when the buffer has two, so the flag set in the comparator misses no duplicate |
| `ComparisonSort.SortAndCompact` | demux/offset/committer_process.go:247-273 | for any library sort, the result is the compaction of a sorted permutation |
| `GapOrder.SortGapBuffer` | demux/offset/committer_process.go:247-273 | strictly ascending offsets, only buffered items, every buffered offset represented by a latest-read item; shown here for an insertion sort |
| `GapOrder.CompactRuns` | demux/offset/committer_process.go:269-271 | the loop keeps the first item of every run of equal offsets |
| `PartitionTracker.WalkKeeps` | demux/offset/committer_process.go:182-231 | the walk never lowers Ready and loses no item above it or the baseline |
| `PartitionTracker.WalkSettles` | demux/offset/committer_process.go:207-230 | where the walk stopped, walking again stops at once |
| `PartitionTracker.TwinReplaces` | demux/offset/committer_process.go:121-133 | a second completion of the candidate's offset takes its place and the older one is handed back |
| `Committer.OffsetsTracker.constructor` | demux/offset/committer.go:111-116 | a fresh tracker at its baseline with nothing committed |
| `Committer.Committer.constructor` | demux/offset/committer.go:79-84 | for any validated concurrency the steady-state buffer size is at least 1 |
| `Committer.Committer.ReturnMessage` | demux/offset/committer_process.go:302-308 | one more return, counted once, on behalf of one partition |
| `Committer.Committer.AddToGapBuffer` | demux/offset/committer_process.go:142-147 | append at the end |
| `Committer.Committer.AdvanceThroughGapBuffer` | demux/offset/committer_process.go:152-164 | the flag goes up exactly when some buffered item names the new Ready |
| `Committer.Committer.CheckAndAdvance` | demux/offset/committer_process.go:69-139 | the in-place update is the arrival step |
| `Committer.Committer.ProcessCommit` | demux/offset/committer_process.go:24-57 | a completion changes its partition by the arrival step and no other partition; a missing tracker starts unanchored |
| `Committer.Committer.WalkBuffer` | demux/offset/committer_process.go:182-242 | the loop is the walk, and the rest of the buffer stays |
| `Committer.Committer.FlushTracker` | demux/offset/committer_process.go:171-242 | one flagged buffer is flushed for some outcome of the sort |
| `Committer.Committer.FlushGapBuffers` | demux/offset/committer_process.go:168-244 | every partition is flushed, in any iteration order |
| `Committer.Committer.ResizeGapBuffer` | demux/offset/committer_process.go:277-297 | the copied contents are the old ones; the unbounded loop terminates at the least multiple, from four on, above the length |
| `Committer.Committer.Reallocate` | demux/offset/committer_process.go:290-292 | the new array starts with the old contents |
| `Committer.Committer.FindSuccessor` | demux/offset/committer_repair.go:85-103 | the scan finds the reference successor |
| `PartitionTracker.SuccessorProvable` | demux/offset/committer_repair.go:85-103 | the successor is buffered, satisfies a proof, and is the lowest that does; there is none only if nothing is provable |
| `PartitionTracker.SuccessorEarliest` | demux/offset/committer_repair.go:85-103 | among provable items of the lowest offset it is the one buffered first |
| `Committer.Committer.KeepAbove` | demux/offset/committer_repair.go:110-124 | reading and writing one array, the filter keeps exactly the items at or above the successor in order and returns those below |
| `Committer.Committer.PruneBelow` | demux/offset/committer_repair.go:108-124 | the buffer becomes that kept prefix of its backing array |
| `Committer.Committer.RepairSuccessor` | demux/offset/committer_repair.go:68-130 | the in-place repair is the repair step |
| `Committer.Committer.DiscardOrphanedTracker` | demux/offset/send_commits.go:176-199 | an unassigned partition's Ready and buffer are all handed back |
| `Committer.Committer.CollectTracker` | demux/offset/send_commits.go:77-104 | repair, stale-Ready discard, and the offset to commit |
| `Committer.Committer.AcknowledgeTracker` | demux/offset/send_commits.go:122-142 | the success path for one partition |
| `Committer.Committer.CollectCommits` | demux/offset/send_commits.go:66-105 | over all partitions: who is discarded, who is repaired, and exactly what goes to the broker |
| `Committer.Committer.AcknowledgeCommits` | demux/offset/send_commits.go:122-142 | exactly the committed partitions are acknowledged |
| `Committer.Committer.CommitOffsets` | demux/offset/send_commits.go:42-150 | the whole tick: flush, collect, one broker call, acknowledge on success; an error exactly on a guard timeout, which changes nothing, or on a refused non-empty commit |
| `Committer.Committer.ResetTracker` | demux/offset/committer.go:118-159 | the in-place reset is the reset step |
| `Committer.Committer.ResetCommittedOffsets` | demux/offset/committer.go:104-162 | exactly the named partitions restart at their baselines |
| `Committer.Committer.MarkPartitionAssigned` | demux/offset/committer.go:172-177 | the partition is owned; no tracker changes |
| `Committer.Committer.MarkPartitionRevoked` | demux/offset/committer.go:184-196 | the partition is not owned and its tracker carries the revoke mark; no other changes |
| `Stamps.StampChain` | demux/pipeline/prev/prev_partition_offsets.go:56-89 | told from the offered offsets alone: which are accepted, which one is First, that every other stamp is the highest earlier offset, and which error each rejected one gets |
| `Stamps.StampsLink` | demux/pipeline/prev/prev_partition_offsets.go:56-89 | two accepted records with none accepted between are linked; rejected ones leave the chain intact |
| `Stamps.EntryIsHighest` | demux/pipeline/prev/prev_partition_offsets.go:65-78 | the map entry is the highest real offset offered since the reset |
| `Stamps.PartitionOffsets.GetPrevious` | demux/pipeline/prev/prev_partition_offsets.go:56-89 | the stamp or the error, and only this partition's entry moves |
| `Stamps.PartitionOffsets.Reset` | demux/pipeline/prev/prev_partition_offsets.go:92-104 | the named entries are forgotten, or all when none is named |
| `Stamps.AssignClearsOnlyItsPartitions` | demux/pipeline/prev/prev_partition_offsets.go:92-104 | a reset forgets only named partitions if and only if it names one or there is nothing to forget |
| `Rebalance.Subscription.HandleRebalance` | demux/subscription/subscription_rebalance.go:26-103 | a foreign topic, exactly then, or an unknown type touches nothing; otherwise the full effect on stamps, baselines and ownership, all in place when the broker is answered; it trips exactly on a foreign topic or a failed drain |
| `Rebalance.Subscription.HandleAssign` | demux/subscription/subscription_rebalance.go:54-74 | stamps, baselines and marks before the acknowledgement, whose failure is reported and changes nothing else |
| `Rebalance.Subscription.HandleRevoke` | demux/subscription/subscription_rebalance.go:76-95 | the final commit, then marks, then the acknowledgement, whether or not the drain succeeded; a failed drain trips |
| `Rebalance.Subscription.FindForeign` | demux/subscription/subscription_rebalance.go:31-38 | a foreign topic is found exactly when some entry names a topic other than the consumer's own; an empty name is none |
| `Rebalance.Subscription.BaselineMap` | demux/subscription/subscription_rebalance.go:213-219 | the baselines of the event |
| `Rebalance.LastBaselineWins` | demux/subscription/subscription_rebalance.go:213-219 | a partition named twice gets its last baseline |
| `Rebalance.ForgottenStampsAreRestarted` | demux/subscription/subscription_rebalance.go:60-65 | every forgotten stamp has its baseline reset if and only if the event names a partition or there was no stamp |
| `Pipeline.PerKeyOrder` | demux/pipeline/processor_demux.go:91-163 | over every interleaving, handler calls of a key are a prefix of its dispatches and never overlap, across retirement, pool reuse and full-channel retries |
| `Pipeline.TokenLedger` | demux/pipeline/worker.go:111-149 | over every interleaving, guard and overflow occupancy is the dispatcher's token plus one per unreleased worker; no release blocks; live keys stay within capacity |
| `Pipeline.StepOwned` | demux/pipeline/worker.go:121-151 | each step keeps one worker per live key, serving only that key |
| `Pipeline.StepLedger` | demux/pipeline/processor.go:106-128 | each step keeps the token ledger, the abandoned send included |
| `Pipeline.StepOrdered` | demux/pipeline/processor_demux.go:98-163 | each step keeps, per key, dispatched = received + pending, and until a trip received = handed over + in hand |
| `Pipeline.OnlyHandledIsHandedOver` | demux/pipeline/worker.go:87-98 | over every interleaving, trips included, nothing is handed to the committer whose handler did not run, and per key what is handed over is a prefix of the handler calls |
| `Pipeline.StepHandled` | demux/pipeline/worker.go:87-98 | each step keeps that, and a running handler is of the message next after those handed over |
| `Pipeline.ReleasesNeverBlock` | demux/pipeline/worker.go:139-144 | whoever is about to give a token back finds one in its channel |
| `Pipeline.SendsNeverBlock` | demux/pipeline/processor_demux.go:98-163 | over every interleaving a channel that is sent to has room, and none ever holds more than its buffer |
| `DrainWorkers.DrainComplete` | demux/pipeline/processor_demux.go:188-208 | with polling stopped and no trip, when the drain returns every message ever dispatched was handed to the committer, per key in dispatch order |
| `DrainWorkers.DrainReturns` | demux/pipeline/worker.go:129-150 | from every state of a drain, tripped or not, steps of the workers and of the drain lead to its end, with no key left, every token given back, every worker pooled or shut down, and no trip added |
| `DrainWorkers.DrainReturnsOverRuns` | demux/pipeline/processor_demux.go:188-208 | so after any run from a fresh start, a drain with polling stopped can return, however far it has come |
| `EndToEnd.DrainEndToEnd` | demux/drain/drain_coordinator.go:87-114 | poll loop, workers, channel, ingest and tracker as one machine from the start of the process: at the end of any of its drains, left by the token on no stale verdict and without a trip, everything handed over is ingested, nothing is in flight and the tracker's flag is down unless a tick or a reset came after the last batch; in an epoch that began settled the accepted final commit covers every record delivered |
| `EndToEnd.DrainLeavesNothingToWalk` | demux/offset/committer_ingest.go:54-65 | then no flush would move the commit candidate, for every outcome of the sort |
| `EndToEnd.CompletedWasHandled` | demux/pipeline/worker.go:87-98 | a record is completed in its tracker only if its handler ran, tripped or not |
| `EndToEnd.DrainThenTicks` | demux/subscription/subscription_rebalance.go:76-95 | in any epoch of a regular run, orphans of failed drains or not, as many accepted ticks as held items after such a drain leave the position past every record delivered |
| `EndToEnd.NextEpochExact` | demux/subscription/subscription_rebalance.go:60-95 | after such a drain and the revoke's mark, whatever happens until then, the next assign starts an epoch in which the final commit covers everything |
| `EndToEnd.Projects` | demux/subscription/subscription_polling_loop.go:34-71 | what the joint machine does to the partition is a run of the partition's own machine |
| `EndToEnd.StepOk` | demux/offset/committer_drain.go:18-62 | each step of that machine, pausing, resuming and rebalancing included, keeps handed = finished, polled = dispatched + carried, and in flight = polled and not ingested |
| `EndToEnd.DrainedSendsNothing` | demux/pipeline/worker.go:129-137 | once the workers are drained none sends to the committer |
| `DrainWorkers.MoveInv` | demux/pipeline/worker.go:225-231 | every live key is in a shard still to be scanned or its worker is being waited for |
| `DrainCommitter.StepWhole` | demux/offset/committer_ingest.go:47-78 | nothing handed over is lost, repeated or reordered on its way through the ingest loop |
| `DrainCommitter.TokenExitExactly` | demux/offset/committer_ingest.go:51-78 | a drain with the workers done exits by the token only with exactly what was handed over ingested and flushed, if and only if it does not start on an out-of-date emptiness verdict |
| `DrainCommitter.StaleVerdictReachable` | demux/offset/committer_ingest.go:54-65 | such a verdict is reachable from a fresh start |
| `DrainCommitter.GraceExitExactly` | demux/offset/committer_drain.go:31-48 | the grace exit finds exactly what was handed over ingested and flushed if and only if the ingest loop does not hold a received completion |
| `DrainCommitter.CommitterDrainEndsOverRuns` | demux/offset/committer_drain.go:18-62 | from any moment of any drain of the committer, the ingest loop's steps and its own lead to an exit without the timeout and without another completion |
| `DrainCommitter.HeldAtGraceEnds` | demux/offset/committer_ingest.go:47-53 | a run in which it does |
| `RingBuffer.MetricsRingBuffer.Record` | demux/offset/committer_metrics.go:55-83 | an event is filed under the running maximum of epochs, whatever its own time, and the ring stays the window of its history |
| `RingBuffer.MetricsRingBuffer.Advance` | demux/offset/committer_metrics.go:86-100 | the window moves to the new epoch; skipped epochs read empty, the others keep their events |
| `RingBuffer.MetricsRingBuffer.WindowData` | demux/offset/committer_metrics.go:105-135 | slot i counts exactly the events, and the dead letters, filed under epoch last-(N-1-i); the totals are the sums over the events of the last N epochs, the maxima the greatest of their durations or zero where none is positive, the minimum the slots' minima merged |
| `RingBuffer.WindowMinExactly` | demux/offset/committer_metrics.go:78-80 | for non-negative latencies the reported minimum is the window's least if and only if a zero, when there is one, came last |
| `RingBuffer.MinForgetsZero` | demux/offset/committer_metrics.go:78-80 | a concrete window with latencies 0 and 5 whose reported minimum is 5 |
| `RingBuffer.SummaryMax` | demux/offset/committer_metrics.go:72-77 | the maxima of any range of epochs bound every event filed there and are attained, or zero |
| `RingBuffer.SummaryTotals` | demux/offset/committer_metrics.go:66-71 | for any range of epochs, told from the events filed there: their number, their dead letters, and the sums of their processing times and latencies |
| `RingBuffer.WindowMoves` | demux/offset/committer_metrics.go:86-100 | clearing the skipped slots and moving the index moves the window, for any jump |
| `RingBuffer.WindowAdds` | demux/offset/committer_metrics.go:61-82 | adding to the current slot adds the event to the history |
| `RingBuffer.SummarySplits` | demux/offset/committer_metrics.go:120-128 | merging slots gives the counts, totals and maxima of the joined epochs |
| `Shutdown.NotifiedOnce` | demux/demux_consumer_emergency.go:31-93 | over every interleaving of trips, Shutdown calls and the observer: at most one callback, none without a registration, exactly one once claimed and settled, a told reason is the cause of the first trip of the run, nil only from a Shutdown, no channel closed twice, no blocked send, and the latch shows only that cause |
| `Shutdown.TripIsFirstCause` | demux/circuitbreaker/circuit_breaker.go:92-118 | over every run the elected reason is the cause given by the first trip, unspecified exactly when that gave none |
| `Shutdown.ReasonIsStable` | demux/circuitbreaker/circuit_breaker.go:133-142 | once the latch is seen the reason never changes |
| `Shutdown.ReturnReleasesObserver` | demux/demux_consumer_shutdown.go:50-84 | a Shutdown that has returned without its drain timing out has left the token the observer ends on, or the observer is gone |
| `Shutdown.TripToldExactly` | demux/demux_consumer_shutdown.go:77-80 | over every interleaving that settles after a trip the host is told its cause, once, if and only if the observer claims first or the claiming Shutdown reads the reason after it was recorded; otherwise it hears a clean end if anyone claimed, and nothing if not |
| `Shutdown.NoticeRun` | demux/demux_consumer_emergency.go:68-76 | what a claiming Shutdown tells is what was recorded when it read, whatever happens in between |
| `Shutdown.ClaimDecides` | demux/demux_consumer_emergency.go:83-93 | the notification belongs to whoever claims first |
| `Shutdown.NoticeGuaranteedExactly` | demux/demux_consumer_emergency.go:25-42 | some notice reaches the host in every run that settles if and only if the callback was registered before anything raced; the trip itself is never guaranteed |
| `Shutdown.EarlyShutdownSilences` | demux/demux_consumer_shutdown.go:50-55 | a run in which a Shutdown without a callback retires the observer and a later trip is never told |
| `Shutdown.TripToldAsClean` | demux/demux_consumer_emergency.go:68-76 | a run that settles with a finished trip told as a clean end |
| `Shutdown.StepInv` | demux/circuitbreaker/circuit_breaker.go:92-118 | each step keeps one winner and one notice |

## Left out

- Committer.Committer.ResizeGapBuffer: does not fix the capacity the runtime picks when it grows a slice, only the lower bound it guarantees.
- Committer.Committer.AddToGapBuffer: does not fix the grown capacity either.
- Committer.Committer.PruneBelow: the backing array is made explicit for the filter only; elsewhere a buffer is its contents, so an append that shares an array with an older slice is not modelled.
- GapOrder.SortGapBuffer: the committer class sorts by insertion; that the duplicate flag works for any comparison sort is ComparisonSort.DuplicatesAreMet.
- Pipeline.PerKeyOrder: the shard maps are one map, because a key always hashes to the same shard and lock.
- Rebalance.Subscription.HandleRevoke: of the drain it models the final commit and how the drain ended; the drain itself is EndToEnd.DrainEndToEnd.
- DrainCommitter.GraceExitExactly: the 10 ms grace period is a step that may happen at any time, so the condition says what timing must guarantee.
- 64-bit overflow of offsets and counters; offsets are unbounded integers, and only the narrowing of the window's counters is modelled.
- MinOffsetSeen and MaxOffsetSeen, which nothing in the commit path reads.
- Trait flags, log lines, metrics time stamps and the collector's own pipeline.
- Rate limiting, worker pruning and warm-up, object pools, the FNV hash.
- Configuration parsing, licence verification, the HTTP snapshot and JSON.
- Any other reader of the breaker's payload channel: the observer is the only one here.
- Fairness: completeness counts accepted ticks, not time, and that a drain returns means that from each of its states steps lead to its end, not that a scheduler takes them.
