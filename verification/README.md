# Ambitious: verified model of the runtime's stateful cores

Ambitious is an Erlang/OTP-style runtime written in Rust. This project models its stateful cores in Dafny and
proves what they promise, mostly over whole runs of several parties:

| files | what they model |
|---|---|
| `presence_state`, `presence_crdt`, `presence_invariant` | the presence CRDT of one replica: an observed-remove set without tombstones, as a class proved against specification functions, and its invariant |
| `presence_algebra` | laws of merge, extract and the queries |
| `presence_convergence`, `presence_settling` | any number of replicas broadcasting deltas: convergence, why its two provisos are needed, and that waiting for causal order never blocks |
| `presence_anti_entropy` | replicas exchanging extracts: nothing is lost, nothing comes back, and when an exchange reconciles |
| `presence_failures` | runs that reach the failing side of the exact conditions |
| `job_queue`, `job_runs`, `job_scheduling` | the job queue; its runs with workers, timers, a FIFO mailbox and crashes; what dispatching, backpressure and the worker pool come to |
| `app_graph`, `app_controller` | dependency resolution, ordered start and reverse-ordered shutdown |
| `set_maps`, `process_groups`, `group_sync` | process groups of one node, and the membership protocol between nodes |
| `channel_server`, `channel_runs` | the channels of one client on top of its process groups |
| `atom_table`, `atom_threads` | interning, one call at a time and under every interleaving of threads |
| `framing` | length-prefixed frames and their reassembly from a chunked stream |
| `registry` | the local process registry, unique and duplicate |
| `node_monitors`, `node_monitor_runs` | monitors on remote nodes, and their whole histories |
| `pids`, `options`, `sequences` | process identifiers, optional values, sequences without repetition |

Objects the source updates in place are classes whose methods keep the source's loops and are proved equal to
specification functions on the object's state. The theorems are about those functions: single-operation laws,
invariants, and runs. A run is a sequence of states and a sequence of steps between them; every run theorem holds
for all numbers of parties, all interleavings the step relation allows, and at every point of the run.

How the outside appears in the model: what a start function, a channel handler, a worker, `alive`, a spawn or the
connection table answers is a parameter, so the theorems hold for every answer; what is sent out is appended to a log
(`out`, `outgoing`, `log`, `sent`, `ended`); the arbitrary iteration order of hash maps is an arbitrary choice.

## Results that say when the code does not do what one may expect

Each is proved as an exact condition (first name), and its failing side is shown to be reachable by a run, a history or
a concrete input (second name):

- A pending presence delta that holds a join and a leave of one tag leaves a peer with an entry that the sender no
  longer holds, because leaves run before joins; merging such a delta twice differs from merging it once:
  `NoLeaverStaysInRunIff`, `BroadcastFaithfulIff`, `MergeIdempotentIff`; `UncleanRun`.
- A presence delta merged after another one loses exactly the joins that the other one's context covers, because a merge
  raises the whole context. A later delta of the same sender covers them all; a delta whose sender had not merged the
  overtaken one covers none: `OvertakenIff`, `OvertakenInRunIff`; `OvertakenRun`. The comment on out-of-order arrival in
  `merge` (crates/ambitious/src/presence/crdt.rs:368-372) is right within one delta only.
- Exchanging extracts makes two replicas agree exactly when neither holds an entry that the other has seen and no longer
  holds, because extracts carry no removals: `ExchangeAgreesIff`, `ExchangeInRunIff`; `DisagreeingRun`.
- Two leave-free deltas commute exactly when they agree on the new tags both contexts cover: `MergeCommutesIff`;
  `DisagreeingRun`.
- A join that its delta's context does not cover comes back after a leave: `UncoveredJoinReturnsIff`;
  `UncoveredJoinReturns`. No delta a replica sends is like that.
- `stop_all` is documented to stop all running applications (crates/ambitious/src/application/core.rs:208-211); it
  leaves running exactly those whose dependencies no longer resolve: `StopAll`; `ReregisteredStaysUp`.
- Beyond 2^32 strings, atoms of different strings coincide: `AtomsDistinctIff`, `GetGivesBackIff`; `AtomsRunOut`, which
  by `EveryLegalHistoryRuns` happens in a run of threads.
- A frame whose payload has 2^32 bytes or more does not parse back: `RoundTripIff`; `HugeFrameMisread`,
  `HugePayload`.

## Model

| member | source | states |
|---|---|---|
| `PresenceCrdt.PresenceCrdt.constructor` | crates/ambitious/src/presence/crdt.rs:154-165 | A new replica has clock 0, knows itself at 0, and holds, hides and owes nothing. |
| `PresenceCrdt.PresenceCrdt.Track` | crates/ambitious/src/presence/crdt.rs:180-214 | The new state is `Track` of the old one; the tag returned carries the raised clock. |
| `PresenceCrdt.PresenceCrdt.Untrack` | crates/ambitious/src/presence/crdt.rs:219-257 | The new state is `Untrack` of the old one; exactly the tags of the process's entries under that topic and key are returned, in order. |
| `PresenceCrdt.PresenceCrdt.UntrackAll` | crates/ambitious/src/presence/crdt.rs:262-296 | The new state is `UntrackAll` of the old one, and the removed entries are returned grouped by topic, through the real nested loops over listed slots and shrinking buckets. |
| `PresenceCrdt.PresenceCrdt.UntrackSlot` | crates/ambitious/src/presence/crdt.rs:270-282 | The inner in-place loop: one bucket loses exactly the entries of the process, each recorded as a leave and under its topic. |
| `PresenceCrdt.PresenceCrdt.Merge` | crates/ambitious/src/presence/crdt.rs:365-435 | The new state is `Merge` of the old one; the joins reported are the accepted ones in order; the leaves reported are exactly the removed entries, as often as held. |
| `PresenceCrdt.PresenceCrdt.MergeLeaves` | crates/ambitious/src/presence/crdt.rs:374-388 | Removing tag by tag is removing all entries with any of the tags, each reported once. |
| `PresenceCrdt.PresenceCrdt.MergeTheJoins` | crates/ambitious/src/presence/crdt.rs:393-424 | Joins are judged by the context from before the merge; values, pid index and report follow `TakeJoins`. |
| `PresenceCrdt.PresenceCrdt.MergeContext` | crates/ambitious/src/presence/crdt.rs:426-432 | Clock by clock in any order, the context becomes the pointwise larger one. |
| `PresenceCrdt.PresenceCrdt.RemoveEverywhere` | crates/ambitious/src/presence/crdt.rs:523-532 | The removal loop over all buckets takes out exactly the selected entries and reports each as often as it was held. |
| `PresenceCrdt.PresenceCrdt.Extract` | crates/ambitious/src/presence/crdt.rs:440-457 | The delta lists exactly the entries newer than the given context, as often as held, no leaves, and the whole context. |
| `PresenceCrdt.PresenceCrdt.ExtractAll` | crates/ambitious/src/presence/crdt.rs:460-471 | The delta lists every entry as often as held, no leaves, and the whole context. |
| `PresenceCrdt.PresenceCrdt.List` | crates/ambitious/src/presence/crdt.rs:301-322 | The map is the listing of the topic: its buckets without entries of down replicas, emptied keys left out. |
| `PresenceCrdt.PresenceCrdt.ReplicaUp` | crates/ambitious/src/presence/crdt.rs:474-490 | The status changes and nothing else; the replica's entries are returned exactly if it was down. |
| `PresenceCrdt.PresenceCrdt.ReplicaDown` | crates/ambitious/src/presence/crdt.rs:493-517 | The status changes and nothing else; the replica's entries are returned exactly if it was not down. |
| `PresenceCrdt.PresenceCrdt.RemoveDownReplica` | crates/ambitious/src/presence/crdt.rs:520-541 | Exactly the replica's entries go and are returned; its status is forgotten; context and pid index stay. |
| `PresenceCrdt.PresenceCrdt.TakeDelta` | crates/ambitious/src/presence/crdt.rs:550-556 | Gives the pending delta, if it is not empty, and resets it. |
| `PresenceCrdt.TakeOut` | crates/ambitious/src/presence/crdt.rs:524-531 | The in-place remove-while-iterating loop keeps the unselected entries in order and takes out the selected ones in order. |
| `PresenceState.Without` | crates/ambitious/src/presence/crdt.rs:231 | The kept part of a bucket has exactly the entries not selected, and no new duplicates. |
| `PresenceState.Only` | crates/ambitious/src/presence/crdt.rs:224-228 | The removed part of a bucket has exactly the selected entries, and no new duplicates. |
| `PresenceState.OtherSlots` | crates/ambitious/src/presence/crdt.rs:245 | The pid index keeps exactly the slots other than the one untracked. |
| `PresenceState.JoinContext` | crates/ambitious/src/presence/crdt.rs:426-432 | The merged context has for every replica the larger of the two clocks, and so dominates both. |
| `PresenceInvariant.FreshInv` | crates/ambitious/src/presence/crdt.rs:154-165 | A new replica satisfies the invariant and holds nothing. |
| `PresenceInvariant.SplitBucket` | crates/ambitious/src/presence/crdt.rs:231 | Kept and removed entries together are the bucket, as multisets. |
| `PresenceInvariant.TrackEntries` | crates/ambitious/src/presence/crdt.rs:180-214 | A track adds exactly one entry, with a tag never used, and keeps the whole invariant (tags covered and unique, context of oneself equal to the clock, pid index covering the values). |
| `PresenceInvariant.UntrackEntries` | crates/ambitious/src/presence/crdt.rs:219-257 | An untrack removes exactly the process's entries under that topic and key. |
| `PresenceInvariant.UntrackAllEntries` | crates/ambitious/src/presence/crdt.rs:262-296 | Although it looks only where the pid index points, and that index may be stale or list a slot twice, an untrack of everything removes and reports exactly the process's entries, each once. |
| `PresenceInvariant.TakeJoinsAccepted` | crates/ambitious/src/presence/crdt.rs:393-424 | The joins reported are exactly those not dominated and not held, each once. |
| `PresenceInvariant.MergeEntries` | crates/ambitious/src/presence/crdt.rs:365-435 | After a merge exactly the entries held before and not told to leave, and the joins not seen before, are held, and the pid index covers them. |
| `PresenceInvariant.MergeOutcome` | crates/ambitious/src/presence/crdt.rs:365-435 | A merge of an acceptable delta keeps the invariant, clock and pending delta, joins the contexts and holds the merged entries. |
| `PresenceInvariant.RemoveDownReplicaInv` | crates/ambitious/src/presence/crdt.rs:520-541 | Purging a replica keeps the invariant although the pid index stays stale. |
| `PresenceAlgebra.MergeConserves` | crates/ambitious/src/presence/crdt.rs:365-435 | For any delta whatever: entries before plus reported joins equal entries after plus reported leaves, as multisets. |
| `PresenceAlgebra.MergeNothing` | crates/ambitious/src/presence/crdt.rs:365-435 | A delta that brings nothing new changes nothing at all. |
| `PresenceAlgebra.MergeIdempotentIff` | crates/ambitious/src/presence/crdt.rs:365-435 | Merging twice is merging once exactly when no join still new to the state is a leave of the same delta; the second report is then empty. |
| `PresenceAlgebra.MergeCommutesIff` | crates/ambitious/src/presence/crdt.rs:365-435 | Leave-free deltas merge to the same context in either order, and to the same entries exactly when they agree on the new tags that the other covers. |
| `PresenceAlgebra.OvertakenIff` | crates/ambitious/src/presence/crdt.rs:393-432 | A join new to the state, merged only after another delta that does not bring it, is kept exactly when the other delta's context does not cover it. |
| `PresenceAlgebra.ExtractJoins` | crates/ambitious/src/presence/crdt.rs:440-457 | An extract holds exactly the entries the given context does not cover, and is well formed. |
| `PresenceAlgebra.FullExtractJoins` | crates/ambitious/src/presence/crdt.rs:460-471 | A full extract holds exactly the entries held, and is well formed. |
| `PresenceAlgebra.ExtractRefinesFull` | crates/ambitious/src/presence/crdt.rs:365-471 | Merging an extract for one's own context gives the same entries, context and report as merging everything, and keeps the invariant (so the pid index covers the values) either way. |
| `PresenceAlgebra.ExtractAdds` | crates/ambitious/src/presence/crdt.rs:365-471 | Merging an extract, or a full one, adds exactly the sender's entries that the receiver has not seen. |
| `PresenceAlgebra.ExchangeAgreesIff` | crates/ambitious/src/presence/crdt.rs:365-471 | After merging each other's extracts, or full ones, two replicas hold the same entries exactly when neither held an entry that the other had seen and no longer held. |
| `PresenceAlgebra.ListingExact` | crates/ambitious/src/presence/crdt.rs:301-322 | An entry is listed under its key exactly if it is held, belongs to the topic and its replica is not down. |
| `PresenceAlgebra.ListingKeyed` | crates/ambitious/src/presence/crdt.rs:301-322 | Every listed entry stands under its own key as often as it is held, and no key is listed without entries. |
| `PresenceAlgebra.DownHides` | crates/ambitious/src/presence/crdt.rs:493-517 | After a replica is marked down its entries are listed no more and all others as before; no other replica's status changes. |
| `PresenceAlgebra.UpShows` | crates/ambitious/src/presence/crdt.rs:474-490 | After a replica is marked up all its entries are listed and all others as before. |
| `PresenceAlgebra.PurgeExact` | crates/ambitious/src/presence/crdt.rs:520-541 | A purge drops exactly the replica's entries and forgets its status, so what it sends later is listed; context and pending delta stay. |
| `PresenceAlgebra.DownThenUp` | crates/ambitious/src/presence/crdt.rs:474-517 | Marking a visible replica down and up again restores every listing. |
| `PresenceAlgebra.ByTopicExact` | crates/ambitious/src/presence/crdt.rs:275-278 | The grouped result holds every removed entry under its own topic, as often as removed. |
| `PresenceAlgebra.ByTopicOrder` | crates/ambitious/src/presence/crdt.rs:275-278 | Within each topic the grouped result has the removed entries in order of removal; a topic without any is not there. |
| `PresenceAlgebra.IndexExact` | crates/ambitious/src/presence/crdt.rs:241-291 | Untracking takes exactly one slot of the process out of the pid index, untracking everything exactly all of them. |
| `PresenceAlgebra.UntrackAllExact` | crates/ambitious/src/presence/crdt.rs:262-296 | Afterwards the process holds nothing, nobody else lost anything, and the pending leaves gained exactly the removed tags, each once. |
| `PresenceConvergence.DeliverNode` | crates/ambitious/src/presence/crdt.rs:365-435 | Merging the next delta of a peer in causal order leaves a replica holding exactly what its merged and sent deltas determine. |
| `PresenceConvergence.RedeliverNode` | crates/ambitious/src/presence/crdt.rs:365-435 | Merging an already merged delta again changes nothing. |
| `PresenceConvergence.BroadcastNode` | crates/ambitious/src/presence/crdt.rs:550-556 | Taking and sending the pending delta turns what was pending into what peers will be told, with nothing changed locally. |
| `PresenceConvergence.RunOk` | crates/ambitious/src/presence/crdt.rs:180-435 | In every run of tracks, untracks, broadcasts, deliveries and repeated deliveries the cluster invariant holds at every replica. |
| `PresenceConvergence.Converges` | crates/ambitious/src/presence/crdt.rs:180-435 | Once all deltas have been sent and merged everywhere, every replica holds exactly the entries ever tracked whose tags were never removed, and its context has every replica's clock. |
| `PresenceConvergence.SameDeltasSameEntries` | crates/ambitious/src/presence/crdt.rs:365-435 | Before that point, replicas that have merged the same deltas hold the same entries. |
| `PresenceConvergence.BroadcastFaithfulIff` | crates/ambitious/src/presence/crdt.rs:374-424 | A peer that has merged exactly the deltas that the sender had merged or sent, and then merges the pending one, ends with the sender's entries exactly when that delta has no join and leave of one tag. |
| `PresenceConvergence.NoLeaverStaysIff` | crates/ambitious/src/presence/crdt.rs:374-424 | Whatever a peer has merged before: after merging a pending delta it holds no entry that the delta tells to leave exactly when the delta has no join and leave of one tag. |
| `PresenceConvergence.NoLeaverStaysInRunIff` | crates/ambitious/src/presence/crdt.rs:374-424 | The same for any two replicas at any point of any run. |
| `PresenceConvergence.OvertakenJoinsLost` | crates/ambitious/src/presence/crdt.rs:393-432 | A delta merged after any later delta of its own sender brings none of its joins. |
| `PresenceConvergence.OvertakenKept` | crates/ambitious/src/presence/crdt.rs:393-432 | Of a delta not merged yet, merged after any other delta, exactly the joins that the other one's context does not cover are kept. |
| `PresenceConvergence.OvertakenCovers` | crates/ambitious/src/presence/crdt.rs:427-432 | A later delta of the same sender covers every join of an earlier one; a delta whose sender had not merged the other one covers none of its joins. |
| `PresenceConvergence.OvertakenInRunIff` | crates/ambitious/src/presence/crdt.rs:393-432 | In any run, for any delta not merged yet and any other delta of the same or another sender merged before it: a join is kept exactly when the other one's context does not cover it, with both cases told apart by sender and dependencies. |
| `PresenceSettling.FindDeliverable` | crates/ambitious/src/presence/crdt.rs:365-435 | Waiting for causal order never blocks: a replica that has not merged some delta may merge some delta now. |
| `PresenceSettling.CanSettle` | crates/ambitious/src/presence/crdt.rs:365-556 | Every run whose pending deltas may be sent has a continuation by sending and delivering alone that is settled, where every replica holds exactly the entries ever tracked and never removed. |
| `PresenceFailures.UncleanRun` | crates/ambitious/src/presence/crdt.rs:374-424 | A run in which the sender holds nothing, the peer that merges its pending delta holds the entry, and merging it again changes the peer again. |
| `PresenceFailures.OvertakenRun` | crates/ambitious/src/presence/crdt.rs:393-432 | A run with two sent deltas that, merged the other way round, lose the join of the first. |
| `PresenceAntiEntropy.ActKeeps` | crates/ambitious/src/presence/crdt.rs:180-556 | Every operation keeps the invariant, lets the context only grow, and brings no covered and absent tag back. |
| `PresenceAntiEntropy.NoResurrection` | crates/ambitious/src/presence/crdt.rs:180-556 | Over any run fed by well-formed deltas, a tag once covered and absent never reappears. |
| `PresenceAntiEntropy.PurgedStaysGone` | crates/ambitious/src/presence/crdt.rs:520-541 | What is purged with a replica never returns through any later well-formed operation, even when the replica sends its entries again. |
| `PresenceAntiEntropy.UncoveredJoinReturnsIff` | crates/ambitious/src/presence/crdt.rs:393-432 | Why deltas must cover their joins: a join told to leave returns with its delta exactly when the delta's context does not cover it. |
| `PresenceAntiEntropy.RunOk` | crates/ambitious/src/presence/crdt.rs:180-541 | In every run of local operations, purges, status changes and extracts merged late, repeatedly and in any order, the network invariant holds. |
| `PresenceAntiEntropy.NothingLost` | crates/ambitious/src/presence/crdt.rs:365-541 | With purges and up and down marks among the steps: every issued entry whose tag a replica has seen is held there, or was removed by some untrack, or was purged somewhere with its replica; what is held was issued. |
| `PresenceAntiEntropy.HiddenByHistory` | crates/ambitious/src/presence/crdt.rs:474-541 | After any operations a replica is hidden exactly when it was marked down and neither marked up nor purged since. |
| `PresenceAntiEntropy.TagsGloballyUnique` | crates/ambitious/src/presence/crdt.rs:191-198 | Entries with one tag at any two replicas are one entry. |
| `PresenceAntiEntropy.ExtractNeverRemoves` | crates/ambitious/src/presence/crdt.rs:440-471 | Merging an extract removes no entry; `ExchangeInRunIff` says when an exchange makes replicas agree. |
| `PresenceAntiEntropy.ExchangeInRunIff` | crates/ambitious/src/presence/crdt.rs:365-471 | For any two replicas at any point of a run, an exchange of extracts makes them agree exactly when neither held an entry the other had seen and dropped; in particular when nothing they hold was untracked or purged. |
| `PresenceFailures.DisagreeingRun` | crates/ambitious/src/presence/crdt.rs:365-471 | A run that reaches two leave-free extracts whose order of merging decides what is held, and two replicas that an exchange of extracts leaves apart. |
| `PresenceFailures.UncoveredJoinReturns` | crates/ambitious/src/presence/crdt.rs:393-432 | A concrete join that comes back after a leave because its delta's context does not cover it. |
| `JobQueue.JobQueue.DoDispatchNext` | examples/job_queue/src/queue.rs:190-210 | The dispatch loop is `DispatchNext`: the worker idle last gets the job waiting longest, dead workers are forgotten. |
| `JobQueue.JobQueue.DoEnqueue` | examples/job_queue/src/queue.rs:178-188 | A full queue rejects the job and changes nothing else; otherwise the job goes last and dispatching runs. |
| `JobQueue.JobQueue.DoEnqueueBatch` | examples/job_queue/src/queue.rs:118-122 | A batch is enqueued job by job, each with its own dispatching. |
| `JobQueue.JobQueue.DoHandleJobResult` | examples/job_queue/src/queue.rs:212-243 | The worker is freed, a success settles its job, a failure or crash sends it to retry, and dispatching runs. |
| `JobQueue.JobQueue.DoSendToRetry` | examples/job_queue/src/queue.rs:245-267 | One retry more; dead-lettered beyond the third, otherwise on a timer of 1, 2 or 4 seconds. |
| `JobQueue.JobQueue.DoSpawnWorker` | examples/job_queue/src/queue.rs:275-296 | A spawned worker is tracked, idle and dispatched to; a failed spawn changes nothing. |
| `JobQueue.JobQueue.DoRemoveIdleWorker` | examples/job_queue/src/queue.rs:298-303 | The worker idle last is untracked and terminated, if there is one. |
| `JobQueue.JobQueue.DoHandleDown` | examples/job_queue/src/queue.rs:148-165 | An untracked worker's death is ignored; a tracked one is forgotten, its job goes to retry, and a replacement is spawned. |
| `JobQueue.DispatchGrows` | examples/job_queue/src/queue.rs:190-210 | Dispatching takes back nothing already sent. |
| `JobQueue.Except` | examples/job_queue/src/queue.rs:154-155 | Retaining the others keeps exactly the other workers, without new duplicates. |
| `JobRuns.AssignOk` | examples/job_queue/src/queue.rs:197-203 | Handing a pending job to an idle worker that lives keeps the whole invariant; in particular it overwrites no job in flight. |
| `JobRuns.DispatchOk` | examples/job_queue/src/queue.rs:190-210 | A whole dispatch keeps the invariant and ends with no idle worker or no pending job. |
| `JobRuns.RunOk` | examples/job_queue/src/queue.rs:140-303 | The invariant of queue, workers, mailbox and timers holds at every point of every run. |
| `JobRuns.JobsConserved` | examples/job_queue/src/queue.rs:140-303 | At every point of every run, each job is, as often as it was submitted, in exactly one of: mailbox, pending, in flight, on a retry timer, completed, dead-lettered, rejected. |
| `JobRuns.DispatchesBounded` | examples/job_queue/src/queue.rs:190-267 | At most four dispatches for each submission, none with more than three retries behind it. |
| `JobRuns.LiveJobsYoung` | examples/job_queue/src/job.rs:51 | Every live, completed or rejected job has at most three retries; dead-lettered ones have exactly used them up. |
| `JobRuns.SchedulingHolds` | examples/job_queue/src/queue.rs:178-303 | Accepted jobs are the dispatched ones followed by the pending ones, in order; idle workers and pending jobs are never both there; pending never exceeds 100; the tracked workers are exactly the idle and the busy ones, each once, so a job is pending only while every tracked worker is busy; the first, second and third retry wait 1, 2 and 4 seconds. |
| `JobRuns.NoJobStranded` | examples/job_queue/src/queue.rs:140-243 | A job in flight is with its living worker, or the worker's result for it or its Down message is in the mailbox. |
| `JobScheduling.DispatchExact` | examples/job_queue/src/queue.rs:190-210 | A dispatch sends as many jobs as there are pending jobs and living idle workers: the longest waiting first, to the workers that became idle last; what is left of both stays in order. |
| `JobScheduling.DispatchInFlight` | examples/job_queue/src/queue.rs:197-207 | What a dispatch puts in flight was sent to that worker, which was idle and answered; what was in flight stays. |
| `JobScheduling.TrackedExact` | examples/job_queue/src/queue.rs:140-303 | For every message: a worker is tracked afterwards exactly if it was and did not die or get dismissed, or was spawned on request or in place of a tracked worker that died; workers that do not answer may be forgotten. |
| `JobScheduling.RejectsOnlyWhenFull` | examples/job_queue/src/queue.rs:178-188 | In every run a job is rejected exactly when 100 accepted jobs have not been dispatched, and accepted only when fewer have not. |
| `JobScheduling.ResultReported` | examples/job_queue/src/queue.rs:212-243 | A result is reported first, as what it was and under its job's number. |
| `JobScheduling.TerminatesExactly` | examples/job_queue/src/queue.rs:140-303 | Of all messages only a removal tells a worker to stop, and exactly the one idle last. |
| `AppController.VisitDeps` | crates/ambitious/src/application/core.rs:298-333 | The recursive visitor appends only reachable names, each after its dependencies, and on failure reports a dependency walk from the path that closes a cycle, or a reachable unregistered name; registered names off the path are the termination measure. |
| `AppController.Controller.Register` | crates/ambitious/src/application/core.rs:106-118 | The application is registered with its dependencies; nothing else changes. |
| `AppController.Controller.ResolveDependencies` | crates/ambitious/src/application/core.rs:285-295 | Succeeds exactly when everything reachable is registered and acyclic; then gives a duplicate-free topological order of exactly the reachable names, the requested one last; errors are real cycles and really missing names. |
| `AppController.Controller.StartWithConfig` | crates/ambitious/src/application/core.rs:126-180 | Applications are started only while all their dependencies run, failing midway or not, each with the configuration given for it; exactly the conditions for success; what runs afterwards and with which configuration; each error says what is true: already running, a real cycle, a reachable missing name, or the refusal of a reachable application whose dependencies all run; resolution errors change nothing. |
| `AppController.Controller.StartOrder` | crates/ambitious/src/application/core.rs:139-177 | The startup loop, ended by the first refusal, whose message it gives. |
| `AppController.Controller.StopApp` | crates/ambitious/src/application/core.rs:183-206 | Stops an application if it runs and says whether it did. |
| `AppController.Controller.StopAll` | crates/ambitious/src/application/core.rs:212-247 | For any iteration order, dependents stop before their dependencies; every running application that resolves is stopped exactly once, with its own pid, and nothing else is; exactly the running applications that do not resolve stay. |
| `AppController.ReregisteredStaysUp` | crates/ambitious/src/application/core.rs:106-118 | Registering a running application anew with a circular dependency leaves it running after `stop_all`. |
| `AppController.Controller.StartupOrderOfRunning` | crates/ambitious/src/application/core.rs:222-237 | The accumulated order with errors ignored is a startup order that has exactly the running names that resolve. |
| `AppController.Controller.StopReversed` | crates/ambitious/src/application/core.rs:239-246 | Stopping in the reverse order stops every dependent before what it depends on, each running application of the order exactly once and with its own pid. |
| `AppGraph.OrderedResolves` | crates/ambitious/src/application/core.rs:285-333 | Names in a startup order resolve, and reach only names no later in it. |
| `AppGraph.WalkDescends` | crates/ambitious/src/application/core.rs:298-333 | Along any dependency walk, positions in a startup order strictly decrease. |
| `AppGraph.CycleNotResolvable` | crates/ambitious/src/application/core.rs:285-333 | A reported cycle is proof that the name does not resolve. |
| `AppGraph.MissingNotResolvable` | crates/ambitious/src/application/core.rs:285-333 | A reachable name that is not registered is proof that the name does not resolve. |
| `AppGraph.OrderedAppend` | crates/ambitious/src/application/core.rs:298-333 | Appending a name after all its dependencies keeps a startup order. |
| `AppController.LaterNotDependent` | crates/ambitious/src/application/core.rs:239-246 | No name in a startup order depends, however indirectly, on a later one. |
| `ProcessGroups.ProcessGroups.constructor` | crates/ambitious/src/distribution/pg.rs:83-88 | A node starts without memberships. |
| `ProcessGroups.ProcessGroups.Join` | crates/ambitious/src/distribution/pg.rs:93-111 | Exactly one membership is added, the two indexes stay inverse, and a join of a local process is broadcast. |
| `ProcessGroups.ProcessGroups.Leave` | crates/ambitious/src/distribution/pg.rs:116-142 | Exactly one membership goes, no empty entry stays in either index, and a leave of a local process is broadcast. |
| `ProcessGroups.ProcessGroups.LeaveAll` | crates/ambitious/src/distribution/pg.rs:147-166 | A membership stays exactly if it is of another process; a message is sent only if there were any and the process is local. |
| `ProcessGroups.ProcessGroups.RemoveAll` | crates/ambitious/src/distribution/pg.rs:148-157 | The loop over the reverse index deletes exactly the process's memberships. |
| `ProcessGroups.ProcessGroups.HandleMessage` | crates/ambitious/src/distribution/pg.rs:198-283 | A membership is known afterwards exactly if it was and the message does not take it out (its leave, or its process leaving everything), or the message puts it in (its join, or a roster that lists it); a sync request is answered with exactly the local memberships if the asker is connected. |
| `ProcessGroups.ProcessGroups.RemoveNodeMembers` | crates/ambitious/src/distribution/pg.rs:288-314 | Exactly the memberships of the gone node's processes are deleted. |
| `ProcessGroups.ProcessGroups.RequestSync` | crates/ambitious/src/distribution/pg.rs:317-346 | A connected node is asked for its memberships and sent exactly the local ones, unless there are none. |
| `ProcessGroups.ProcessGroups.LocalRoster` | crates/ambitious/src/distribution/pg.rs:240-249 | The roster lists exactly the local memberships, one line per group and no empty line. |
| `ProcessGroups.ProcessGroups.AddRoster` | crates/ambitious/src/distribution/pg.rs:272-280 | Exactly the listed memberships are added. |
| `ProcessGroups.ProcessGroups.GetMembers` | crates/ambitious/src/distribution/pg.rs:169-174 | Exactly the members of the group. |
| `ProcessGroups.ProcessGroups.WhichGroups` | crates/ambitious/src/distribution/pg.rs:185-190 | Exactly the groups of the process. |
| `ProcessGroups.MembersOf` | crates/ambitious/src/distribution/pg.rs:169-174 | The processes in a group are exactly those with that membership. |
| `ProcessGroups.ApplyExact` | crates/ambitious/src/distribution/pg.rs:198-283 | What a message does to one membership, without the set operations that do it. |
| `SetMaps.InverseWith` | crates/ambitious/src/distribution/pg.rs:96-103 | Adding a pair to both indexes keeps them inverse and free of empty entries. |
| `SetMaps.InverseWithout` | crates/ambitious/src/distribution/pg.rs:117-134 | Removing a pair from both indexes keeps them inverse and free of empty entries. |
| `GroupSync.ApplyHead` | crates/ambitious/src/distribution/pg.rs:198-283 | Handling the oldest message of a link leaves unchanged what view and link together lead to. |
| `GroupSync.GreetingHarmless` | crates/ambitious/src/distribution/pg.rs:317-346 | A snapshot of the sender's memberships queued behind everything in flight changes nothing in the end. |
| `GroupSync.RunOk` | crates/ambitious/src/distribution/pg.rs:93-346 | The cluster invariant holds at every point of every run of joins, leaves, syncs, connects and disconnects. |
| `GroupSync.ViewsAgree` | crates/ambitious/src/distribution/pg.rs:93-346 | While two nodes are connected, the peer's view of a node's processes with everything in flight applied is exactly the node's own membership, so a quiet link means equal views; about an unconnected node nothing is known. |
| `GroupSync.QuietClusterAgrees` | crates/ambitious/src/distribution/pg.rs:93-346 | With all nodes connected and all links quiet, all nodes have one view. |
| `GroupSync.OwnByHistory` | crates/ambitious/src/distribution/pg.rs:93-166 | In every run a node counts a process of its own to a group exactly when the process joined there and has neither left the group nor everything since. |
| `GroupSync.ViewByHistory` | crates/ambitious/src/distribution/pg.rs:93-346 | A node connected over a quiet link counts it to the group exactly by the same history. |
| `GroupSync.LeftEverywhere` | crates/ambitious/src/distribution/pg.rs:147-166 | A process that left everything and joined nothing since is in no view: its own node's, a node's that is connected over a quiet link, or a node's that is not connected. |
| `ChannelServer.MatchesExactly` | crates/ambitious/src/channel/core.rs:736-749 | A topic matches a pattern that equals it or whose final star it fills in; the wildcard part is exactly what fills it in. |
| `ChannelServer.FirstMatchExactly` | crates/ambitious/src/channel/core.rs:1088-1090 | A handler is chosen exactly if its pattern is the topic or a prefix of it followed by a star and no earlier handler's is; none is chosen exactly if no pattern is. |
| `ChannelServer.ChannelServer.FindHandler` | crates/ambitious/src/channel/core.rs:1088-1090 | The first registered handler whose pattern matches. |
| `ChannelServer.ChannelServer.HandleJoin` | crates/ambitious/src/channel/core.rs:1093-1142 | A join takes effect exactly if the topic is not joined, some handler matches and the first that does accepts; the answer says which; effects are the group membership and one new instance. |
| `ChannelServer.ChannelServer.HandleEvent` | crates/ambitious/src/channel/core.rs:1145-1196 | Events for topics not joined are dropped; a stop leaves the topic; broadcasts reach exactly the group's members, once each, without the sender where asked. |
| `ChannelServer.ChannelServer.HandleLeave` | crates/ambitious/src/channel/core.rs:1199-1209 | A joined topic is left, its instance told once, and the group left; otherwise nothing happens. |
| `ChannelServer.ChannelServer.DoBroadcast` | crates/ambitious/src/channel/core.rs:1212-1245 | One copy to every member of the topic's group except those named, and to nobody else. |
| `ChannelServer.ChannelServer.Terminate` | crates/ambitious/src/channel/core.rs:1248-1257 | All joined topics are left one after the other, each instance told once why, and none stays joined. |
| `ChannelServer.GroupsDiffer` | crates/ambitious/src/channel/core.rs:1125 | Different topics have different groups. |
| `ChannelRuns.RunOk` | crates/ambitious/src/channel/core.rs:1093-1257 | In every run, with any activity of other processes, every instance ever made runs for one topic or was told exactly once that it ended. |
| `ChannelRuns.MemberIffJoined` | crates/ambitious/src/channel/core.rs:1093-1257 | In every reachable state the client is in a topic's group exactly when the topic is joined. |
| `ChannelRuns.EveryJoinEndsOnce` | crates/ambitious/src/channel/core.rs:1248-1257 | After termination every successful join has been answered by exactly one terminate call and the client is in no channel group. |
| `ChannelRuns.EndedWasJoined` | crates/ambitious/src/channel/core.rs:1199-1257 | Every terminate call answers a successful join, whose instance no longer runs. |
| `ChannelRuns.StepExact` | crates/ambitious/src/channel/core.rs:1093-1257 | Each step joins and leaves exactly its topics, changes exactly their group memberships, and tells exactly the instances it leaves that they ended, with its own reason. |
| `ChannelRuns.JoinedByHistory` | crates/ambitious/src/channel/core.rs:1093-1257 | In every run a topic is joined exactly when an accepted join of it was not followed by a leave, a stop or the termination. |
| `AtomTable.AtomTable.Intern` | crates/ambitious/src/atom/mod.rs:57-76 | The known atom, or the next list position in 32 bits; the table gains at most this string and stays consistent. |
| `AtomTable.AtomTable.Get` | crates/ambitious/src/atom/mod.rs:79-82 | The string at that position, if there is one. |
| `AtomTable.Truncate` | crates/ambitious/src/atom/mod.rs:71 | The 32-bit index of a position is the position itself below 2^32, and never larger than it. |
| `AtomTable.TruncateAlike` | crates/ambitious/src/atom/mod.rs:71 | Two positions get the same atom exactly when they are a multiple of 2^32 apart. |
| `AtomTable.ReplayConsistent` | crates/ambitious/src/atom/mod.rs:57-76 | After any calls every string is listed once, is in the map exactly if listed, and has its position in 32 bits as index. |
| `AtomTable.EqualStringsEqualAtoms` | crates/ambitious/src/atom/mod.rs:57-76 | Equal strings have equal atoms, however many strings there are. |
| `AtomTable.AtomsDistinctIff` | crates/ambitious/src/atom/mod.rs:71-75 | Different strings have different atoms exactly as long as at most 2^32 strings have been interned. |
| `AtomTable.GetGivesBackIff` | crates/ambitious/src/atom/mod.rs:57-82 | Asking for an atom handed out earlier succeeds, and gives its string back exactly when that string is among the first 2^32. |
| `AtomTable.AtomsRunOut` | crates/ambitious/src/atom/mod.rs:71-82 | A history of 2^32 + 1 interned strings in which the last has the atom of the first, and asking for it gives the first. |
| `AtomTable.ReplayGrows` | crates/ambitious/src/atom/mod.rs:57-76 | No index ever changes its meaning. |
| `AtomThreads.RunOk` | crates/ambitious/src/atom/mod.rs:57-82 | Under every interleaving of lookups, locks, re-checks, pushes, inserts and reads, at most one thread is past the write lock and the shared table is that of the finished calls, up to the lock holder's own progress. |
| `AtomThreads.Linearizable` | crates/ambitious/src/atom/mod.rs:57-82 | The calls return what they return when made one after the other in the order in which they finish. |
| `AtomThreads.EveryLegalHistoryRuns` | crates/ambitious/src/atom/mod.rs:57-82 | Conversely, every legal history of calls is the history of some run of threads. |
| `AtomThreads.InterningIsFaithful` | crates/ambitious/src/atom/mod.rs:57-82 | In every interleaving: equal strings get equal atoms; different ones different atoms exactly up to 2^32 strings; a handed-out atom always has a string, its own up to that bound. |
| `AtomThreads.TableOnlyGrows` | crates/ambitious/src/atom/mod.rs:57-76 | Even between push and insert, no entry of the shared table changes or disappears. |
| `AtomThreads.NeverStuck` | crates/ambitious/src/atom/mod.rs:57-82 | While some call is unfinished, some thread can move. |
| `Framing.HeaderRoundTrip` | crates/ambitious/src/distribution/protocol.rs:242-258 | Decoding the four big-endian bytes of a length gives the length back. |
| `Framing.HeaderValue` | crates/ambitious/src/distribution/protocol.rs:242-258 | The header bytes are the digits of the length to base 256, the most significant first; encoding and decoding are inverse in this direction as well. |
| `Framing.FrameMessage` | crates/ambitious/src/distribution/protocol.rs:240-247 | The frame is the payload behind its length modulo 2^32, or nothing if encoding fails. |
| `Framing.RoundTripIff` | crates/ambitious/src/distribution/protocol.rs:240-266 | A frame parses back to its message and length, whatever follows, exactly when the payload is shorter than 2^32 bytes. |
| `Framing.HugeFrameMisread` | crates/ambitious/src/distribution/protocol.rs:240-266 | The frame of a payload of exactly 2^32 bytes parses as an empty message of four bytes. |
| `Framing.HugePayload` | crates/ambitious/src/distribution/protocol.rs:240-247 | A payload of exactly 2^32 bytes exists. |
| `Framing.StrictPrefixIncomplete` | crates/ambitious/src/distribution/protocol.rs:253-262 | No strict prefix of a frame parses, neither as a message nor as an error. |
| `Framing.WholeFrame` | crates/ambitious/src/distribution/protocol.rs:253-266 | A whole frame followed by anything parses: to a refusal if its payload does not decode, otherwise to the decoded message with its full length. |
| `Framing.IncompleteIff` | crates/ambitious/src/distribution/protocol.rs:253-262 | Exactly the buffers that begin with no whole frame are waited for. |
| `Framing.ParseStable` | crates/ambitious/src/distribution/protocol.rs:253-266 | Bytes that arrive later do not change what already parsed. |
| `Framing.StreamExact` | crates/ambitious/src/distribution/tcp_transport.rs:160-170 | Every stream ends at one place, the first failed or empty read; it carries exactly the bytes read before, and reports a failure exactly if the read there failed. |
| `Framing.TcpConnection.RecvMessage` | crates/ambitious/src/distribution/tcp_transport.rs:147-173 | The refill loop terminates, and its outcome and what is left depend on the pending bytes alone, not on the chunks: first frame taken off, or refused payload left in place, or all bytes kept and the end of the stream reported. |
| `Framing.TcpConnection.RecvUntilError` | crates/ambitious/src/distribution/manager.rs:903-918 | Repeated receives up to the first that gives no message give exactly the messages of `ReceiveAll`, and leave exactly its tail. |
| `Framing.ReceivesWhatWasSent` | crates/ambitious/src/distribution/tcp_transport.rs:147-173 | What repeated receives compute (`RecvUntilError`) is, for frames of messages followed by a tail that is cut short or refused, exactly those messages in order and that tail. |
| `Framing.Reassembly` | crates/ambitious/src/distribution/tcp_transport.rs:147-173 | For every list of messages, every split into non-empty chunks and every point where the stream is cut: what repeated receives compute (`RecvUntilError`) is exactly the messages whose frames arrived whole, and no byte is lost or read twice. |
| `Registry.Registry.Register` | crates/ambitious/src/registry.rs:143-165 | Refused exactly for a taken key in a unique registry; otherwise the entry goes last under its key; both indexes agree and a unique key has one entry. |
| `Registry.Registry.Unregister` | crates/ambitious/src/registry.rs:171-188 | Exactly the process's entries under that key go, from both indexes, and nothing empty stays. |
| `Registry.Registry.UnregisterAll` | crates/ambitious/src/registry.rs:193-205 | Exactly the process's entries go, under whatever key, although only the keys of the reverse index are visited. |
| `Registry.Registry.UpdateValue` | crates/ambitious/src/registry.rs:297-309 | Replaces the value of the process's own entry in a unique registry and returns the old one; otherwise changes nothing. |
| `Registry.Registry.Lookup` | crates/ambitious/src/registry.rs:210-215 | The processes listed under a key are exactly those whose own key sets hold it, with exactly the values entered; a unique registry lists at most one. |
| `Registry.Registry.Keys` | crates/ambitious/src/registry.rs:227-232 | Exactly the keys under which the process has an entry. |
| `Registry.Registry.CountAll` | crates/ambitious/src/registry.rs:280-282 | The number of entries, in whatever order the keys are visited. |
| `Registry.OthersExact` | crates/ambitious/src/registry.rs:173 | Retaining the other processes' entries keeps exactly those. |
| `Registry.DroppedIndexed` | crates/ambitious/src/registry.rs:171-188 | Dropping a process from a key in both indexes keeps them in agreement. |
| `Registry.UniqueTotal` | crates/ambitious/src/registry.rs:280-282 | A registry with one entry per key has as many entries as keys. |
| `NodeMonitors.NodeMonitorRegistry.AddLocalMonitor` | crates/ambitious/src/distribution/monitor.rs:87-98 | A reference never used is drawn and registered in both indexes. |
| `NodeMonitors.NodeMonitorRegistry.RemoveLocalMonitor` | crates/ambitious/src/distribution/monitor.rs:101-107 | Exactly this registration goes from both indexes; an unknown reference changes nothing. |
| `NodeMonitors.NodeMonitorRegistry.AddRemoteMonitor` | crates/ambitious/src/distribution/monitor.rs:110-115 | Exactly this remote monitor is added. |
| `NodeMonitors.NodeMonitorRegistry.RemoveRemoteMonitor` | crates/ambitious/src/distribution/monitor.rs:118-122 | Exactly this remote monitor goes. |
| `NodeMonitors.NodeMonitorRegistry.NotifyNodeDown` | crates/ambitious/src/distribution/monitor.rs:125-165 | One notice for every registration on the node, to its process and with its reference and reason, nothing else; exactly those registrations and the node's remote monitors are forgotten. |
| `NodeMonitors.ReasonExact` | crates/ambitious/src/distribution/monitor.rs:42-51 | Which reason each text becomes; two texts become the same reason only if equal or one of the two pairs of synonyms. |
| `NodeMonitorRuns.MonitorLife` | crates/ambitious/src/distribution/monitor.rs:87-165 | A monitor stands exactly while it was not cancelled and its node has not gone down since. |
| `NodeMonitorRuns.NoticeFaithful` | crates/ambitious/src/distribution/monitor.rs:125-165 | A notice goes to the monitoring process, names the monitored node and carries the reason of the step in which it went down. |
| `NodeMonitorRuns.FiresExactlyOnce` | crates/ambitious/src/distribution/monitor.rs:87-165 | In every history a reference gets exactly one notice if its node goes down while it stands, and none after a cancellation or a second time. |

## Left out

- Integer widths other than the atom index and the frame length: presence clocks, retry counts, job and monitor
  numbers are unbounded here; the source would have to reach 2^32 or 2^64 of them to differ.
- Wire and payload formats: the codec is an abstract pair whose decoding inverts its encoding; QUIC, TLS, sockets,
  heartbeats and accept loops are not modelled, a connection is a list of reads.
- The presence server around the CRDT (timers, the older per-topic diffs, publication to subscribers). Its update call
  is an untrack and a track in one pending delta of different tags, which the convergence runs allow.
- Convergence of the broadcast and the extract exchange running together: each is proved on its own, extracts carry no
  removals. The runs of the broadcast have no purge, after which replicas legitimately differ.
- `message_receiver_loop` beyond receiving until the first error: which connection it serves and what it does with a
  message. The source runs that loop over QUIC streams; the model runs it over the TCP connection.
- `since` of a replica that is down: only up or down and whether it is temporary are kept.
- Restoring the size of the worker pool: a dead worker noticed while dispatching is no longer tracked when its Down
  message comes, so no replacement is spawned for it.
- The job queue's named servers and timers are always there, so every report and every timer is accepted; the initial
  workers are spawned through the mailbox before anything else is handled; the statistics themselves are not modelled.
- What a worker does with a job, and how long; it answers at most once per job or dies.
- Which process an application's exit signal reaches, and the stop function, beyond the fact and order of stopping.
- Group links are FIFO and never full; connecting is one step for both ends.
- Lock granularity of the concurrent maps outside the atom table: process groups, registry and node monitors are
  modelled one call at a time. In particular the check and the insert of a unique registration are one step.
- Early exits of the transport loop when sending fails, which skip the channel server's termination; failing
  serialization of a broadcast; info messages and outgoing filters of channels.
- Changes of a client's channel groups from outside its channel server, such as the client process dying.
- Global names, process monitors between nodes, generic servers and state machines, supervisors, macros, the terminal
  interface, peer spawning, configuration and the chat example.
- `ChannelServer.ChannelServer.EndChannel`, `PresenceCrdt.PresenceCrdt.Collect`, `PresenceCrdt.PresenceCrdt.UpdateIndex`,
  `Registry.Registry.DropEntries` and `NodeMonitors.NodeMonitorRegistry.NotifyEach` factor out loops or passages that the
  source repeats or has inline.
