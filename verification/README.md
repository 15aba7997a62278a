# Verified model of the srt-whep connection lifecycle

srt-whep takes one SRT stream in and serves it to WHEP viewers. A viewer's connection lives
in three places at once: in the map of the signaling coordinator (an actor), as a branch of
elements in the GStreamer pipeline, and, across pipeline restarts, in the hands of the
supervisor. This project models the protocol between the three and proves what it keeps.

| file | what it models |
|---|---|
| `Watchdog.dfy` | the windowed failure counter, against a scan of its whole history |
| `Signaling.dfy` | the coordinator's state, the fate of every reply sender, and each death as a step on that state |
| `Coordinator.dfy` | the actor itself: a class with the mutable map, the five-row policy table and `terminate`, proved to take those steps |
| `Linearity.dfy`, `Invariants.dfy` | reply linearity and the other invariants of every run |
| `Lifecycle.dfy` | one automaton per viewer; failure isolation |
| `Replies.dfy` | what every client is told in each turn |
| `Provenance.dfy` | where a delivered SDP comes from |
| `Causality.dfy`, `Orphans.dfy` | the sweep, what causes restarts, how long the actor stalls, which branches stay behind |
| `Vitals.dfy` | what each step reports to the watchdog and puts into the restart channel |
| `Outcomes.dfy` | replies, entries, branches and time from the raw course of each pipeline call |
| `Routes.dfy` | DELETE idempotence (section 9.2.2 of RFC 9110) |
| `Naming.dfy`, `Bus.dfy`, `Containment.dfy` | element names, error attribution, and what a failing branch costs |
| `PipelineGraph.dfy`, `BranchStore.dfy`, `BranchCalls.dfy` | the pipeline as a graph; `attach`, `detach`, `add_branch`, `remove_branch` on it; what callers may rely on |
| `Ledger.dfy`, `Rebase.dfy`, `Agreement.dfy` | what the history of branch calls says, read from any point on; map and pipeline graph together |
| `Supervisor.dfy` | the restart loop, against an automaton over its calls |
| `Restarts.dfy` | from the trip to the forced quit, in the composed system |
| `System.dfy`, `Hazards.dfy` | coordinator, supervisor and pipeline slot composed; the run boundary, and that its hypotheses are exactly what it takes |

How the environment enters. One `Event` is one turn of the coordinator's select loop. It
carries the idle time before it, how each pipeline call in it would end and how long it would
take (waiting for the lock, in the synchronous attach, detaching), the iteration order of the
map, and the set of reply receivers that are gone by then; theorems hold for every choice of
these. Time is a number that never decreases. A reply
sender is a ticket; `replies` logs what was sent on it, so "answered once" can be stated.
The composed system splits a turn into `Begin` (where the pipeline slot is looked at) and
`Finish`, so the supervisor may clean up, reset and start over while a turn is under way.

Two findings. The comment at `src/signal/watchdog.rs:3-13` says a trip takes a threshold of
failures within the window. The code measures the window from the previous failure, so for
thresholds above two a slow drip of failures also trips; `TripsFitTheWindowUpToTwo` has the
exact condition. And `add_branch` on an id that already has elements does not only fail: its
own clean-up takes the existing branch out (`AddBranch`). The coordinator never makes that
call for a live id (`LiveIdsAreNeverAttachedAgain`). It does for an orphan created anew, and
that create cannot succeed while the orphan's branch is whole
(`WholeBranchesAreNotAddedAgain`).

`dafny verify dfyconfig.toml` checks the whole project.

## Model

| member | source | states |
|---|---|---|
| `Health.BurstIsLongestSuffix` | src/signal/watchdog.rs:31-49 | the counter the watchdog keeps is independent of its code: `Burst` is the length of the longest suffix of the history made of failures with adjacent gaps of at most the window (if and only if, for every length) |
| `Health.Watchdog.constructor` | src/signal/watchdog.rs:22-29 | a new watchdog has an empty history and fields that agree with it |
| `Health.Watchdog.RecordFailure` | src/signal/watchdog.rs:31-49 | refinement: counter and timestamp stay equal to the scan of the whole history, it trips if and only if the burst this failure ends reaches the threshold, and the `u32` increment cannot overflow |
| `Health.Watchdog.RecordSuccess` | src/signal/watchdog.rs:51-54 | a success ends the burst and clears both fields |
| `Health.HonestStaysBelow` | src/signal/watchdog.rs:41-48 | between calls the count is below `max(threshold, 1)`, and a trip happens exactly on reaching it |
| `Health.TripsArePaidFor` | src/signal/watchdog.rs:31-49 | over every history, `max(threshold, 1)` failures per trip plus the burst in progress never exceed the failures reported |
| `Health.TripSpan` | src/signal/watchdog.rs:33-48 | every trip has `max(threshold, 1)` consecutive failures behind it, which lie within `max(threshold, 1) - 1` windows |
| `Health.SlowestTrip` | src/signal/watchdog.rs:33-48 | that bound is met: for every threshold and window some history trips over exactly that long |
| `Health.FailuresWithinWindowTrip` | src/signal/watchdog.rs:3-6 | a threshold of failures all within one window of the last always trips |
| `Health.TripsFitTheWindowUpToTwo` | src/signal/watchdog.rs:3-13 | the comment's "threshold within the window" holds of every trip if and only if the threshold is at most two or the window is empty |
| `Coordination.Coordinator.constructor` | src/signal/coordinator.rs:374-391 | a new coordinator is in the initial state and satisfies the invariant |
| `Coordination.Coordinator.Notify` | src/signal/coordinator.rs:200-206 | the notice column tells the parked waiter, if there is one, `Gone`, its own leg's timeout or `Unavailable`, and nobody else |
| `Coordination.Coordinator.AddBranchBounded` | src/signal/coordinator.rs:452-481 | an `add_branch` cut off while it waits, for the lock or in the clean-up of a failed attach, is a busy error; a successful attach answers Ok however long it blocks; the ledger gains the id exactly on Ok |
| `Coordination.Coordinator.RemoveBranchBounded` | src/signal/coordinator.rs:642-661 | a `remove_branch` is cut off at the timeout as a busy error; the ledger loses the id exactly on Ok |
| `Coordination.Coordinator.TearDown` | src/signal/coordinator.rs:584-614 | the teardown column: `Required` restores the entry and returns the error on failure, `BestEffort` notifies first and never fails, `Keep` leaves the branch |
| `Coordination.Coordinator.Terminate` | src/signal/coordinator.rs:568-625 | for each of the five reasons the table-driven code ends in exactly the state that death is described to have, with every reply sender still accounted for; only `Deleted` can return an error |
| `Coordination.Coordinator.ResetAllConnections` | src/signal/coordinator.rs:669-674 | in whatever order the map is drained, each parked waiter is told `Unavailable` once, nobody else is told anything, and the map is empty |
| `Coordination.Coordinator.FeedWatchdog` | src/signal/coordinator.rs:616-623 | the failure is recorded at the time after the teardown; on a trip everybody is failed and one non-blocking restart request is made |
| `Coordination.Coordinator.CreateConnection` | src/signal/coordinator.rs:447-485 | a create of a live id is refused without touching the pipeline, a failed or timed-out attach is answered and leaves no entry, otherwise the sender is parked with its deadline |
| `Coordination.Coordinator.OfferReceived` | src/signal/coordinator.rs:487-513 | the parked create waiter gets the offer and the command's own sender is parked; a vanished waiter kills the handshake; in any other state the entry is restored and the command rejected |
| `Coordination.Coordinator.AnswerReceived` | src/signal/coordinator.rs:515-541 | likewise for the answer, which establishes the connection and clears the watchdog |
| `Coordination.Coordinator.FailHandshake` | src/signal/coordinator.rs:497-505 | the surviving leg learns `Gone`, then the death proceeds although its entry is already consumed |
| `Coordination.Coordinator.RemoveConnection` | src/signal/coordinator.rs:543-545 | the delete answers with what its termination returned |
| `Coordination.Coordinator.ResetSignaling` | src/signal/coordinator.rs:440-443 | a reset fails every waiter, empties the map, clears the watchdog and answers |
| `Coordination.Coordinator.CollectExpired` | src/signal/coordinator.rs:547-554 | collects exactly the overdue ids, in iteration order |
| `Coordination.Coordinator.SweepExpired` | src/signal/coordinator.rs:547-560 | terminates the collected ids one after the other; ids gone by a trip on the way are skipped |
| `Coordination.Coordinator.ReapBranch` | src/signal/coordinator.rs:630-636 | a reported branch failure ends that one connection, if it is still there |
| `Coordination.Coordinator.Handle` | src/signal/coordinator.rs:411-428 | each command is handled by its own step |
| `Coordination.Coordinator.Turn` | src/signal/coordinator.rs:396-407 | one turn of the select loop is one `Step` of the state machine and keeps the invariant |
| `Coordination.Coordinator.Run` | src/signal/coordinator.rs:393-409 | whatever the select loop picks, the actor's state after any sequence of events is the one the state machine reaches |
| `Linearity.StepKeepsLinear` | src/signal/coordinator.rs:447-625 | reply linearity is kept by every step: each sender ever submitted is either used exactly once or parked in exactly one entry; no insert overwrites a live entry, no path drops or answers a sender twice |
| `Linearity.ResetAllAccounts` | src/signal/coordinator.rs:669-674 | a whole-map reset uses every parked sender once and no other |
| `Linearity.DeliveryAccounts` | src/signal/coordinator.rs:212-240 | a delivery takes the entry out and uses up its sender, delivered or not |
| `Invariants.StepKeepsInv` | src/signal/coordinator.rs:393-409 | every step keeps linearity, an honest watchdog history, near deadlines and the map/branch agreement |
| `Invariants.EveryRunKeepsInv` | src/signal/coordinator.rs:393-409 | hence they hold in every reachable state: branches in the pipeline are exactly those of live entries plus orphans, disjointly, and no parked deadline is later than now plus the longer handshake timeout |
| `Invariants.SenderUsedOrParkedOnce` | src/signal/coordinator.rs:447-625 | for each sender in every reachable state: at most one send, none if and only if it is parked, and parked in at most one entry |
| `Linearity.StepSubmits` | src/signal/coordinator.rs:411-428 | a turn takes in exactly its own command's sender and forgets none |
| `Replies.WaitersLearnWhy` | src/signal/coordinator.rs:157-240 | whatever a step does to a connection, the waiter parked on it is told exactly that, once: its SDP, `Gone`, its own leg's timeout, or `Unavailable` on a reset or trip; and if nothing happened to the connection, nothing |
| `Replies.CommandsGetTheirVerdict` | src/signal/coordinator.rs:447-545 | every command is answered in its own turn with its error or result, also when that turn trips the watchdog, or else its sender is parked |
| `Lifecycle.StepIsPerViewer` | src/signal/coordinator.rs:447-625 | refinement: unless a reset or a trip empties the map, the shared map behaves as one small automaton per connection id |
| `Lifecycle.SweepIsPerViewer` | src/signal/coordinator.rs:547-560 | a sweep removes exactly the overdue entries in any iteration order, or trips once and empties the map |
| `Lifecycle.ExpireEachShape` | src/signal/coordinator.rs:556-559 | terminating any list of ids removes exactly those, or trips at most once, after which the rest are no-ops |
| `Lifecycle.PhasesNeverSkip` | src/signal/coordinator.rs:212-240 | an entry stays as it is, moves to the next phase, or goes: never a skip, never a return |
| `Lifecycle.OthersAreUntouched` | src/signal/coordinator.rs:487-636 | failure isolation: a step about one id leaves every other entry, parked reply and deadline included |
| `Lifecycle.EstablishedLeavesOnlySo` | src/signal/coordinator.rs:568-636 | an established entry leaves in a step if and only if it is its own successful delete, its own reap, a reset or a trip, and is otherwise unchanged |
| `Lifecycle.EstablishedSurvivesRuns` | src/signal/coordinator.rs:568-636 | over any stretch of a run: still there unchanged, or one of those happened on the way |
| `Causality.StepCauses` | src/signal/coordinator.rs:317-350 | a step trips only if it failed a live handshake, and makes one restart request exactly if it trips: deletes, reaps, resets, lists, creates and rejected commands never do |
| `Causality.RestartsAreEarned` | src/signal/coordinator.rs:616-623 | over every run, `max(threshold, 1)` times the restart requests is at most the live entries expired plus the peers vanished |
| `Causality.StallIsBounded` | src/signal/coordinator.rs:452-459 | a command or reap holds the actor for at most one teardown timeout, a create for the time of its synchronous attach besides, which nothing cuts off, and a sweep for one timeout per overdue entry |
| `Causality.OverdueSize` | src/signal/coordinator.rs:547-554 | in any iteration order a sweep terminates each overdue id exactly once |
| `Causality.SweepIsCorrect` | src/signal/coordinator.rs:547-560 | nothing overdue at its start remains; without a trip all else is untouched, with one the map is empty; each waiter is still parked, or consumed once by its own leg's timeout (if overdue) or `Unavailable` (if tripped); at most one restart request |
| `Causality.AfterExpiryFate` | src/signal/coordinator.rs:186-196 | one expiry: the waiter of the expired entry gets its own leg's timeout, every other is still parked or failed by a trip |
| `Vitals.StepReports` | src/signal/coordinator.rs:515-625 | what the watchdog hears in a step, from what became of the connections: one success exactly when a handshake completes or a reset comes in, one failure when a peer is lost, one per overdue entry of a sweep as far as it gets without a trip, otherwise nothing; failures carry the time they happened at, after their teardown |
| `Vitals.HandshakesClearTheWatchdog` | src/signal/coordinator.rs:521-523 | after any step that completes a handshake, or a reset, the watchdog counts nothing |
| `Vitals.NoGoodNewsBehindATrip` | src/signal/coordinator.rs:515-541 | over every run: from the turn that reports the first of the `max(threshold, 1)` failures behind a trip up to the turn that trips, no handshake completes and no reset comes in |
| `Vitals.FailuresBehindATrip` | src/signal/watchdog.rs:31-49 | over every run: behind each trip there are `max(threshold, 1)` failures on end, and they happened within `max(threshold, 1) - 1` windows of the clock |
| `Vitals.HistoryIsTimed` | src/signal/watchdog.rs:31-40 | in every reachable state the reported failures are in order of time and none lies in the future |
| `Vitals.TripsQueueTheirRequest` | src/signal/coordinator.rs:616-623 | field by field: a request is pending after a step exactly if one was before or the step trips while the supervisor listens; it is refused exactly if the step trips while one is pending or nobody listens; nothing else touches the channel |
| `Outcomes.CreateOutcome` | src/signal/coordinator.rs:447-485 | a create, from the raw times and error of its `add_branch`: which reply, which entry and deadline, which branch in the books and how much time, with only the waits ever cut off |
| `Outcomes.DeleteOutcome` | src/signal/coordinator.rs:575-597 | a DELETE likewise: a teardown that takes longer than the timeout, hanging in the detach included, is answered `PipelineBusy` with entry and branch kept; answered Done it has waited for all of it |
| `Outcomes.DeathsOrphanExactly` | src/signal/coordinator.rs:599-608 | every other death, by reap, expiry or lost peer, leaves its branch behind exactly if the teardown failed or took longer than the timeout |
| `Outcomes.DeathsTakeTheirTeardown` | src/signal/coordinator.rs:642-661 | a delivery or reap takes exactly the teardown it needs, cut at the timeout, and otherwise no time |
| `Outcomes.DeleteStatus` | src/routes/remove.rs:8-14 | the status of a DELETE from the raw course of its teardown: 204, 503, 500 or 200 |
| `Provenance.SdpsComeFromDeliveries` | src/signal/coordinator.rs:212-240 | in every step a client gets an SDP if and only if it is the live waiter parked on the right leg of the connection the SDP was addressed to |
| `Provenance.OfferProvenance` | src/signal/coordinator.rs:487-513 | over every run, an offer received is exactly the SDP of the `OfferReceived` that advanced the very connection the receiver created |
| `Provenance.AnswerProvenance` | src/signal/coordinator.rs:515-541 | likewise for the answer, with the offer leg of the same lifetime before it |
| `Provenance.EstablishedMeansHandshaken` | src/signal/coordinator.rs:515-541 | an established connection has both legs behind it, in order and uninterrupted, and both clients hold the other's SDP |
| `Provenance.EveryEntryWasBrought` | src/signal/coordinator.rs:447-541 | every entry was put there, as it is, by one event that the automaton of its id allows |
| `Orphans.OrphansAreFailedTeardowns` | src/signal/coordinator.rs:568-661 | unless the map is drained, an id is left in the pipeline without an entry if and only if its entry ended in this step with a failed or timed-out teardown, or it was orphaned before and not created anew |
| `Orphans.DrainOrphansTheRest` | src/signal/coordinator.rs:663-674 | after a reset or a trip the map is empty and every attached branch is an orphan |
| `Orphans.AddsAreForAbsentIds` | src/signal/coordinator.rs:447-461 | the `add_branch` calls of a step: exactly one if it handles a create for an id without an entry, and otherwise none |
| `Orphans.LiveIdsAreNeverAttachedAgain` | src/signal/coordinator.rs:447-461 | over every run, each `add_branch` ever called was called by a create for an id that had no entry then |
| `Agreement.CallsAgree` | src/stream/gst_pipeline.rs:102-183 | over any sequence of branch calls on one pipeline, however they fail, with cut-off steps finishing late: every attached and undamaged branch is whole, no element belongs to an id neither attached nor left over, and under the branches the pipeline is as it was |
| `Agreement.MapAndPipelineAgree` | src/signal/coordinator.rs:447-661 | over every run from any state with an empty map (the start of the process, or a clean run boundary), with every branch call an outcome of `add_branch` or `remove_branch` on one new pipeline: each live connection has its whole branch in it unless a teardown of it failed midway, and every branch element belongs to a live connection, an orphan of this pipeline or a leftover |
| `Agreement.NothingLeaks` | src/signal/coordinator.rs:568-661 | once every connection has left without an orphan of this pipeline or a leftover, the pipeline is exactly the one it began as |
| `Agreement.WholeBranchesAreNotAddedAgain` | src/stream/gst_pipeline.rs:102-151 | an `add_branch` for an id whose branch is still whole, such as an orphan of a drained map, never answers Ok |
| `Agreement.WholeSurvives` | src/stream/branch.rs:185-208 | a whole branch stays whole through every call on another id, failed and cut-off ones included |
| `Ledger.AttachedExactly` | src/stream/gst_pipeline.rs:102-183 | attached means added with Ok and not removed with Ok since, read off the raw calls |
| `Ledger.DamagedExactly` | src/stream/gst_pipeline.rs:102-183 | damaged means cut off or broken by a call, and no call on it has succeeded since |
| `Ledger.TeardownFailedExactly` | src/stream/gst_pipeline.rs:162-183 | a teardown has failed midway exactly if a removal was cut off or broke and the branch has not been added since |
| `Agreement.LeftoversExactly` | src/stream/gst_pipeline.rs:129-149 | left over means littered by a cut-off or untidy call and neither added nor wholly removed since |
| `Routes.DeleteStep` | src/signal/coordinator.rs:575-597 | one delete: a failed teardown leaves the map and every other sender as they were; a successful one removes the entry and tells its waiter `Gone` |
| `Routes.DeletesActOnce` | src/signal/coordinator.rs:543-597 | over any sequence of deletes of one id with arbitrary teardown failures: nothing changes before the first success, which ends the session and tells the waiter once, and nothing after it |
| `Routes.DeletesAnswer` | src/routes/remove.rs:8-14 | they are answered with a server error up to the first success, 200 for it, 204 ever after |
| `Routes.AtMostOneOk` | src/routes/remove.rs:8-14 | at most one delete is answered 200 and every later one 204, whether or not the id was known |
| `Routes.DeletesOfUnknown` | src/routes/remove.rs:8-14 | deletes of an unknown id change nothing and are answered 204 |
| `Naming.BranchNameIsFound` | src/stream/naming.rs:28-42 | name round trip for all four constructors and every id string, empty or with dashes |
| `Naming.ClassifierInvertsNames` | src/stream/naming.rs:80-90 | the classifier answers `Some(id)` if and only if the name is one of the four names of `id` |
| `Naming.StemsNeverOverlap` | src/stream/naming.rs:28-42 | names are injective over kind and id |
| `Naming.NamesAreSpelled` | src/stream/naming.rs:28-42 | the four names of a branch as the pipeline spells them |
| `Naming.CoreNamesNeverClassify` | src/stream/naming.rs:72-90 | no core element name is taken for a branch's |
| `Naming.BranchesShareNoName` | src/stream/branch.rs:185-208 | a lookup by name for one viewer hits neither another viewer's element nor a core one |
| `Naming.FirstMatchAmong` | src/stream/naming.rs:80-90 | the search over the stems finds something exactly if some stem strips |
| `Bus.ClassifyBusMessage` | src/stream/bus.rs:44-61 | along every path of parents from the source: if the first branch-named object on it is of `id`, exactly that branch is reaped; if it reaches the top and meets none, or there is no source, the pipeline quits; it quits on end of stream and ignores the rest |
| `Bus.FirstFoundIsNearest` | src/stream/bus.rs:51-56 | the nearest branch and its id are unique |
| `Bus.NestedErrorReachesItsBranch` | src/stream/bus.rs:5-14 | an error from anything nested inside a branch element is that branch's |
| `Containment.WatchBus` | src/stream/gst_pipeline.rs:404-450 | the same over paths of parents, as the watch acts on it: quit, or report the branch, the report being dropped if the channel is full or closed |
| `Containment.ReapCostsOneViewer` | src/signal/coordinator.rs:627-636 | a reap removes at most that one connection; every other entry, the watchdog, the restart channel and every other sender stay as they were |
| `PipelineGraph.RemovalsLeaveWithout` | src/stream/branch.rs:185-208 | the removals of a detach in the code's order leave the pipeline as if the branch had never been there (except elements that refuse to go) |
| `PipelineGraph.FedQueueRemoved` | src/stream/branch.rs:273-297 | releasing the tee pad and then removing the queue takes out exactly the queue, its pad and its links |
| `PipelineGraph.UnfedQueueRemoved` | src/stream/branch.rs:298-304 | a queue that was added and never linked, or never added, needs no pad released |
| `PipelineGraph.WithoutAbsentBranch` | src/stream/branch.rs:177-181 | a detach changes nothing if and only if no element of the branch is there |
| `PipelineGraph.WithoutTwice` | src/stream/branch.rs:185-208 | a second detach changes nothing |
| `PipelineGraph.ClearedUnlessStuck` | src/stream/branch.rs:232-240 | a detach clears the branch if and only if none of its elements refuses to be removed |
| `PipelineGraph.OthersSurvive` | src/stream/branch.rs:185-208 | every other branch keeps its elements, links and tee pads, however many there are |
| `PipelineGraph.CoreSurvives` | src/stream/branch.rs:185-208 | the core elements, the demux pads and readiness survive a detach |
| `PipelineGraph.LinkKeepsTheRest` | src/stream/branch.rs:129-136 | linking inside a partial branch changes nothing outside it |
| `PipelineGraph.PartlyUndone` | src/stream/branch.rs:177-181 | the closing step of the inverse: what an attach is proved to keep however far it gets (`Partly`, by `Pipeline.Attach`) is enough for one complete detach to give back the start; the inverse itself is `SharablePipeline.AttachOrUndo` |
| `PipelineGraph.RemovedQueueKeepsTheRest` | src/stream/branch.rs:255-307 | a detach cut off at a queue, even between pad and element, leaves part of the branch and nothing else |
| `PipelineGraph.RemovedElementKeepsTheRest` | src/stream/branch.rs:217-245 | likewise for a decoder or whip sink |
| `BranchCalls.RetriesConverge` | src/stream/branch.rs:177-181 | whatever calls on one id failed, broke or were cut off before, the first `remove_branch` that answers Ok with everything removable gives back the pipeline they started from; each call of the history does what `SharablePipeline.AddBranch` and `RemoveBranch` are proved to do |
| `BranchStore.Pipeline.RemoveElementByName` | src/stream/branch.rs:217-245 | a removal takes the element and its links out, or is swallowed |
| `BranchStore.Pipeline.RemoveQueue` | src/stream/branch.rs:255-307 | release the feeding tee pad if the queue is linked, then remove the queue |
| `BranchStore.Pipeline.Detach` | src/stream/branch.rs:185-208 | a finished detach leaves exactly the pipeline without the branch; one that breaks at a pad lookup, or is given up after any step, leaves part of the branch and nothing else |
| `BranchStore.Pipeline.AttachVideo` | src/stream/branch.rs:111-145 | the video leg, linked in order through the decoder if there is one; it can only miss the video tee |
| `BranchStore.Pipeline.AttachAudio` | src/stream/branch.rs:147-167 | the audio leg; it can only miss the audio tee |
| `BranchStore.Pipeline.Attach` | src/stream/branch.rs:84-173 | it makes exactly the calls each of its legs needs; stopped at any call it leaves the rest of the pipeline as it was; if it succeeds the whole branch is there, one leg per demuxed medium; on a ready input every lookup succeeds, and for a new id it fails only if a GStreamer call does |
| `BranchStore.SharablePipeline.AttachOrUndo` | src/stream/gst_pipeline.rs:120-149 | a failed attach is undone; that is no change if and only if the id had no element before |
| `BranchStore.SharablePipeline.AddBranch` | src/stream/gst_pipeline.rs:102-151 | with the lock it answers `NotReady` exactly if there is no pipeline, or one whose input is not demuxed or lacks the tee of a medium it has; for a new id, unless a GStreamer call fails, it answers Ok exactly on a demuxed input with its tees; then exactly the whole branch is there, and after an error nothing has changed if and only if the id had no element; cancelled, it leaves at most part of that branch |
| `BranchStore.SharablePipeline.RemoveBranch` | src/stream/gst_pipeline.rs:162-183 | refused as transient without a pipeline or lock; finished, exactly the branch is gone; a pad lookup can only fail at a queue that is there, and then the answer is fatal and exactly the steps before it are done; cut off, part of it is left |
| `BranchCalls.RefusedExactly` | src/stream/gst_pipeline.rs:107-118 | exactly which refusal an `add_branch` gets, and that it gets none exactly if the input is demuxed and each of its media has its tee |
| `BranchStore.SharablePipeline.CleanUp` | src/stream/gst_pipeline.rs:495-514 | exactly if the lock is had, the slot is emptied, the main loop forgotten and the pipeline taken out stopped; the flag `System` keeps follows the same function |
| `BranchStore.SharablePipeline.Init` | src/stream/gst_pipeline.rs:378-385 | the new pipeline is stored last, so a failed init leaves the slot as it was; `System` follows the same function |
| `Supervision.BackoffIsCappedDoubling` | src/supervisor.rs:179-186 | for every `u32` the saturating computation is `min(2^(n-1), 30)` seconds (1 for 0), monotone |
| `Supervision.Supervisor.DrainRequests` | src/supervisor.rs:85-91 | every request the drain meets, those that arrive while it loops included, is dropped before a run |
| `Supervision.Supervisor.JoinRun` | src/supervisor.rs:109-123 | a run told to stop is joined, or aborted when it does not end in time |
| `Supervision.Supervisor.SleepOrStop` | src/supervisor.rs:73-76 | the backoff sleep ends early only for shutdown |
| `Supervision.Supervisor.WatchRun` | src/supervisor.rs:106-146 | each arm of the select makes its own calls, in order, and a spawned run is joined or aborted |
| `Supervision.Supervisor.RunPipelineUntilStopped` | src/supervisor.rs:84-147 | a run makes exactly these calls, in an order the protocol allows, and ends with this outcome |
| `Supervision.Supervisor.Cleanup` | src/supervisor.rs:149-161 | one `clean_up`, then one reset attempt, whatever they return |
| `Supervision.Supervisor.Turn` | src/supervisor.rs:46-77 | one turn makes exactly the calls its environment calls for, and goes on exactly unless shutdown was read |
| `Supervision.Supervisor.Run` | src/supervisor.rs:44-79 | the loop refines the protocol automaton: its whole call trace is the scripted one, is accepted, and it stops exactly where a turn read shutdown |
| `Supervision.CallsComeInCycles` | src/supervisor.rs:44-161 | in every prefix of every run: one `clean_up` per `init` and one reset attempt per `clean_up`; each spawned run ends by itself or by exactly one of `end` and `quit`, and is then joined or aborted before `clean_up` |
| `Supervision.TurnCalls` | src/supervisor.rs:46-77 | a turn makes exactly the calls listed for its environment, each if and only if: it drains before every run, joins a run exactly if it ends in time and aborts it exactly if not, ends or quits it as it was told, cleans up and resets whatever came of it |
| `Supervision.InitFollowsADrain` | src/supervisor.rs:91-93 | in every run each `init` comes straight after a drain that found the channel empty |
| `Supervision.ShutdownSticks` | src/supervisor.rs:47-49 | once shutdown is read the supervisor is on its way out for good |
| `Supervision.NoInitAfterShutdown` | src/supervisor.rs:44-79 | after that no `init` and no run ever starts |
| `Supervision.CounterIsScan` | src/supervisor.rs:45-71 | the failure counter is a scan of the trace since the last clean end or watchdog restart, saturated at the `u32` maximum |
| `Supervision.DelaysFollowFailures` | src/supervisor.rs:73-76 | every delay is the backoff of that scan |
| `Supervision.CleanMeansBothSucceeded` | src/supervisor.rs:149-161 | the protocol's notion of a clean boundary is that the latest `clean_up` and the latest reset both succeeded |
| `System.MoveKeepsInv` | src/startup.rs:89-101 | every move of the composed system (a command posted, a turn begun or finished, a supervisor action) keeps the system invariant |
| `System.EveryRunIsFine` | src/startup.rs:89-101 | hence it holds in every reachable state of the composed system |
| `System.SupervisorFollowsItsProtocol` | src/supervisor.rs:44-161 | inside the system the supervisor's actions are a run of its protocol |
| `System.CoordinatorRunsAsAlone` | src/signal/coordinator.rs:393-409 | inside the system the coordinator goes through exactly a run of its own, whatever happens to the shared channel, so what holds of every run of the actor holds of the system |
| `System.EachPipelineAgrees` | src/supervisor.rs:93-161 | in the composed system, from every `init` that succeeds after a fully successful cleanup on, map and new pipeline agree by the calls made since |
| `Rebase.StepAlike` | src/signal/coordinator.rs:393-636 | nothing the coordinator does depends on the restart channel, on calls made before or on what they left attached |
| `Rebase.BooksFrom` | src/signal/coordinator.rs:447-661 | from any state with an empty map, the calls made since tell by themselves what is attached for the live entries and which of them a failed teardown has damaged |
| `System.RunBoundary` | src/supervisor.rs:149-161 | whenever `init` begins and the latest `clean_up` and reset both succeeded: the map is empty, every sender taken in has been used exactly once, the watchdog counts nothing and the slot is empty |
| `System.CreatesAreRefusedAtTheBoundary` | src/stream/gst_pipeline.rs:107-118 | at a clean boundary a create leaves the map empty and is answered `NotReady` or `PipelineBusy`, the refusals `add_branch` gives for an empty slot or a lost lock |
| `System.QuietStays` | src/signal/coordinator.rs:447-560 | nothing but a successful create can end the quiet of an empty, reset coordinator |
| `System.RestartRequestsAreConserved` | src/startup.rs:94-97 | trips = requests taken + drained + discarded + refused + pending, with at most one pending |
| `System.TakenRequestsForceQuits` | src/supervisor.rs:126-129 | each request taken is one `quit`, or is about to be |
| `System.RestartsAreEarnedBySystem` | src/signal/coordinator.rs:616-623 | over every run of the whole system, `max(threshold, 1)` times all restart requests, forced quits included, is at most the handshakes that expired or lost their peer |
| `Restarts.TripsAreHeard` | src/signal/coordinator.rs:616-623 | while the supervisor has not stopped, every turn that trips ends with a request in the channel, and the request is refused only if one was waiting there already |
| `Restarts.QuitsAreForTheirOwnRun` | src/supervisor.rs:85-91 | over every run of the system: each request the supervisor takes was made by a trip after the drain its run began with, so no run is quit for a trip of an earlier one |
| `Restarts.OpenUntilStopped` | src/supervisor.rs:44-79 | the restart channel is open exactly until the supervisor stops, and a stopped supervisor leaves no request in it |
| `Hazards.BoundaryNeedsTheReset` | src/supervisor.rs:156-160 | a `clean_up` alone is not enough: a run in which the reset is queued behind a hanging DELETE and times out there, and a viewer of the previous run is still in the map at the next `init`; the DELETE holds the coordinator for exactly the teardown timeout, so in real time this takes one configured longer than the reset timeout |
| `Hazards.BoundaryNeedsTheCleanup` | src/supervisor.rs:150-152 | nor is the reset alone: a run in which `clean_up` fails and a create slips in after the acknowledged reset |
| `Hazards.BoundaryNeedsEither` | src/supervisor.rs:149-161 | with neither, for any length of time: a run in which a synchronous attach holds the pipeline lock and the coordinator that long |
| `Hazards.BoundaryIsCleanIffBothSucceeded` | src/supervisor.rs:149-161 | the exact condition: all runs that start after a `clean_up` and a reset that came out so (acknowledged, or without reply) start with an empty map if and only if both succeeded |

## Left out

- HTTP parsing, CORS, telemetry, the command line and the process entry point.
- SDP text and its validation (`src/domain`): SDPs are opaque strings, so the two invalid-SDP errors do not occur.
- GStreamer itself: states, caps, pad callbacks, the topology `init` builds, codecs, the discoverer, and name lookup inside nested bins. What is kept are elements, links, tee pads and demux pads.
- A tee pad is assumed to be released when asked; that an element may refuse to be removed is modelled (`stuck`). A failed link is assumed to leave no pad behind.
- Tokio: fairness, wakeups and real time. Nothing is claimed about what is eventually done.
- `Instant` overflow, and the text of log messages and of errors that only carry a message (a failed attach is `Fatal` with a fixed text).
- The list order of `GET /list`: a listing is the map from id to state name.
- `Retry-After` and the statuses of routes other than DELETE.
- The end of the actor when every handle is dropped; it has no later state to speak of.
- Reply receivers: the set dropped is fixed per turn, not per send within a turn.
- Time passes in idle waits and pipeline calls only. A call that would finish exactly at the timeout still answers; the timeout is noticed only where the call waits, so it never cuts a synchronous attach off.
- `System` does not relate the supervisor's clock to the coordinator's, nor the pipeline's lock to who holds it: a turn may take any time against the reset timeout, and a `clean_up` may fail at any time.
- A step of a branch call that was cut off finishes between later calls, or while a call on the same branch is made finds nothing left to do; it does not interleave with the steps of another call.
- Agreement.MapAndPipelineAgree: is about one pipeline, from `init` to `clean_up`, whose pads and tees are in place, and a map that is empty when it begins; that a whip sink may take itself out of the pipeline after failing to send its offer is not modelled.
- Coordination.Coordinator.AddBranchBounded: its ledger knows only what the call answered. What a cut-off or failed `add_branch` may leave in the pipeline is counted among the leftovers of `Agreement`.
- Coordination.Coordinator.RemoveBranchBounded: likewise an Ok means `remove_branch` said so; elements that refused to go are leftovers too.
- BranchStore.SharablePipeline.AddBranch: its requires says that the pads the tees hand out are new and that the graph has the shape attaches and detaches keep; the initial graph is a parameter of `Init`.
- System.RunBoundary: has the success of both `clean_up` and reset as hypothesis; the exact condition is `Hazards.BoundaryIsCleanIffBothSucceeded`. A reset that finds the coordinator gone is not covered there: the actor outlives the supervisor's resets.
- System.CreatesAreRefusedAtTheBoundary: an `add_branch` looks at the slot once, when its turn begins, and a turn may only begin with an answer that slot can give.
- `TestPipeline` and the test suites.
