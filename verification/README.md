# MiniAV worker runtime: a verified model

This project models the parts of MiniAV that decide whether a scan is answered, by whom, and what survives the
replacement of a scanner worker, and proves what they guarantee.

- **The Runtime event loop** is one goroutine that owns workers, routes, requests and reply channels. `RuntimeSpec`
  gives one state for every event; where the program walks a Go map the specification has no order. `RuntimeLoop`
  (file Runtime.dfy) is the loop over mutable worker and request objects, one method per handler, re-entrant calls
  and deletion during iteration included, and every method is proved to arrive at the specified state. Sending a
  reply requires that the one-slot channel is still empty. `RuntimeInvariants`, `RuntimeSafety`, `RuntimeReplies`,
  `RuntimeMoves`, `RuntimePending` and `RuntimeProvenance` carry the invariants over all runs; `RuntimeLifecycle`,
  `RuntimeReloads`, `RuntimeWorkers`, `RuntimeGuarantees` and `RuntimeProvenance` state the guarantees; `RuntimeOrder`
  shows that the order of a walk does not matter; `RuntimeExamples` holds concrete runs against claims that are false.
  `RuntimeRecords`, `RuntimeBooks` and `RuntimeSays` say what one event makes of a worker, of a request and of the callers,
  written down from the event and the fields alone and proved of every step; `RuntimeAnswers`, `RuntimeChanges` and
  `RuntimeLogs` draw from them what callers are told, what workers become and what is sent to them over whole runs.
- **The worker session** (`WorkerSession`) is the other end of the connection. `HotSwap` joins it to the loop by
  FIFO queues and proves that a retired worker lost no work but answers it could not write. `HotReload` proves when the
  signature path on record, which an upgrade starts the next version with, is the one the worker scans with
  (`ReloadHistory` numbers the reloads); `HotReloadExamples` holds executions in which it is not. `HotAnswers` proves
  that what the two ends say to each other is valid, that a handshake succeeds iff the worker is who Core takes it for,
  and that only workers that report healthy are given scans.
- **The Coordinator** (`CoordinatorSpec`, `CoordinatorLoop`) is a smaller command machine over the same lifecycle;
  `CoordinatorOutcomes` proves that a command reports no error iff it took effect.
  `Refinement` proves that the Runtime loop does nothing the Coordinator would not allow.
- **The signature engine** (`Signatures`, `SignatureFiles`, `Utf8`), **the codecs** (`Protocol`, `ProtoCodec`), **the framing**
  (`Framing`) and **the aggregator** (`Aggregator`) are proved against what they stand for.

A run is any list of events: commands with reply channels, worker messages, failures, exits, timers and steps of the
outbound writers, in any order. Two assumptions are made of every run of the loop, because the transports establish
them: a SCAN_RESULT carries one of the five verdicts (both codecs reject any other), and each command brings a reply
channel of its own. A third, that a SHUTDOWN_ACK follows SHUTDOWN on its connection, is stated where it is used
(`AcksFollow`) and is a theorem of `HotSwap`. "Until shutdown begins" means while no shutdown reply is held.

Claims that the code does not meet are settled exactly, each with an input that breaks it and the condition under which
it holds:

- a worker can go from DRAINING back to HEALTHY after shutdown began (`Regression`; when: `RegressesExactly`), and a
  scanner can then have two candidates (`SecondCandidate`; when: `SecondCandidateExactly`);
- an early acknowledgement can leave a request waiting for a RETIRED worker until its timer fires (`EarlyAckStrands`;
  when: `ExitStrands`);
- a session acknowledges SHUTDOWN although an answer was lost (`LostThenAcknowledged`; which are lost: `NothingLost`);
- a reload that was given up still takes effect in the worker, and its late result can be taken for that of the next one
  (`StalePath`, `LatePath`, `WrongReload`; when the recorded path is the one in use: `AgreesExactly` in every execution,
  `PathInUse` if none is given up, `GivenUp` after the first that is, `EndsExactly` and `EndedByTheOther` for the next);
- a HELLO_ACK with an empty capability list is valid and does not survive either codec (`EmptyCapabilities`; when:
  `WireRoundTrip`, `ProtoRoundTrip`);
- which pattern a match reports depends on how the content was cut (`ChunkingChoosesPattern`; when: `CutsAgreeExactly`);
- LF-terminated databases do not reload when a pattern ends in CR (`LfLosesReturn`; when: `LfRoundTrip`).

## Model

| member | source | states |
|---|---|---|
| RuntimeLoop.RunEvents | pkg/coordinator/runtime.go:417-481 | any list of events, each command on a channel of its own, takes the object loop from its start to the state `Run` gives, in whatever order it walks its maps; no send ever meets a full reply channel |
| RuntimeLoop.Loop.Process | pkg/coordinator/runtime.go:433-480 | one turn of the select: the event, then the stop check; the state is exactly `Step` of the old one, and the whole invariant holds again |
| RuntimeLoop.Loop.HandleEvent | pkg/coordinator/runtime.go:437-473 | the dispatch: every event kind reaches the state its handler specifies |
| RuntimeLoop.Loop.RegisterWorker | pkg/coordinator/runtime.go:483-505 | a new STARTING record, unless the key is registered or its scanner has a candidate; the caller gets one reply |
| RuntimeLoop.Loop.BeginHello | pkg/coordinator/runtime.go:529-545 | HELLO is queued and the reply kept; a full queue answers the caller and fails the worker, and nothing else is written |
| RuntimeLoop.Loop.BeginHealth | pkg/coordinator/runtime.go:547-563 | as BeginHello, for HEALTH_CHECK |
| RuntimeLoop.Loop.ActivateWorker | pkg/coordinator/runtime.go:565-581 | the HEALTHY worker takes the route, the one it displaces drains and is asked to stop iff nothing is in flight |
| RuntimeLoop.Loop.FailWorkerCommand | pkg/coordinator/runtime.go:583-594 | only a candidate can be failed by command |
| RuntimeLoop.Loop.HandleWorkerMessage | pkg/coordinator/runtime.go:596-640 | each message type takes the loop to the state specified for it, and messages of FAILED and RETIRED workers are ignored; what each message makes of a worker and what it tells the callers who wait is stated in its fields by `StateChanges`, `HelloTold`, `HealthTold` and `ReloadTold` |
| RuntimeLoop.Loop.BeginScan | pkg/coordinator/runtime.go:642-668 | the request is tracked for every routed worker before any SCAN is queued; workers whose queue is full fail, which may complete the request at once; the outcome does not depend on the order; when a scan is admitted and what a caller is told who is refused is stated by `ScanAdmitted` |
| RuntimeLoop.Loop.RecordScanResult | pkg/coordinator/runtime.go:670-681 | a result fills a pending entry of its own worker only, and completes the request if that was the last |
| RuntimeLoop.Loop.TimeoutScan | pkg/coordinator/runtime.go:683-694 | every pending entry becomes TIMEOUT and the request completes |
| RuntimeLoop.Loop.CompleteRequest | pkg/coordinator/runtime.go:705-723 | the caller is answered once, the request forgotten, and each of its workers released, a DRAINING one with nothing left being asked to stop |
| RuntimeLoop.Loop.BeginReload | pkg/coordinator/runtime.go:725-746 | one reload at a time per routed worker; a full queue answers the caller and fails the worker |
| RuntimeLoop.Loop.RecordReloadResult | pkg/coordinator/runtime.go:748-764 | the reply slot is answered and emptied; the path changes only on success |
| RuntimeLoop.Loop.TimeoutReload | pkg/coordinator/runtime.go:766-773 | a reload still pending is answered with an error |
| RuntimeLoop.Loop.HandleWorkerFailure | pkg/coordinator/runtime.go:775-805 | the worker is FAILED and unrouted, its reply slots are answered, its pending entries become UNAVAILABLE and what that completes is completed, over all requests in any order, while requests are deleted |
| RuntimeLoop.Loop.HandleWorkerExit | pkg/coordinator/runtime.go:807-823 | DRAINING and acknowledged retires; FAILED and RETIRED only note the exit; anything else fails |
| RuntimeLoop.RuntimeWorker.RequestShutdown | pkg/coordinator/runtime.go:825-833 | SHUTDOWN is requested once; a full queue terminates the child instead |
| RuntimeLoop.RuntimeWorker.Queue | pkg/coordinator/runtime.go:835-842 | a send that never blocks: queued iff there is room |
| RuntimeLoop.Loop.BeginShutdown | pkg/coordinator/runtime.go:844-862 | every tracked request is answered, no route is left, every live worker drains and is asked to stop |
| RuntimeLoop.Loop.AllWorkersStopped | pkg/coordinator/runtime.go:864-871 | true iff every registered worker has exited |
| RuntimeSafety.RunKeeps | pkg/coordinator/runtime.go:417-481 | the invariant (routes, exact counts, entries, drain gate, queues, candidates, history) holds after every run |
| RuntimeRecords.OneWorkerView | pkg/coordinator/runtime.go:483-871 | one step as a worker sees it, field by field from the event: its new state, slots, path, exit and log, the count of its requests, the request to stop once that is 0, and the end of the loop |
| RuntimeRecords.NewWorkerView | pkg/coordinator/runtime.go:483-505 | a worker is added by its registration only, iff its key is new and its scanner has no candidate, with an empty STARTING record |
| RuntimeRecords.LoopView | pkg/coordinator/runtime.go:417-481 | routes are exactly the ACTIVE workers, request IDs count the scans admitted, the first Shutdown is kept, and the loop ends on cancellation or when a shutdown is kept and every worker has exited |
| RuntimeBooks.OneRequestView | pkg/coordinator/runtime.go:642-723 | one step as a request sees it: which entries the event fills and with what, whether that completes it, whether it is the request that the event admits; everything else in it stays |
| RuntimeSays.CallersView | pkg/coordinator/runtime.go:437-477 | one step as callers see it: a reply is sent iff the event gives that answer to its own caller, to one who waits for a worker, or to the caller of a scan it completes, or iff the loop ends with the shutdown asked for |
| RuntimeLifecycle.Routing | pkg/coordinator/runtime.go:565-581 | in every reachable state a scanner routes to k iff k is registered, has that scanner ID and is ACTIVE, so the unguarded lookups find a worker |
| RuntimeLifecycle.DrainGate | pkg/coordinator/runtime.go:642-723 | `inFlight` equals the number of tracked requests with an entry for the worker; a DRAINING worker was asked to stop iff it is 0; once asked, it stays asked and nothing is ever assigned again |
| RuntimeLifecycle.OutboundOrder | pkg/coordinator/runtime.go:651-667 | in everything ever queued to a worker SHUTDOWN occurs at most once, no SCAN follows it, SCAN IDs strictly increase; the log only grows |
| RuntimeLifecycle.Lifecycle | pkg/coordinator/runtime.go:483-493 | FAILED and RETIRED are final; until shutdown begins states only move forward and a scanner has at most one candidate |
| RuntimeLifecycle.RegressesExactly | pkg/coordinator/runtime.go:613-625 | a step takes a state backwards if and only if it is an awaited HEALTH_RESULT ok from a DRAINING worker |
| RuntimeWorkers.SecondCandidateExactly | pkg/coordinator/runtime.go:488-492 | a scanner comes to have two candidates if and only if a worker of its goes back from DRAINING to HEALTHY while it has one |
| RuntimeWorkers.TwoCandidates | pkg/coordinator/runtime.go:488-492 | every run that ends with two candidates of a scanner has such an event, after shutdown began |
| RuntimeExamples.SecondCandidate | pkg/coordinator/runtime.go:613-625 | a run of five events after which a scanner has two candidates |
| RuntimeExamples.Regression | pkg/coordinator/runtime.go:856-861 | a run of four events in which a worker goes from DRAINING back to HEALTHY |
| RuntimePending.NoStranded | pkg/coordinator/runtime.go:642-703 | in every reachable state each tracked request has its timer and a pending entry; if acknowledgements follow SHUTDOWN, every pending entry waits for an ACTIVE or DRAINING worker that was not asked to stop |
| RuntimePending.ExitStrands | pkg/coordinator/runtime.go:807-823 | an exit leaves an entry of its worker pending iff the worker was DRAINING and had acknowledged already |
| RuntimeExamples.EarlyAckStrands | pkg/coordinator/runtime.go:630-636 | a run in which an acknowledgement before SHUTDOWN leaves a request waiting for a RETIRED worker |
| RuntimeReplies.ReplyDiscipline | pkg/coordinator/runtime.go:529-805 | over every run no reply channel is answered twice, only channels of commands are answered, and while the loop runs every command was answered or its channel is still kept in exactly one slot |
| RuntimeMoves.RunMoves | pkg/coordinator/runtime.go:417-481 | whatever events follow, workers, logs, replies and requests only move on: terminal states stay, logs are extended, answered entries and completed requests never change |
| RuntimeProvenance.Admission | pkg/coordinator/runtime.go:642-663 | every request was admitted by one ScanRequest event, and its entries are those of exactly the workers routed at that moment, whatever was activated later |
| RuntimeProvenance.Provenance | pkg/coordinator/runtime.go:670-805 | every answered entry was written at a definite event, by its own worker's SCAN_RESULT, its timer, its worker's failure with that failure's reason, or shutdown |
| RuntimeProvenance.OwnVerdict | pkg/coordinator/runtime.go:670-681 | an entry says CLEAN or MALWARE iff that worker itself answered so while the entry was pending |
| RuntimeProvenance.DeliveredVerdict | pkg/coordinator/runtime.go:705-722 | the caller of an answered request got one reply and no aggregation error: MALWARE iff a worker routed at admission answered MALWARE, CLEAN iff all answered CLEAN, else INCONCLUSIVE |
| RuntimeAnswers.ScanReplied | pkg/coordinator/runtime.go:705-722 | over every run a caller is sent the answer of a scan iff that scan was completed, with its channel, its ID and its entries; the verdict is no error, MALWARE iff one of its workers answered MALWARE in time, CLEAN iff all answered CLEAN |
| RuntimeAnswers.ScanAdmitted | pkg/coordinator/runtime.go:642-663 | a scan taken while the loop runs is admitted, with an entry for each ACTIVE worker, iff no shutdown reply is held and some scanner has a route; otherwise its caller is told which is missing, and one whose scan was admitted is told nothing but its verdict |
| RuntimeAnswers.HelloTold | pkg/coordinator/runtime.go:529-612 | BeginHello is answered Ok iff the HELLO_ACK of its worker arrives while the check is pending and names the scanner ID and version of the key; one that names others is answered as a mismatch; every other answer is an error |
| RuntimeAnswers.HealthTold | pkg/coordinator/runtime.go:547-625 | BeginHealth is answered Ok iff the HEALTH_RESULT of its worker arrives while the check is pending with status "ok"; with any other status the answer is that the worker is unhealthy; every other answer is an error |
| RuntimeAnswers.ReloadTold | pkg/coordinator/runtime.go:725-773 | a reload is answered with a result iff the RELOAD_RESULT of the worker that keeps its channel arrives, with the count of that message and without an error iff it says success; a timeout and everything else answer an error |
| RuntimeChanges.StateChanges | pkg/coordinator/runtime.go:483-871 | the exact event for each change of state: HEALTHY by an awaited HEALTH_RESULT "ok", ACTIVE by activation of a HEALTHY worker, DRAINING by activation of another or by the first shutdown, RETIRED by the exit of a DRAINING worker that acknowledged, FAILED by a failure whose reason it keeps |
| RuntimeChanges.WasHealthy | pkg/coordinator/runtime.go:613-625 | every worker that is HEALTHY or ACTIVE after any run sent a HEALTH_RESULT with status "ok" while a health check of it was pending |
| RuntimeChanges.ScannedWasHealthy | pkg/coordinator/runtime.go:642-663 | and so did every worker with an entry in any request, before the scan was asked for |
| RuntimeChanges.FailureTold | pkg/coordinator/runtime.go:775-797 | whoever waits for a check or reload of a worker that fails is told the reason it failed for |
| RuntimeChanges.CommandTold | pkg/coordinator/runtime.go:483-594 | registration, activation and failure by command are answered Ok iff they took effect, and with an error otherwise; a query is answered with exactly the ACTIVE worker of the scanner and its path |
| RuntimeChanges.ShutdownTold | pkg/coordinator/runtime.go:465-478 | a Shutdown is answered Ok iff it was the first and the loop ended with it; a later one is refused |
| RuntimeLogs.LogsWritten | pkg/coordinator/runtime.go:529-746 | over every run every message ever queued to a worker is one of the five commands with no field set that does not belong there: a SCAN has the ID and the path of a request with an entry for the worker, a RELOAD a path that a caller gave for its scanner |
| RuntimeLogs.QueueBound | pkg/coordinator/runtime.go:835-842 | no queue is ever longer than the capacity |
| RuntimeGuarantees.CandidateIsolation | pkg/coordinator/runtime.go:583-594 | nothing that happens to a STARTING or HEALTHY worker, failing included, changes a route, a request or another worker |
| RuntimeGuarantees.ShutdownSettles | pkg/coordinator/runtime.go:844-862 | once shutdown has begun every request ever admitted is answered, and none is ever admitted again |
| RuntimeGuarantees.ShutdownCompletes | pkg/coordinator/runtime.go:467-478 | when the shutdown reply is sent every worker has exited and is FAILED or RETIRED and nothing is routed; while it is not, some worker still runs |
| RuntimeGuarantees.Progress | pkg/coordinator/runtime.go:670-703 | without new scans pending entries and tracked requests only shrink, and the number of pending entries drops exactly at an accepted result, a timer, a failure of a worker waited for, or shutdown |
| RuntimeReloads.SignaturePath | pkg/coordinator/runtime.go:725-773 | over every run a worker's signature path changes only to the path of a RELOAD that was queued to that worker, and only when a reload ends |
| RuntimeReloads.CreditedPath | pkg/coordinator/runtime.go:748-764 | over every run the path is that of the reload that was under way, and so the newest, when the last good result came; before any, the one registered |
| WorkerSession.HandleScan | pkg/worker/worker.go:131-166 | ERROR iff opening, reading, matching or closing failed or the path is no regular file, with the first failure as its error and no signature; else MALWARE with the signature iff a match; the ID is the request's and nothing else is set |
| WorkerSession.ValidateConfig | pkg/worker/worker.go:168-182 | a session is refused iff its scanner ID, version or signature path is blank |
| WorkerSession.WorkerLoop.Receive | pkg/worker/worker.go:81-127 | one turn of the receive loop takes the session to the state specified for it, which `HearExactly` states field by field; a failed write and a crash function that returns end the loop, the latter without waiting for the scans |
| WorkerSession.WorkerLoop.FinishScan | pkg/worker/worker.go:103-109 | a running scan leaves the wait group with one answer of its ID, which is sent or, when writing it fails, lost without ending the session |
| WorkerSession.WorkerLoop.WaitForScans | pkg/worker/worker.go:117-119 | SHUTDOWN is acknowledged only when no scan is running |
| WorkerSession.HearExactly | pkg/worker/worker.go:81-127 | what one message makes of a session, field by field: the answer with its own identity and capabilities, its health or what the load came to, what starts running, what ends the loop |
| WorkerSession.HearKeeps | pkg/worker/worker.go:81-127 | every turn keeps that a session sends only its own identity, its own health, what its loads came to with their counts, verdicts of scans it heard, and its acknowledgement; each HELLO and HEALTH_CHECK is answered once while the loop goes on, and it goes on for commands only |
| WorkerSession.StopsExactly | pkg/worker/worker.go:103-127 | what the end of a scan, of the stream, of the wait for scans and of the process makes of a session |
| WorkerSession.AcknowledgedAnswered | pkg/worker/worker.go:98-119 | a session that acknowledged had, before that, answered every SCAN it ever received once, but for those whose answer was lost |
| WorkerSession.LostThenAcknowledged | pkg/worker/worker.go:103-119 | a session that loses its only answer and acknowledges SHUTDOWN all the same |
| HotSwap.ExecuteKeeps | pkg/coordinator/runtime.go:507-527 | in every execution of the composed system the loop sees a valid run, with acknowledgements only after SHUTDOWN, and each connection is FIFO |
| HotSwap.ScanWasQueued | pkg/coordinator/runtime.go:642-668 | every worker with an entry in a request was sent the SCAN for it, or has failed |
| HotSwap.NothingLost | pkg/coordinator/runtime.go:807-833 | when a worker is RETIRED every SCAN ever queued to it was consumed, and Core handled exactly one SCAN_RESULT with its ID before the SHUTDOWN_ACK, or none if and only if writing it failed; so for every request with an entry for it |
| HotSwap.RetiredEntry | pkg/coordinator/runtime.go:626-636 | no entry of a RETIRED worker is pending or says that it failed: each is its own answer, a timeout, or shutdown |
| HotSwap.NoneStranded | pkg/coordinator/runtime.go:642-703 | in the composed system no request waits for a worker that cannot answer, with nothing assumed of acknowledgements |
| HotSwap.ComposedRefines | pkg/coordinator/runtime.go:483-823 | in the composed system the refinement below needs no assumption on acknowledgements |
| HotAnswers.HandedOver | pkg/coordinator/runtime.go:507-527 | whatever Core is handed in the name of a worker is something its session sent, of its own identity and health |
| HotAnswers.IdentityAnswered | pkg/coordinator/runtime.go:601-612 | in every execution a HELLO_ACK that Core waits for is answered Ok iff the session runs under the scanner ID and version of the key, and as a mismatch otherwise, and its caller is told nothing else |
| HotAnswers.RoutedReportsHealthy | pkg/coordinator/runtime.go:613-625 | no worker whose session reports itself unhealthy is ever HEALTHY or ACTIVE |
| HotAnswers.ScannedReportsHealthy | pkg/coordinator/runtime.go:642-663 | and none is ever given a scan |
| HotAnswers.ReloadPassedOn | pkg/coordinator/runtime.go:748-764 | every result of a reload that Core passes on is what a load of the session of that worker came to, with the count or the error of that load |
| HotAnswers.SentIsValid | pkg/protocol/protocol.go:73-140 | when each message that either end sends is valid: a verdict iff it has a request ID, MALWARE with its signature included, SCAN and RELOAD iff the path says something, an identity iff it is not blank, all others always |
| HotAnswers.TrafficIsValid | pkg/protocol/protocol.go:73-140 | in every execution every command ever queued is valid unless its path is blank, and every message of a session is valid if its configuration names it and its loads say why they fail |
| HotReload.AgreesExactly | pkg/coordinator/runtime.go:725-773 | in every execution, whatever was given up and however late results come, Core records the path of the reload it last credited with a good result and the worker scans with that of the reload it last loaded; they agree if and only if these two reloads have the same path |
| HotReload.PathInUse | pkg/coordinator/runtime.go:725-773 | while the loop runs, they agree for a worker that is neither FAILED nor RETIRED whenever no reload of it is under way, if none was ever given up |
| HotReload.GivenUp | pkg/coordinator/runtime.go:766-773 | from the first reload of a worker that is given up, at any point and whatever follows, until another begins: they agree if and only if its RELOAD was not received, or loading it failed, or the paths are the same |
| HotReload.EndsExactly | pkg/coordinator/runtime.go:748-764 | a result is believed for the reload under way, whichever it answers; until another begins they agree if and only if the reload that last loaded has the recorded path, which, when no other result was owed, means that it succeeded or that they agreed before |
| HotReload.EndedByTheOther | pkg/coordinator/runtime.go:725-773 | a reload that begins while the result of the one given up is owed is ended by that result: they then agree if and only if both loaded or neither did, or the new path is the one in use before its RELOAD was received |
| HotReloadExamples.StalePath | pkg/coordinator/runtime.go:766-773 | an execution in which the RELOAD is received after its timeout: Core records the old path for a worker that scans with the new one |
| HotReloadExamples.LatePath | pkg/coordinator/runtime.go:766-773 | the same with the timeout while the result is on its way |
| HotReloadExamples.WrongReload | pkg/coordinator/runtime.go:748-764 | an execution in which that late result is taken for the result of the next reload: Core records a path that the worker never loaded |
| CoordinatorLoop.Coordinator.Process | pkg/coordinator/coordinator.go:287-307 | each command takes the objects to the state and error the specification gives; from a state with the invariant it keeps it and reports no error iff the command took effect |
| CoordinatorLoop.Coordinator.RegisterWorker | pkg/coordinator/coordinator.go:311-335 | the checks in order; a new STARTING worker iff all pass |
| CoordinatorLoop.Coordinator.MarkWorkerHealthy | pkg/coordinator/coordinator.go:351-361 | STARTING becomes HEALTHY, anything else is refused |
| CoordinatorLoop.Coordinator.FailCandidate | pkg/coordinator/coordinator.go:363-381 | a candidate becomes FAILED even when terminating its process then fails |
| CoordinatorLoop.Coordinator.ActivateWorker | pkg/coordinator/coordinator.go:383-401 | the route changes hands, the previous worker drains |
| CoordinatorLoop.Coordinator.RetireWorker | pkg/coordinator/coordinator.go:403-418 | a DRAINING worker retires iff no request waits for it; no error is reported iff it went from DRAINING to RETIRED and nothing else changed |
| CoordinatorLoop.Coordinator.TrackRequest | pkg/coordinator/coordinator.go:420-452 | a request is tracked whole or not at all; the first key in trouble decides the error |
| CoordinatorLoop.Coordinator.RecordResult | pkg/coordinator/coordinator.go:454-471 | a verdict is recorded once, for an assigned worker |
| CoordinatorLoop.Coordinator.RecordWorkerExit | pkg/coordinator/coordinator.go:486-506 | a worker that is not RETIRED becomes FAILED, unrouted, and its pending verdicts UNAVAILABLE; another process ID is ignored |
| CoordinatorLoop.Coordinator.MarkPendingUnavailable | pkg/coordinator/coordinator.go:508-514 | exactly the pending verdicts of the worker become UNAVAILABLE, over all requests in any order |
| CoordinatorSpec.RunKeeps | pkg/coordinator/coordinator.go:311-514 | after every command sequence: routes are exactly the ACTIVE workers, pending verdicts belong to ACTIVE or DRAINING workers, one candidate per scanner |
| CoordinatorSpec.RunMoves | pkg/coordinator/coordinator.go:351-514 | over every continuation states only move forward, a request keeps its key set, a verdict once given stays |
| CoordinatorSpec.AssignExactly | pkg/coordinator/coordinator.go:431-449 | tracking succeeds exactly for distinct registered workers that are ACTIVE or FAILED, whose entries start pending or UNAVAILABLE |
| CoordinatorSpec.PendingDiscipline | pkg/coordinator/coordinator.go:371-416 | in every reachable state a pending verdict belongs to an ACTIVE or DRAINING worker, a RETIRED worker has none, the sweep of failWorker changes nothing, and the error for an invalid active route cannot occur |
| CoordinatorOutcomes.CommandExactly | pkg/coordinator/coordinator.go:311-506 | in every reachable state a command reports no error iff it took effect, and iff the state allows it; with an error nothing changed, but for a candidate marked FAILED whose termination failed |
| CoordinatorOutcomes.ErrorExactly | pkg/coordinator/coordinator.go:311-506 | each error is reported for its own reason, in the order in which the reasons are looked for, the first key in trouble deciding that of tracking |
| Refinement.RuntimeRefinesCoordinator | pkg/coordinator/runtime.go:483-823 | until shutdown, with acknowledgements after SHUTDOWN and keys and reasons not blank, each event of any run corresponds to a finite sequence of successful Coordinator commands, after which states, routes and verdicts agree |
| Aggregator.Aggregate | pkg/aggregator/aggregator.go:18-44 | the answer is the policy on the set of verdicts, so neither order nor repetition matters |
| Aggregator.Policy | pkg/aggregator/aggregator.go:18-44 | an error iff there is no verdict or an invalid one; else MALWARE iff one is MALWARE, CLEAN iff all are CLEAN |
| Signatures.MatchContent | pkg/signatures/signatures.go:105-139 | for every cutting of the content into reads: a match is reported iff a pattern occurs in the bytes delivered, at the first prefix that holds one, with the pattern of lowest index there; else how reading ended |
| SignatureFiles.AnswersExactly | pkg/signatures/signatures.go:105-139 | while no pattern stands in what was read, the answer is the error of the reader, nothing found at the end of the content, or no progress after a read of nothing, by the first read that is one of these |
| SignatureFiles.FindsExactly | pkg/signatures/signatures.go:114-118 | at the first read after which the content holds a pattern, the one of lowest index that it holds is reported |
| SignatureFiles.OccursExactly | pkg/signatures/signatures.go:114-118 | a pattern is found in a content iff the content is something, the pattern, and something more |
| Signatures.WindowSuffices | pkg/signatures/signatures.go:108-128 | a pattern that has not occurred yet occurs after the next read iff it occurs in the window, patterns longer than the buffer included |
| Signatures.ChunkingIrrelevant | pkg/signatures/signatures.go:114-118 | whether something is found depends on the bytes delivered only |
| Signatures.CutsAgreeExactly | pkg/signatures/signatures.go:105-139 | for reads up to a bound, or of any size: all ways to cut the content report the same pattern if and only if the shortest prefix that holds a pattern and the longest that can be searched first have the same lowest pattern |
| Signatures.AnyCutsAgree | pkg/signatures/signatures.go:114-118 | without a bound the longest prefix is the whole content |
| Signatures.BufferCutsAgree | pkg/signatures/signatures.go:106-109 | with the buffer of the matcher it ends one buffer after the last prefix that holds nothing |
| Signatures.ChunkingChoosesPattern | pkg/signatures/signatures.go:114-118 | the same bytes cut in two ways give different patterns |
| Signatures.Store.Match | pkg/signatures/signatures.go:52-61 | the answer is right for the database published when the match began, whatever is published during it |
| Signatures.Store.Reload | pkg/signatures/signatures.go:35-42 | a failed load leaves the published database; a good one replaces it and its size is returned |
| Signatures.Load | pkg/signatures/signatures.go:63-103 | the database of the file, or the first error |
| Signatures.LoadedIsNormal | pkg/signatures/signatures.go:79-102 | patterns are distinct, not empty, without newline and not comments; the set is theirs, the maximum exact |
| Signatures.PatternsExactly | pkg/signatures/signatures.go:82-95 | the patterns are exactly the trimmed lines that are neither empty nor comments, each once |
| Signatures.FirstOccurrenceOrder | pkg/signatures/signatures.go:87-91 | an earlier pattern occurs first in the file before any occurrence of a later one |
| SignatureFiles.LoadExactly | pkg/signatures/signatures.go:63-103 | in the bytes of the file: it loads iff it is a regular file that can be read and is well-formed UTF-8, else the first of these is the error; its patterns are what its lines stand for, one carriage return dropped, but for empty lines and those that start with a number sign, each once |
| SignatureFiles.LoadOrder | pkg/signatures/signatures.go:82-95 | the order of the patterns is that of the first lines that stand for them |
| SignatureFiles.LinesExactly | pkg/signatures/signatures.go:82-83 | the lines are the one way to write the file as pieces without a line feed, joined by line feeds |
| Utf8.ValidExactly | pkg/signatures/signatures.go:75-77 | well-formed is exactly what encodes a sequence of Unicode scalar values in their shortest forms |
| Signatures.PrintIsValid | pkg/signatures/signatures.go:75-102 | what is printed of a loaded database is well-formed UTF-8, with LF or CR LF |
| Signatures.CrLfRoundTrip | pkg/signatures/signatures.go:79-102 | printing any loaded database with CR LF and loading that gives the same database |
| Signatures.LfRoundTrip | pkg/signatures/signatures.go:82-83 | with LF alone that holds iff no pattern ends in CR |
| Signatures.LfLosesReturn | pkg/signatures/signatures.go:82-83 | a file that loads with a pattern ending in CR, and whose LF printing loads to another database |
| Protocol.Validate | pkg/protocol/protocol.go:73-140 | accepts exactly the valid messages, which `ValidExactly` states type by type; a message that is not valid is refused for the first check it fails |
| Protocol.ValidExactly | pkg/protocol/protocol.go:73-140 | validity type by type in the fields of the message: what a type does not list is empty, what it lists is as the protocol asks |
| Text.BlankExactly | pkg/protocol/protocol.go:84-100 | a string is blank iff each of its characters is one of the 25 white space code points |
| Protocol.CheckCapabilities | pkg/protocol/protocol.go:101-110 | accepts exactly lists of distinct capabilities that are not blank |
| Protocol.ValidateAllowedFields | pkg/protocol/protocol.go:279-304 | accepts iff every field that is set is allowed for the type |
| Protocol.ValidateWireFieldPlacement | pkg/protocol/protocol.go:306-322 | accepts iff every field present is allowed for the type |
| Protocol.ValidateRequiredWireFields | pkg/protocol/protocol.go:198-219 | accepts iff the required fields are present |
| Protocol.Marshal | pkg/protocol/protocol.go:151-161 | succeeds iff the message is valid |
| Protocol.Unmarshal | pkg/protocol/protocol.go:163-184 | succeeds iff the record stands for a valid message, and returns that one |
| Protocol.AcceptedExactly | pkg/protocol/protocol.go:163-277 | a wire record is accepted iff it stands for a valid message and ID, duration, success and count are present for the types they belong to, zero or not, and for no others; every field is taken over as it is |
| Protocol.WireExactly | pkg/protocol/protocol.go:221-248 | the record of a message: a count is left out of a failed reload without one, an empty capability list always |
| Protocol.WireRoundTrip | pkg/protocol/protocol.go:221-277 | a valid message comes back from the wire as itself iff its capabilities are not an empty list; otherwise it does not come back at all |
| Protocol.EmptyCapabilities | pkg/protocol/protocol.go:61-61 | a valid HELLO_ACK that its own wire form does not carry |
| ProtoCodec.ToProto | pkg/workertransport/protobuf.go:14-45 | succeeds iff the message is valid and its count fits in int32 |
| ProtoCodec.ValidateProtoPresence | pkg/workertransport/protobuf.go:87-106 | accepts iff the optional fields are present exactly where their type wants them |
| ProtoCodec.FromProto | pkg/workertransport/protobuf.go:47-85 | succeeds iff the payload stands for a valid message, and returns that one |
| ProtoCodec.ProtoAcceptedExactly | pkg/workertransport/protobuf.go:47-142 | a payload is accepted iff it stands for a valid message, duration, success and count are present exactly where they belong, and the number of the verdict is the one it stands for; every field is taken over as it is |
| ProtoCodec.VerdictNumbers | pkg/workertransport/protobuf.go:108-123 | each of the five verdicts has the number of its own name, and nothing else has one of these |
| ProtoCodec.PackedExactly | pkg/workertransport/protobuf.go:14-45 | the payload of a message, field by field, and when its count is too large |
| ProtoCodec.ProtoRoundTrip | pkg/workertransport/protobuf.go:14-85 | a valid message comes back from its payload as itself iff its capabilities are not an empty list |
| ProtoCodec.CodecsCommute | pkg/workertransport/protobuf.go:14-142 | both codecs carry a valid message to the same message, or both to none |
| Framing.Decoder.Decode | pkg/ipc/ipc.go:36-67 | one call gives the answer and the new input the specification gives, for any payload codec |
| Framing.SliceIsPayload | pkg/ipc/ipc.go:57-61 | a frame read whole is within the size limit, so the second size check cannot fire |
| Framing.FramingRoundTrip | pkg/ipc/ipc.go:36-67 | the frames of any newline-free payloads within the limit decode, call by call, to those payloads in order, then to the end for ever; a bad payload loses no later frame |
| Framing.FailsExactly | pkg/ipc/ipc.go:41-52 | oversize and unterminated failures occur exactly when the limit is passed without a newline, or the stream ends inside a frame |
| Framing.DecodesExactly | pkg/ipc/ipc.go:36-67 | one call in the bytes of the stream: the payload before a line feed among the first 65537 bytes, else too large, the error of the reader without sticking, the end, or an unterminated frame; and what is left for the next call |
| Framing.FailureSticks | pkg/ipc/ipc.go:37-39 | after either every further call gives the same failure |
| Framing.WriteAll | pkg/ipc/ipc.go:86-98 | for every pattern of short writes: without an error all the data is written, and with one a prefix of it |
| Framing.WriteEndExactly | pkg/ipc/ipc.go:86-98 | writing succeeds iff every write that is made takes something and reports no error; otherwise it ends with the error of the first that does not, a short write if that one took nothing |
| Framing.Encode | pkg/ipc/ipc.go:69-84 | payload and newline reach the writer, or nothing does if the payload cannot be marshalled or is too large |
| Framing.EncodeAll | pkg/ipc/ipc.go:69-98 | when no call fails, encoding a list of messages leaves exactly their frames on the writer, whatever it takes at a time; and none fails if every message fits and the writer never errs or stalls |
| Framing.DecodeAll | pkg/ipc/ipc.go:36-67 | n calls give the n answers the specification gives |
| Framing.MessagesRoundTrip | pkg/ipc/ipc.go:36-98 | a list of messages encoded on any writer that takes a part at a time and decoded from what it holds: the same messages in order, then the end for ever |

## Left out

- Request IDs are unbounded; the wrap of the uint64 counter is not modelled.
- Error texts are constants, one per kind of error; the values that the program formats into them are dropped.
- The worker and request objects of RuntimeLoop keep their fields in one record each; an assignment to a field is an update of that record.
- The writer goroutine is an event that takes one message from a queue; a message it has taken but not yet sent counts as written. `connection.Send` failing is a WorkerFailure event.
- Timers, exits, cancellation of the context and worker failures are events that may come at any time; real time is not modelled.
- Terminating a child is a flag; process start, kill and wait, sockets, gRPC dialling and bootstrap frames are not part of this model.
- The result of `StartWorker`, which may be an error after activation took effect, and the waiting of callers on contexts are not modelled; replies are what the loop sends.
- A graceful worker may end FAILED when its exit overtakes its acknowledgement; only consequences of RETIRED are proved, not that RETIRED is reached.
- WorkerSession: a write that fails leaves nothing on the connection; a frame cut short would make the decoder at the other end fail, which is a WorkerFailure event.
- WorkerSession: the errors RunSession returns are not told apart; only that it returned is modelled.
- WorkerSession.ValidateConfig: the scan delay is not modelled, and with it the check that it is not negative.
- HotAnswers.TrafficIsValid: that a load which fails says why is a condition, because the errors of the operating system come from outside.
- Signatures: opening and reading the file are outcomes given to `Load`.
- Signatures: `MatchContent` and its lemmas hold for reads of any size; the 32 KiB bound on one read enters only where it matters, in `BufferCutsAgree`.
- Protocol: JSON text and the generated protobuf code are not modelled; a message crosses as a record, with `omitempty` and field presence explicit.
- Framing: the stream's end or error is reported by a read of its own, after the last bytes.
- Framing: that JSON payloads hold no newline rests on section 7 of RFC 8259 and is a condition of the round trip.
- Snapshot and status formatting, logging, configuration, the command line, the control transport and `pkg/update` are not modelled.
