# xGovernor protocols in Dafny

A model of the concurrent and crash-prone protocols of the xGovernor control plane, with proofs of what they keep over every run. `dafny verify dfyconfig.toml` checks the whole project.

| files | what they model |
|---|---|
| `SnapshotWorld`, `SnapshotProtocol`, `SnapshotSafety`, `SnapshotConvergence`, `SnapshotOutcomes`, `SnapshotPublication` | checkpoint, load, fork and delete with write-ahead intents; close; the background reconciler |
| `XiaooTurn`, `XiaooSafety`, `XiaooTrace`, `XiaooRollback` | the xiaoO supervisor and its worker: submit, cancel, answer, load, reader, forwarder, and submit's rollback |
| `PiLifecycle` | Pi's cancel watchdog, start, restart and stop |
| `TurnGate`, `TurnRuns`, `Forwarder` | one active turn per session, replay receipts, the forwarder of a turn's events |
| `SessionFile` | repair of a Pi session file after a crash |
| `AgentRegistry`, `AgentRuns` | background agent operations of the MCP endpoint and their polls |
| `EventStream` | the chunked reader of the Responses event stream |
| `HostPath`, `HostPolicy` | resolution of host paths, admission of host requests |

## How the model is built

A protocol of several tasks is a state machine: `Step(s, action)` is total, an action that is not enabled changes nothing, every await is one action whose outcome the environment chooses, and a theorem ranges over `Run(Initial, actions)` for every list of actions. Objects that are updated in place and loops are classes and methods proved against specification functions; the laws are lemmas about those functions.

Assumptions of the snapshot model: ids, and the runtime ids given to a load or a fork, are new. A repository error means that nothing was written; a failed call to a provider or a runtime may still have taken effect. `request:<id>` names the snapshot made with that request id. Deleting what is absent answers NotFound, which the code treats as success. A history is tracked from the second intent write on, so one exported just before a crash is not claimed about. A request in flight takes no effect after its caller crashed. A session that lost its instance is not given another: restoring a runtime attaches to the instance the provider has. An instance disappears only by a stop the model makes, and inspecting an absent one does not answer Active. Every session row names its provider, with the row and for good; what a process has registered is fixed until it restarts, with the same registration (`Crash`) or another (`Reregister`). A session row's status, by contrast, may be overwritten at any time and with any value, as the repository's upsert allows. Checkpoint, load, fork, delete and a reconcile pass hold the transaction lock for their whole length, so at most one of them is under way; close runs beside them and shares only the publication lock.

Assumptions of the turn models: worker lines are well formed, turn ids are unique, `worker_error_event` is terminal, and a call of the supervisor runs to its end, except that a cancel may be dropped at any await. Submit's rollback paths are outside the runs of `XiaooSafety` and `XiaooTrace`; `XiaooRollback` lets xiaoO's rollback, await by await, interleave with everything else. In the runs of the turn gate, replay check and claim of a submission are one step and the runtime's answer is another; `StaleClaimIff` takes one submission's check and claim apart.

JSON, UTF-8, hashing and Unicode white space are function parameters. Times and counters are unbounded, except that the reconciler's retry fields saturate at the largest 64-bit number as in the code.

## Findings

- A fork whose source names no registered provider skips its first intent write but not its second. It leaves an intent that no reconcile pass can settle (`UnresolvableForkLeavesIntent`, `UnresolvableStays`). A pass without failures settles everything exactly when every named provider is registered (`ReconcilePass`).
- A Closed row does not end publication, because the forwarder, a failed restoration or a stale copy of the record may overwrite its status. What ends it is that the instance is destroyed or out of reach. Processes with the same registration can still take a row from a session exactly when its instance exists and its provider resolves (`PublishableIff`); a close destroys the instance exactly when the provider resolves, so nothing is published after any close (`NothingPublishedAfterAnyClose`). A restart that registers the provider of an instance left behind makes its session publishable again: over all later processes the condition is that the instance exists (`PublishableLaterIff`).
- xiaoO's rollback after a failed write of the submit line calls the backend's finish and then clears the slot, without the completion lock. From the failed write on, some continuation lets the cancel of one turn abort another exactly when the worker is alive (`FailedWriteMisfiresIff`), and some continuation always calls the backend outside a turn segment (`FailedWriteStrays`): a cancel between the two awaits does both (`CancelBetweenFinishAndClear`). From the clear on, a cancel can misfire exactly when the worker is alive and a canceller has read the slot but not yet written its line (`ClearMisfiresIff`), and a stray call can follow exactly when there was one, the finish failed or a canceller holds the lock (`ClearStraysIff`). A misfire takes a write that fails while the worker lives and later writes that succeed: encoding the line can fail so, but once the pipe is broken it stays broken. A stray call needs no living worker.
- Pi's start checks the registry early and inserts later without the lifecycle lock. A restart is decided for the registered instance exactly when no start of that runtime inserted one since the re-check under the lock (`RestartsRegisteredIff`); its own insert takes another instance's entry exactly when a start inserted one since that re-check (`ReplaceTakesOtherIff`), and that instance may be alive (`RestartReplacesLiveInstance`).
- The replay check and the claim of a submission are two steps. Two submissions of one request that both pass the check start two turns when the first ends in between (`StaleCheckStartsSecondTurn`); a submission claims for a remembered request exactly when an acceptance of it since the check is still among the last 64 (`StaleClaimIff`). Remembering a receipt keeps the window well formed exactly when the request is not in it or is the one evicted (`RememberKeepsIff`).
- Even with check and claim as one step, forgetting a session spoils its receipt window in some continuation exactly when a submission with a request id waits for its runtime at that moment (`ForgetSpoilsIff`, `ForgetDuplicatesReceipt`).
- Crash-tail repair can fail on a directory with two or more session files, exactly when the newest holds no completed turn and the next one does not end in one (`RestoreFailsIff`, `TwoCrashedFilesFail`).
- The registry's tables survive a completion exactly when the operation is not already done (`CompleteKeepsIff`).
- The directory that a write with `create_parents` makes lies in the workspace exactly when the path names something below the workspace, or the workspace is the backend's root (`MkdirInsideIff`, `MkdirAboveWorkspace`).
- A resolved path resolves to itself exactly when the workspace is the backend's root (`ResolveIdempotentIff`).

## Model

| member | source | states |
|---|---|---|
| SnapshotSafety.StepKeeps | crates/core/src/application.rs:2288-2374 | every await, failure and crash of checkpoint, load, fork, delete, reconcile and close keeps the invariant of tables, resources and locks |
| SnapshotSafety.RunKeeps | crates/core/src/application.rs:2199-2978 | the invariant holds after every run |
| SnapshotSafety.NothingIsOrphaned | crates/core/src/application.rs:2796-2977 | in every run each existing snapshot is named by its operation's intent or checkpoint row, and each instance made by load or fork by a session row or its intent |
| SnapshotSafety.PublishedIsBacked | crates/core/src/application.rs:2698-2720 | in every run a published checkpoint has its snapshot and history unless a delete intent is pending |
| SnapshotSafety.ReconcileSpares | crates/core/src/application.rs:3333-3387 | no reconcile step deletes a resource or row of a published checkpoint or stops an instance whose session row exists |
| SnapshotSafety.ReconcileSparesAlways | crates/core/src/application.rs:3317-3389 | the same at every reconcile step of every run |
| SnapshotSafety.TickWrites | crates/core/src/application.rs:2324-2364 | every row an await adds is saved under the publication lock from a source whose instance exists at that moment |
| SnapshotSafety.NothingPublishedAfterClose | crates/core/src/application.rs:1444-1457 | from the moment close destroyed the instance, no continuation of the run saves a checkpoint or child row from the session, whatever is later written over its status |
| SnapshotSafety.ClosedRowBlocks | crates/core/src/application.rs:2324-2334 | the status re-check by itself: while nothing overwrites a closed row's status nothing is published from it, whatever later processes register |
| SnapshotPublication.NothingPublishedAfterAnyClose | crates/core/src/application.rs:1546-1564 | after a close that could or could not resolve the provider, status writes included, nothing is published until a restart registers the provider of an instance left behind |
| SnapshotPublication.PublishableIff | crates/core/src/application.rs:238-260 | after any run, some continuation under the same registration saves a row taken from a session if and only if its instance exists and its provider resolves |
| SnapshotPublication.PublishableLaterIff | crates/core/src/application.rs:294-300 | some continuation with any later registration does so if and only if the instance exists |
| SnapshotSafety.BackoffBounded | crates/core/src/application.rs:3303-3303 | the wait grows with the number of failures, up to 30000 ms |
| SnapshotSafety.RetryDelaysGrow | crates/core/src/application.rs:3297-3304 | successive failures of one intent wait at least as long as the one before, and at most 30000 ms |
| SnapshotConvergence.ReconcileKeepsSettled | crates/core/src/application.rs:3340-3388 | no reconcile step, failed or not, changes the final world the intents lead to |
| SnapshotConvergence.PassesConverge | crates/core/src/application.rs:3288-3309 | any two histories of passes, failures and crashes that empty the intent table end in the same world, given in closed form |
| SnapshotConvergence.UnresolvableStays | crates/core/src/application.rs:3317-3332 | an intent whose provider is never registered, or that names none, survives every pass and restart |
| SnapshotConvergence.UnresolvableForkLeavesIntent | crates/core/src/application.rs:2796-2837 | a fork without a resolvable provider leaves such an intent |
| SnapshotConvergence.Reconciler.ReconcileIntent | crates/core/src/application.rs:3317-3389 | one visit removes the intent or reschedules it, touches no other intent and keeps the final world |
| SnapshotConvergence.Reconciler.ReconcilePass | crates/core/src/application.rs:3288-3309 | in any listing order every due intent is tried unless a reschedule write fails; if all calls succeed the world is settled exactly when all providers resolve |
| SnapshotConvergence.PassResult | crates/core/src/application.rs:3292-3315 | a pass without failures settles the world if and only if every provider resolves |
| SnapshotOutcomes.CheckpointSucceeds | crates/core/src/application.rs:2288-2381 | a checkpoint without failures adds one row with its snapshot and history, leaves no intent and changes nothing else |
| SnapshotOutcomes.LoadSucceeds | crates/core/src/application.rs:2484-2582 | a load without failures adds one instance and its session row |
| SnapshotOutcomes.ForkSucceeds | crates/core/src/application.rs:2796-2978 | a fork without failures adds one instance and child row, leaves its intent, and no snapshot or history |
| SnapshotOutcomes.DeleteSucceeds | crates/core/src/application.rs:2698-2720 | a delete without failures removes row, snapshot and history and leaves no intent |
| XiaooSafety.RunKeeps | apps/runtime-xiaoo/src/xiaoo_runtime.rs:397-649 | every interleaving of submitters, cancellers, loader, reader, forwarder and worker keeps the protocol's invariant |
| XiaooSafety.CancelIsIsolated | apps/runtime-xiaoo/src/worker.rs:132-151 | in every run no cancel aborts a turn it was not written for; while the worker runs a turn it is the active one and every queued cancel is for it |
| XiaooSafety.OneTerminalPerTurn | apps/runtime-xiaoo/src/xiaoo_runtime.rs:480-543 | an accepted turn's subscriber gets exactly what was produced, in order, with one terminal event, last, after the slot was cleared |
| XiaooSafety.PersistedFollowsWorker | apps/runtime-xiaoo/src/xiaoo_runtime.rs:606-649 | with no turn active and no load half done, the exported state is what the live worker reaches after draining its pipe |
| XiaooSafety.TakeTurn | apps/runtime-xiaoo/src/worker.rs:70-111 | taking a turn, accepted or rejected for its configuration, keeps the invariant |
| XiaooTrace.BackendSeesSegments | apps/runtime-xiaoo/src/xiaoo_runtime.rs:434-474 | the backend's calls form non-overlapping segments of one turn each, ended by a successful finish before the terminal event is delivered |
| XiaooRollback.FailedWriteMisfiresIff | apps/runtime-xiaoo/src/xiaoo_runtime.rs:441-448 | when the write fails, some continuation of the rollback aborts a turn with the cancel of another if and only if the worker is alive |
| XiaooRollback.ClearMisfiresIff | apps/runtime-xiaoo/src/xiaoo_runtime.rs:446-446 | when the slot is cleared, some continuation misfires if and only if the worker is alive and a canceller has not yet written its line |
| XiaooRollback.FailedWriteStrays | apps/runtime-xiaoo/src/xiaoo_runtime.rs:441-448 | when the write fails, some continuation always calls the backend outside a turn segment |
| XiaooRollback.ClearStraysIff | apps/runtime-xiaoo/src/xiaoo_runtime.rs:445-446 | when the slot is cleared, some continuation strays if and only if a call already did, the finish failed or a canceller holds the completion lock |
| XiaooRollback.CancelBetweenFinishAndClear | apps/runtime-xiaoo/src/xiaoo_runtime.rs:572-604 | a cancel between the rollback's two awaits blocks a finished turn, and can then abort the next |
| PiLifecycle.RunKeeps | apps/runtime-pi/src/lib.rs:1965-2017 | submit, read, cancel, watchdog, restart and stop keep the invariant in every run |
| PiLifecycle.KillsOnlyWatchedTurn | apps/runtime-pi/src/lib.rs:2055-2145 | the watchdog kills a worker only while the turn it was armed for is current |
| PiLifecycle.RestartsOnlyIdleDead | apps/runtime-pi/src/lib.rs:982-1006 | a restart is decided only for a registered runtime and an instance of it that is dead and has no current turn |
| PiLifecycle.RestartsRegisteredIff | apps/runtime-pi/src/lib.rs:991-1004 | the restart is decided for the registered instance if and only if no start of that runtime inserted one since the re-check under the lock |
| PiLifecycle.ReplaceTakesOtherIff | apps/runtime-pi/src/lib.rs:1012-1099 | the restart's insert takes another instance's entry if and only if a start of that runtime inserted one since the re-check under the lock |
| PiLifecycle.RaceStarts | apps/runtime-pi/src/lib.rs:1823-1831 | two starts of one runtime can both pass the registry check |
| PiLifecycle.RaceFinds | apps/runtime-pi/src/lib.rs:986-996 | the first worker dies and is found dead under the lock |
| PiLifecycle.RestartReplacesLiveInstance | apps/runtime-pi/src/lib.rs:1096-1099 | the second start then inserts a live worker, and the restart takes its entry |
| PiLifecycle.AbsentStaysAbsent | apps/runtime-pi/src/lib.rs:1012-1102 | no restart under way registers a runtime that is not registered |
| PiLifecycle.StopIsFinal | apps/runtime-pi/src/lib.rs:1925-1963 | after stop only a start registers the runtime again, a new one or one already past its check |
| TurnGate.TurnGate.Claim | crates/core/src/application.rs:392-399 | takes a free slot or names its holder, and changes no other session |
| TurnGate.TurnGate.Release | crates/core/src/application.rs:403-408 | frees the slot only for its holder |
| TurnGate.TurnGate.ReplayedReceipt | crates/core/src/application.rs:410-415 | answers the remembered turn id, or none |
| TurnGate.TurnGate.RememberReceipt | crates/core/src/application.rs:417-429 | evicts the oldest of a full window, then adds the receipt |
| TurnGate.TurnGate.ForgetSession | crates/core/src/application.rs:432-441 | drops slot and receipts of one session |
| TurnGate.TurnGate.CheckAndClaim | crates/core/src/application.rs:1078-1099 | a retry replays, a busy session refuses, otherwise the turn claims the slot |
| TurnGate.TurnGate.Answered | crates/core/src/application.rs:1117-1131 | a refused turn gives the slot back, and only an accepted one is remembered |
| TurnRuns.TakesAndFreesAlternate | crates/core/src/application.rs:356-365 | in every run takes and effective releases of a session alternate, each release by the taker, and the slot is what those events say |
| TurnRuns.HolderExcludesOthers | crates/core/src/application.rs:1800-1815 | until its own release or refusal, or a forget, no other turn or operation takes the holder's slot |
| TurnRuns.StaleReleaseIsHarmless | crates/core/src/application.rs:401-408 | a late or repeated release by a turn that no longer holds the slot changes nothing, whatever happened since |
| TurnRuns.WindowIsRecentHistory | crates/core/src/application.rs:417-429 | in every run that forgets the session only when no submission of it waits, the window is exactly the last 64 accepted receipts, without duplicates |
| TurnRuns.RetriesReplayOnce | crates/core/src/application.rs:1078-1090 | in those runs each of the last 64 accepted requests replays its own turn id, no other request is replayed, none is listed twice |
| TurnRuns.ForgetSpoilsIff | crates/core/src/application.rs:432-441 | forgetting a session spoils its window in some continuation if and only if a submission with a request id waits at that moment |
| TurnRuns.StaleClaimIff | crates/core/src/application.rs:1078-1099 | a submission whose check passed claims for a remembered request if and only if an acceptance of it since the check is still among the last 64 |
| TurnRuns.ForgottenClaim | crates/core/src/application.rs:1573-1573 | a close can forget a session between a submission's claim and its answer |
| TurnRuns.ForgetDuplicatesReceipt | crates/core/src/application.rs:1124-1131 | a second submission of the request is then claimed and both are remembered |
| TurnGate.RememberKeepsIff | crates/core/src/application.rs:417-429 | remembering keeps the window well formed if and only if the request is not in it or is the one evicted |
| TurnGate.StaleCheckStartsSecondTurn | crates/core/src/application.rs:1078-1099 | a check made before another submission of the same request finished lets a second turn start and duplicates the receipt |
| Forwarder.Forwarding.Persist | crates/core/src/application.rs:1155-1187 | writes state, model and status exactly when export, read, describe and save all succeed; an unsupported export keeps the state |
| Forwarder.Forwarding.SendTerminal | crates/core/src/application.rs:1154-1213 | write, then free the slot, then send, with a failure in place of an event whose write failed |
| Forwarder.Forwarding.Forward | crates/core/src/application.rs:1141-1257 | the forwarder's effects for every stream, delivery and answer; the slot is free on every exit and the record changes exactly as said |
| Forwarder.SubscriberReceives | crates/core/src/application.rs:1144-1225 | the subscriber gets the projected events before the first terminal or failed send, in order, then at most the ending |
| Forwarder.OneTerminalLast | crates/core/src/application.rs:1226-1253 | if no send fails exactly one terminal event arrives, last, synthesised if the stream just ends |
| Forwarder.CompletionIsDurable | crates/core/src/application.rs:1149-1204 | the runtime's own terminal event goes out only after the record with exported state and matching status was saved and the slot freed |
| Forwarder.CancelledIffAbandoned | crates/core/src/application.rs:1223-1236 | the runtime is cancelled and drained if and only if the subscriber was lost before a terminal event |
| Forwarder.SlotReleasedOnEveryExit | crates/core/src/application.rs:1254-1257 | the last effect of every path is the release |
| SessionFile.TrimIgnoresNewline | apps/runtime-pi/src/session_file.rs:210-220 | a line trims to the same text with and without its newline |
| SessionFile.CutPoint | apps/runtime-pi/src/session_file.rs:156-185 | the forward scan cuts behind the last completed turn, or at 0 if there is none |
| SessionFile.Validate | apps/runtime-pi/src/session_file.rs:222-283 | the backward check's verdict, stated about the file's last line and last message |
| SessionFile.VerdictUnique | apps/runtime-pi/src/session_file.rs:222-283 | the four verdicts exclude one another |
| SessionFile.CutIsValid | apps/runtime-pi/src/session_file.rs:187-206 | a file cut by the forward scan passes the backward check |
| SessionFile.CutKeepsEveryTurn | apps/runtime-pi/src/session_file.rs:147-206 | every completed turn survives the cut with its text; the dropped bytes hold none |
| SessionFile.SessionDir.Truncate | apps/runtime-pi/src/session_file.rs:147-207 | the newest file is cut behind its last completed turn, or removed if it has none |
| SessionFile.SessionDir.LatestCompleteTurnFile | apps/runtime-pi/src/session_file.rs:72-76 | the newest file if it ends in a completed turn, the verdict otherwise |
| SessionFile.SessionDir.Restore | apps/runtime-pi/src/session_file.rs:78-94 | keeps a valid newest file, otherwise truncates and checks again |
| SessionFile.OneFileAlwaysRestores | apps/runtime-pi/src/session_file.rs:78-103 | with at most one file repair never fails: a valid file is kept, one without a completed turn removed, any other cut to its longest prefix ending in one |
| SessionFile.RestoreFailsIff | apps/runtime-pi/src/session_file.rs:78-94 | in general repair fails if and only if the newest file has no completed turn and the next one does not end in one |
| SessionFile.RestoreIsIdempotent | apps/runtime-pi/src/session_file.rs:78-94 | repairing again changes nothing and answers the same |
| SessionFile.TwoCrashedFilesFail | apps/runtime-pi/src/session_file.rs:84-90 | two half-written files on which repair fails |
| AgentRegistry.AgentOperationRegistry.Register | apps/server/src/mcp_server.rs:260-312 | registers a running operation, or names the one that keeps the session busy |
| AgentRegistry.AgentOperationRegistry.Poll | apps/server/src/mcp_server.rs:327-349 | answers a done operation at once and a running one at most every 30 seconds |
| AgentRegistry.AgentOperationRegistry.MarkRunning | apps/server/src/mcp_server.rs:351-364 | records phase, turn and time of a running operation only |
| AgentRegistry.AgentOperationRegistry.UpdateLastText | apps/server/src/mcp_server.rs:366-378 | records text and time of a running operation only |
| AgentRegistry.PopExcess | apps/server/src/mcp_server.rs:465-470 | pops the oldest ids until 16 are left |
| AgentRegistry.AgentOperationRegistry.Complete | apps/server/src/mcp_server.rs:436-474 | finishes the operation, frees the session, queues the result and evicts the excess |
| AgentRegistry.AgentOperationRegistry.ReapExpiredCompleted | apps/server/src/mcp_server.rs:380-407 | removes the expired results from both tables and counts them |
| AgentRuns.TablesAgree | apps/server/src/mcp_server.rs:409-474 | in every run running records are exactly the active entries, queues list exactly the done records in completion order without duplicates, at most 16 |
| AgentRuns.CompletionEvictsOldest | apps/server/src/mcp_server.rs:463-473 | a completion removes exactly the session's oldest result, and only from a full queue |
| AgentRuns.CompleteKeepsIff | apps/server/src/mcp_server.rs:436-474 | a completion keeps the tables consistent if and only if the operation is not already done |
| AgentRuns.ReapTakesExactlyExpired | apps/server/src/mcp_server.rs:380-407 | reaping removes exactly the results kept for the whole retention |
| AgentRuns.DoneIsFinal | apps/server/src/mcp_server.rs:351-378 | a done operation keeps its result for as long as it is listed |
| AgentRuns.PollsArePaced | apps/server/src/mcp_server.rs:512-536 | running replies are at least 30000 ms apart, the first as long after registration, so their number times 30000 is at most the elapsed time |
| AgentRuns.WaitIsExact | apps/server/src/mcp_server.rs:340-348 | a poll told to wait is answered exactly from its delay on |
| EventStream.FeedAppend | apps/runtime-xiaoo/src/responses.rs:265-272 | reading a buffer in two parts is reading it at once |
| EventStream.DrainLines | apps/runtime-xiaoo/src/responses.rs:271-309 | the inner loop computes the reference parser on the buffer |
| EventStream.CompleteStream | apps/runtime-xiaoo/src/responses.rs:259-314 | for every cut into chunks the callbacks and the result are those of the whole-buffer parser |
| EventStream.StreamRoundTrip | apps/runtime-xiaoo/src/responses.rs:276-308 | any list of framed events, cut anywhere, is read back in order up to the first final one |
| HostPath.RelativeIffClean | crates/core/src/joint_host.rs:45-49 | a path is relative if and only if it does not start at the root and all its segments are clean |
| HostPath.ResolveByParts | crates/core/src/joint_host.rs:69-99 | a located path is accepted if and only if its own segments are clean, and resolves to the base's segments followed by them |
| HostPath.HomeExtendsWorkspace | crates/core/src/joint_host.rs:59-68 | an accepted HOME starts with the workspace's segments |
| HostPath.AcceptedStaysInWorkspace | crates/core/src/joint_host.rs:44-101 | every accepted path is relative and canonical, has only clean segments and starts with the workspace's |
| HostPath.SpellingIsIrrelevant | crates/core/src/joint_host.rs:70-100 | redundant `.` and `/` do not change the answer, below the workspace, behind the root or behind HOME |
| HostPath.AbsoluteIsRelative | crates/core/src/joint_host.rs:69-77 | an absolute spelling under the backend root answers as the relative one |
| HostPath.ResolveIdempotentIff | crates/core/src/joint_host.rs:44-101 | resolving twice is resolving once if and only if the workspace is the backend's root |
| HostPolicy.AcceptedIsBounded | crates/core/src/joint_host.rs:149-233 | every accepted request names a path in the workspace, runs within 300000 ms and the argument limits, and reserves at most 67108864 bytes |
| HostPolicy.AcceptedIsEnabled | crates/core/src/joint_host.rs:149-233 | a request is accepted only under the capability it needs, and its canonical form carries its arguments |
| HostPolicy.ParentSegments | crates/core/src/joint_host.rs:204-206 | the parent of a resolved path has its segments but the last |
| HostPolicy.MkdirInsideIff | crates/core/src/joint_host.rs:203-222 | the directory made for a write lies in the workspace if and only if the path asked for is below it or it is the root |
| HostPolicy.MkdirAboveWorkspace | crates/core/src/joint_host.rs:203-206 | writing to the workspace directory itself makes the directory above it |

## Left out

- HTTP handlers, the bridge endpoints, the TypeScript extension, spawning, signals and real file I/O: their outcomes are actions or parameters of the model.
- The joint execution route (joint turns, joint checkpoint, load and close): it delegates to owners that are not part of this model.
- The tenant session counter: several exits after the reservation return without releasing it, so its conservation is not what the code does.
- Reclaiming idle sessions in the publication property: it does not take the publication lock.
- Progress of Pi's watchdog, and that a forced kill is always reported as a cancellation: only safety is claimed.
- In-place update and aliasing in the xiaoO, Pi and snapshot operations: these are state machines over values, because what matters there is the interleaving of tasks; the reconciler, the gate, the forwarder, the session directory and the registry are objects.
- The lease table, the instance manager, the joint and host stores: only the calls the protocols make on them appear.
- UTF-8, JSON and SHA-256: parameters with only the facts a lemma names.
- The wait inside `poll_agent_operation`: a poller that waits is a poller that polls again later.
- `project_runtime_event` beyond the kind of an event, and error and capability mappings: they would only add easy members.
- StreamRoundTrip: events of one `data:` line each; multi-line events are covered by the chunk law, not by the round trip.
- TurnRuns.StaleClaimIff: the other submissions of the run check and claim in one step.
- PiLifecycle.RunKeeps: submit's rollback paths, which clear the current turn without the completion lock, are not steps of the machine.
