# Verified model of the agent runtime

A Dafny model of the hard core of a Go runtime that connects game worlds to language-model agents.
`dafny verify dfyconfig.toml` checks all of it.

| file | what it models |
|---|---|
| `WorldAuthority.dfy` | ownership of a world, the save barrier and the authority epoch, as a protocol of interleaved critical sections |
| `WakeDelivery.dfy` | the delivery of one task wake against a service whose commits can be ambiguous |
| `SendSlot.dfy` | the one-place send slot of a stream, its launches, cancels and closes |
| `Generations.dfy` | publication, replacement, rollback, drain and close of runtime generations |
| `HistoryLog.dfy`, `HistoryStores.dfy` | the append-only history with leased snapshots and pages; the in-memory store and the store over ordered rows, both refining it |
| `Prune.dfy` | pruning with its retained tail, and the maintenance run that calls it |
| `PreparedHistory.dfy` | reading a whole snapshot for a turn, and compaction |
| `Scheduler.dfy`, `TurnLoop.dfy` | the tool batch scheduler and the bounded turn |
| `Transcript.dfy` | causal grouping and trimming of tool transcripts |
| `Pointer.dfy`, `JsonTree.dfy`, `HistoryText.dfy`, `UnitCrop.dfy` | RFC 6901 paths, the document written in place, the listed texts, and the cropping search |
| `HistoryProjection.dfy`, `Retrieval.dfy`, `Experiences.dfy` | the history section, the retrieved snippets, and the recent experiences |
| `DefinitionBudget.dfy`, `RequestBudget.dfy` | the definition budget and the final drop loop |
| `GameTime.dfy`, `Timeline.dfy`, `Sorting.dfy` | comparison of partial game times, the memory timeline, and the stable sort both projections use |
| `QuotaLedger.dfy` | the token quota ledger |
| `Wrappers.dfy`, `Numbers.dfy` | the option type; minimum and maximum |

How the model is built:

- Code that changes fields or rows is a class whose methods are proved against functions on values;
  concurrent code has one method per critical section, and the functions are the steps of a protocol
  whose theorems speak about every run.
- The task service, the model, tools, summary text, clocks, byte sizes and token estimates are
  arbitrary: parameters, functions, or fresh answers at each call.
- Assumptions, each named where it is used: a clock update of the task service keeps the binding;
  lease names are new (`HistoryLog.May`); a committed summary covers its parent's coverage and the new
  references (`PreparedHistory.Cumulative`); reading a whole row costs at least its payload
  (`Prune.Sized`); reading the summary stays within its byte limit; an empty history section costs
  nothing (`HistoryProjection.NothingIsFree`); JSON objects name each member once
  (`JsonTree.WellFormed`); lower-casing maps rune by rune, as the library the source calls does (`Retrieval.Lower`).

Where the code does not keep the plain statement of a property, the exact condition is proved:

- A refused save preparation closes the world only if it got past admission
  (`WorldAuthority.PrepareClosesIffAdmitted`).
- A takeover can commit into an open world (`WorldAuthority.TakeoverInheritsReady`), exactly when another
  connection's mark was let through in its unlocked middle and nothing closed the world after it
  (`WorldAuthority.OpenCommitIff`). The epoch fence holds all the same.
- A settlement above its reservation can pass a limit (`QuotaLedger.SettlementCanPassALimit`), exactly when
  it exceeds the reservation by more than the room left (`QuotaLedger.SettlementFitsIff`).
- A transcript the loop builds is accepted exactly when no tool call id is blank and the last calls were
  answered (`TurnLoop.WellBuilt`, kept by every turn of `TurnLoop.RunBoundedSteps`).
- Comparison is not transitive once absent times are admitted (`GameTime.AbsentTimesBreakTheOrder`).
- The history section fits its token limit exactly when the limit is not negative; for a negative one it is
  empty and costs nothing (`HistoryProjection.ProjectHistory`).
- A prune result fails the caller's test exactly when the commit fails after a full round of candidates was
  worked off with more behind it (`Prune.FullRoundLost`, `Prune.PruneHistory`); `Prune.LostRoundExists` is one.

## Model

| member | source | states |
|---|---|---|
| `WorldAuthority.EpochFence` | runtime/internal/gateway/world_registry.go:99-163 | Over every interleaving of bind (with its unlocked middle), mark-ready, disconnect, prepare, finish, barrier, pause, clock update and shutdown: when an observed binding and epoch are later admitted by a guard, the world was ready, not saving, owned by that environment and on that binding in every state in between |
| `WorldAuthority.SaveFence` | runtime/internal/gateway/task_checkpoint.go:52-118 | After a prepare that got past admission, whatever its answer, or the repeat of one already prepared, no guarded callback runs until some connection has committed a bind and has then been marked ready |
| `WorldAuthority.PrepareClosesIffAdmitted` | runtime/internal/gateway/task_checkpoint.go:52-95 | A prepare closes the world and moves the epoch if and only if it gets past admission, accepted or refused afterwards; otherwise every guard answers as before |
| `WorldAuthority.StalePrepareLeavesTheWorldOpen` | runtime/internal/gateway/task_checkpoint.go:52-72 | The family of refused prepares that close nothing: the environment no longer owns the world |
| `WorldAuthority.OpenCommitIff` | runtime/internal/gateway/world_registry.go:286-359 | A bind commits into an open world if and only if, in the unlocked middle of that very bind, another connection's mark-ready was let through and nothing closed the world again before the commit |
| `WorldAuthority.OpenIffMarked` | runtime/internal/gateway/world_registry.go:344-359 | From a closed state on, the world is open exactly when some mark-ready was let through and no bind, disconnect, prepare, clock violation, pause or stop has closed it since |
| `WorldAuthority.OpenCommitNeedsARacingMark` | runtime/internal/gateway/world_registry.go:286-359 | A bind commits into an open world only if another connection was marked ready in the unlocked middle of that very bind |
| `WorldAuthority.TakeoverInheritsReady` | runtime/internal/gateway/world_registry.go:204-359 | A run in which a takeover commits into a world opened by the displaced owner, before the new owner is marked ready |
| `WorldAuthority.StoppedStaysClosed` | runtime/internal/gateway/world_registry.go:478-491 | After admission stops, a closed world stays closed in every run |
| `WorldAuthority.LiveOrDead` | runtime/internal/gateway/world_registry.go:137-163 | From an observed authority on, either it is still admitted at every state, or it can never be admitted at that epoch again |
| `WorldAuthority.WorldSlot.Current` | runtime/internal/gateway/task_tools_authority.go:67-78 | Reports head and epoch exactly when a guard with them would be admitted |
| `WorldAuthority.WorldSlot.Guard` | runtime/internal/gateway/task_tools_authority.go:80-103 | Runs its callback exactly for a live authority on the expected binding and epoch |
| `WorldAuthority.WorldSlot.SetSaveBarrier` | runtime/internal/gateway/world_registry.go:165-183 | New slot state: raising the barrier moves the epoch, a foreign or unready caller changes nothing |
| `WorldAuthority.WorldSlot.BindAdmit` | runtime/internal/gateway/world_registry.go:204-285 | New slot state and verdict of the first critical section of bind, with all its refusals |
| `WorldAuthority.WorldSlot.BindCommit` | runtime/internal/gateway/world_registry.go:320-342 | New slot state of the commit: owner and head change, ready and epoch do not |
| `WorldAuthority.WorldSlot.MarkReady` | runtime/internal/gateway/world_registry.go:344-359 | Opens the world only for the owner on the head it bound |
| `WorldAuthority.WorldSlot.UpdateClock` | runtime/internal/gateway/world_registry.go:361-423 | A mismatched or rewound clock pauses the world and moves the epoch; any other update keeps it |
| `WorldAuthority.WorldSlot.PauseWorld` | runtime/internal/gateway/task_dispatch.go:187-209 | Clears ready and moves the epoch for the given binding only |
| `WorldAuthority.WorldSlot.PrepareCheckpoint` | runtime/internal/gateway/task_checkpoint.go:52-118 | New slot state of an admitted, refused, repeated or stale prepare |
| `WorldAuthority.WorldSlot.FinishCheckpoint` | runtime/internal/gateway/task_checkpoint.go:123-141 | Lowers the barrier only for the accepted request that raised it |
| `WorldAuthority.WorldSlot.Leave` | runtime/internal/gateway/world_registry.go:425-450 | Only the owner's disconnect closes the world |
| `WorldAuthority.WorldSlot.Left` | runtime/internal/gateway/world_registry.go:450-476 | Owner, barrier and head after the service answered the deactivation |
| `WakeDelivery.Deliver` | runtime/internal/gateway/task_dispatch.go:158-450 | Against every sequence of answers and every order of lane runs and aborts: handle and reconcile run at most once in total, each after what must precede it, the admitted barrier is closed exactly once and before the enqueue returns, and at most five failures are counted |
| `WakeDelivery.Delivery.Enqueue` | runtime/internal/gateway/task_dispatch.go:158-185 | When it returns the barrier has been closed and no effect has run; a rejecting lane ends the delivery |
| `WakeDelivery.Delivery.Mark` | runtime/internal/gateway/task_dispatch.go:302-342 | Ends with the barrier closed, whatever the service answers; every retry costs a failure |
| `WakeDelivery.Delivery.Inspect` | runtime/internal/gateway/task_dispatch.go:277-301 | What it answers holds for a ready head and the same claim; otherwise the delivery has ended |
| `WakeDelivery.Delivery.CountFailure` | runtime/internal/gateway/task_dispatch.go:257-276 | A retry always costs one of three failures; otherwise the delivery has ended or gives up |
| `WakeDelivery.Delivery.Release` | runtime/internal/gateway/task_dispatch.go:343-364 | Ends the delivery, with no effect |
| `WakeDelivery.Delivery.Run` | runtime/internal/gateway/task_dispatch.go:365-422 | Ends an eligible delivery and leaves any other alone, keeping at most one effect and its order |
| `WakeDelivery.Delivery.RecoverRunning` | runtime/internal/gateway/task_dispatch.go:424-437 | Reconciles at most once, and only a wake seen running |
| `WakeDelivery.Delivery.Abort` | runtime/internal/gateway/task_dispatch.go:438-450 | Ends the delivery without an effect; one that had ended is left alone |
| `SendSlot.OneSendAtATime` | runtime/internal/gateway/stream_environment.go:348-392 | At most one transport send is active, and nobody else holds the slot meanwhile, in every run of senders, cancels and closes |
| `SendSlot.SlotIsBalanced` | runtime/internal/gateway/stream_environment.go:348-392 | A sender takes the slot at most once, gives it back exactly once, and holds nothing once its caller has returned and its transport is not running |
| `SendSlot.OutcomeTellsTheLaunch` | runtime/internal/gateway/stream_environment.go:348-392 | Not-started is answered if and only if no transport send was launched; delivered only if the message reached the transport |
| `SendSlot.NotStartedIsFinal` | runtime/internal/gateway/task_not_sent.go:12-16 | A send answered as not started never reaches the transport afterwards |
| `SendSlot.RecordedMeansNeverSent` | runtime/internal/gateway/task_not_sent.go:18-32 | An operation recorded as not sent has not reached the transport, at the record or ever after |
| `QuotaLedger.RunStaysWithinLimits` | runtime/internal/accounts/usage.go:19-64 | With fixed limits and no settlement above its reservation, every run keeps each user's and the global daily occupancy within its limit |
| `QuotaLedger.RunIsWellFormed` | runtime/internal/accounts/usage.go:66-116 | In every run a row has a charge exactly when it is settled, and identifiers are unique |
| `QuotaLedger.SettledOnce` | runtime/internal/accounts/usage.go:66-91 | A settled row never changes again, so no reservation is settled twice |
| `QuotaLedger.SettlementFitsIff` | runtime/internal/accounts/usage.go:66-91 | A settlement keeps a limit if and only if the charge exceeds the reservation by no more than the room that was left |
| `QuotaLedger.UsagePartitionsOccupancy` | runtime/internal/accounts/usage.go:93-103 | Used plus pending equals the occupancy |
| `QuotaLedger.Store.Reserve` | runtime/internal/accounts/usage.go:19-64 | New ledger and reply for every refusal, conflict and acceptance |
| `QuotaLedger.Store.Settle` | runtime/internal/accounts/usage.go:66-91 | Accepts exactly consistent counts for an existing pending reservation and rewrites that row alone |
| `QuotaLedger.Store.Usage` | runtime/internal/accounts/usage.go:93-103 | Used, pending and remaining against the occupancy |
| `QuotaLedger.Store.MarkCallOutcome` | runtime/internal/accounts/usage.go:105-111 | Marks only unsettled outcomes and rewrites only the named uncharged call |
| `QuotaLedger.Store.RecoverPendingCalls` | runtime/internal/accounts/usage.go:113-116 | Pending rows become uncertain and every other row stays; nothing is left that a settlement would accept, and every user's and the global usage and occupancy stay |
| `QuotaLedger.RecoveryKeepsUsage` | runtime/internal/accounts/usage.go:113-116 | Recovery leaves no reservation to settle and changes no sum of any user or day |
| `QuotaLedger.SettlementCanPassALimit` | runtime/internal/accounts/usage.go:66-91 | A run in which a settlement above its reservation carries a user past the daily limit |
| `Generations.NoHandlerOnAClosingBundle` | runtime/internal/gateway/streams.go:45-85 | Over every interleaving of connects, admissions, handler steps, completions, replacements, configuration and shutdown: a handler step never runs on a bundle whose close has begun |
| `Generations.ReplacementEndsInOneWay` | runtime/internal/bootstrap/reconfigure.go:32-86 | Every replacement that ends does so in exactly one of three ways: candidate published with its commit done, previous generation restored with its commit not taken, or no bundle and not ready |
| `Generations.Runtime.ReplaceLocked` | runtime/internal/bootstrap/reconfigure.go:32-86 | For every answer of the outside world: committed exactly when the old bundle closed and the candidate was prepared and committed; otherwise the previous snapshot with a restored bundle, or no bundle and not ready, blocked or reopened for configuration; the group is drained, the old bundle closed, and no published bundle is a closed one |
| `Generations.StreamGroup.Wait` | runtime/internal/gateway/streams.go:85-85 | Ends with no worker left and the group as it was otherwise |
| `Generations.ReadyMeansServing` | runtime/internal/bootstrap/bootstrap.go:252-332 | In every reachable state readiness means a bundle that nobody has begun to close on an open stream group |
| `Generations.StepKeepsGood` | runtime/internal/bootstrap/reconfigure.go:32-86 | What every step of the protocol keeps: captured connections belong to the group their bundle was published on, and a closing bundle lives on a stopped and drained group or was never published |
| `Generations.StreamGroup.Admit` | runtime/internal/gateway/streams.go:45-62 | A stopped group admits nobody; an open one gains a worker |
| `Generations.StreamGroup.Stop` | runtime/internal/gateway/streams.go:77-84 | Closes admission for good and cancels every handler at work |
| `Generations.StreamGroup.Finish` | runtime/internal/gateway/streams.go:63-69 | A finished handler leaves the workers, and nothing else changes |
| `Generations.Runtime.Capture` | runtime/internal/bootstrap/connections.go:18-25 | Group and bundle are captured together |
| `Generations.Runtime.Retire` | runtime/internal/bootstrap/reconfigure.go:33-39 | Takes bundle, snapshot and group out together and leaves a runtime that is not ready |
| `Generations.Runtime.Publish` | runtime/internal/bootstrap/reconfigure.go:79-84 | Bundle, snapshot and stream group change together |
| `Generations.Runtime.PublishFailure` | runtime/internal/bootstrap/bootstrap.go:204-210 | A published failure is never ready |
| `Generations.Runtime.BeginClose` | runtime/internal/bootstrap/bootstrap.go:698-710 | Only the first close proceeds, with the bundle of that moment |
| `HistoryLog.TraversalVisitsEachSourceOnce` | runtime/internal/memory/in_memory_history.go:124-174 | For a live lease, following the cursor from zero while there is more scans every source of the owner at or below the watermark exactly once, newest first, whatever appends, snapshots, releases, summaries and prunes happen between the reads; a page without more is the last |
| `HistoryLog.RunKeepsView` | runtime/internal/memory/in_memory_history.go:91-122 | No allowed step changes what a live snapshot shows |
| `HistoryLog.StepKeepsView` | runtime/internal/memory/sqlite_prune.go:198-208 | The same for one step; a prune above every live watermark is invisible to live snapshots |
| `HistoryLog.StepKeepsGood` | runtime/internal/memory/in_memory_history.go:56-109 | Sequences ascend per owner and stay below the world's counter, ids are stored once, leases and revisions stay bounded |
| `HistoryLog.PageContract` | runtime/internal/memory/in_memory_history.go:133-173 | A page meets the contract (longest stretch within both limits, each source returned or diagnosed, cursor and more) if and only if it is the one read off the list |
| `HistoryLog.PageIsUnique` | runtime/internal/memory/sqlite_history.go:183-213 | Two pages that meet the contract are the same page |
| `HistoryLog.ContinueAfter` | runtime/internal/memory/in_memory_history.go:143-146 | Continuing at the last scanned source selects exactly the rest of the list |
| `HistoryLog.TilesReturn` | runtime/internal/memory/in_memory_history.go:158-172 | With one byte limit a traversal returns exactly the available sources within it |
| `HistoryLog.PageAtMeets` | runtime/internal/memory/sqlite_history.go:183-213 | What a page read at a position of the view covers, returns, diagnoses and where it continues |
| `HistoryStores.MemoryStore.AppendHistory` | runtime/internal/memory/in_memory_history.go:56-89 | Refines the log step: a known batch changes nothing and conflicts exactly when its content differs, a new one is appended under the next sequence of its world |
| `HistoryStores.MemoryStore.BeginSnapshot` | runtime/internal/memory/in_memory_history.go:91-109 | Watermark and revision of the moment, leased |
| `HistoryStores.MemoryStore.ReleaseSnapshot` | runtime/internal/memory/in_memory_history.go:111-122 | Releases only the very snapshot that is leased |
| `HistoryStores.MemoryStore.ReadSnapshot` | runtime/internal/memory/in_memory_history.go:124-174 | The contract page of a live snapshot with clamped limits, nothing for any other |
| `HistoryStores.MemoryStore.CommitSummary` | runtime/internal/memory/in_memory_history.go:206-243 | Commits if and only if the lease is live and the owner's revision is still the expected one; the revision grows |
| `HistoryStores.TableStore.AppendHistory` | runtime/internal/memory/sqlite_history.go:40-105 | The same step on ordered rows with an automatic sequence |
| `HistoryStores.TableStore.BeginSnapshot` | runtime/internal/memory/sqlite_history.go:107-122 | The same snapshot from the maximum over the rows |
| `HistoryStores.TableStore.ReleaseSnapshot` | runtime/internal/memory/sqlite_history.go:124-137 | The same release |
| `HistoryStores.TableStore.QueryPage` | runtime/internal/memory/sqlite_history.go:157-214 | The page the rows give when their headers are read, whether the lease still lives or not; content pruned before it was read shows as pruned |
| `HistoryStores.LeaseKeepsContent` | runtime/internal/memory/sqlite_history.go:206-212 | While the lease lives, the content of everything it shows is found as it was |
| `HistoryLog.LateReadScansTheSame` | runtime/internal/memory/sqlite_history.go:139-214 | A read that began under a live lease and sees the rows later, after any allowed steps and even a release, scans the same sources; only pruning may have taken their content |
| `HistoryStores.TableStore.ReadSnapshot` | runtime/internal/memory/sqlite_history.go:139-214 | The same page as the in-memory store on the same log, from at most one header more than it may scan, but for content pruned between its header and its read |
| `HistoryStores.PagesAgree` | runtime/internal/memory/sqlite_history.go:139-214 | On the same log and limits the two stores return the same page, which meets the contract, exactly for a live lease; only content pruned while the table is being read differs |
| `HistoryStores.QueryIsNewest` | runtime/internal/memory/sqlite_history.go:157-157 | The ordered query is the newest-first list of the owner's log |
| `Prune.PruneHistory` | runtime/internal/memory/sqlite_prune.go:58-254 | Refines the log's prune step, allowed under every live lease; an error leaves the table and the cursor alone; zero limits stand for the defaults and negative ones are refused; a result passes the caller's test if and only if the commit did not fail after a full round of candidates with more behind it, stated on table, leases, request and summary; without an outside failure, a bad request or a mismatching reference there is no error |
| `Prune.LostRoundExists` | runtime/internal/memory/sqlite_prune.go:249-254 | A table with two sources and a request whose failed commit gives a result that the caller's test refuses |
| `Prune.TailIsEnough` | runtime/internal/memory/sqlite_prune.go:258-326 | An available, visible source outside a proven tail has newer visible sources that reach the target on their own |
| `Prune.PrunedAreSafe` | runtime/internal/memory/sqlite_prune.go:179-249 | Every pruned source was available, old enough, beyond the cursor, named by the summary with its own sequence and fingerprint, not the newest, outside the tail with newer visible sources that reach the target, and above every live watermark |
| `Prune.RetentionTail` | runtime/internal/memory/sqlite_prune.go:258-326 | A tail is proven if and only if its heads fit the byte limit, it ends within the scan limit, and every time in it compares; then it is the shortest newest-first run of available sources whose visible ones reach the target, or all of them |
| `Prune.PruneCandidates` | runtime/internal/memory/sqlite_prune.go:179-249 | Counts, cursor and budget of the candidate loop; it fails exactly at a failure or a candidate whose content the summary does not cover; a prunable candidate is left only when it does not fit the remaining bytes |
| `Prune.AllowedMayBePruned` | runtime/internal/memory/sqlite_prune.go:198-208 | What the loop pruned may be pruned while snapshots are live |
| `Prune.MarkedRows` | runtime/internal/memory/sqlite_prune.go:242-246 | Marking the rows of one owner is the prune step of the log |
| `Prune.MaintainHistory` | runtime/internal/agent/history_maintenance.go:48-100 | An accepted rebuild or prune moves its cursor strictly forward or starts over, and the cursor stays otherwise; a due prune is accepted unless something failed; rebuild and prune together stay within the shared budget |
| `Prune.WorkIsDone` | runtime/internal/agent/history_maintenance.go:102-112 | The finished candidate loop passes the caller's test |
| `PreparedHistory.ReadPreparedHistory` | runtime/internal/agent/history_context.go:361-476 | Recent experiences take their cost and that of their instruction off the history budget, which never grows nor drops below zero by it; for any store it ends within the scan limits with owned, visible, uncovered, unique sources in order; for a store that keeps the page contract they are strictly ascending, and unless the scan is flagged incomplete every available non-experience source is returned, covered or hidden as future |
| `PreparedHistory.ReadAll` | runtime/internal/agent/history_context.go:413-467 | The page loop ends for every store; with the page contract it collects exactly what the snapshot holds unless flagged |
| `PreparedHistory.ReadPage` | runtime/internal/agent/history_context.go:442-462 | What one page adds: each source skipped, flagged, remembered, hidden or collected |
| `PreparedHistory.PageMakesProgress` | runtime/internal/agent/history_context.go:427-467 | A contract page continues where the last one stopped and is taken in whole |
| `PreparedHistory.Compact` | runtime/internal/agent/history_context.go:122-240 | Compaction takes a contiguous oldest prefix that leaves the retained tail alone, within the coverage and input limits; coverage together with the remainder is preserved |
| `PreparedHistory.StoreKeeps` | runtime/internal/memory/in_memory_history.go:124-174 | A history store keeps the page contract for a live snapshot, whatever limits it was built with |
| `PreparedHistory.TailStart` | runtime/internal/agent/history_context.go:154-167 | The tail left alone is the longest newest run within its target, and at least the newest source |
| `PreparedHistory.SelectForRequest` | runtime/internal/agent/history_context.go:242-293 | Candidates are taken in order until the coverage or the input limit |
| `PreparedHistory.PrefixIsCovered` | runtime/internal/agent/history_context.go:488-503 | Covering a prefix leaves exactly the rest |
| `Experiences.ProjectRecentExperiences` | runtime/internal/context/experiences.go:54-99 | What is told fits count and token limits, tells each fact once, stands in the order of priority, time and sequence, and leaves out an eligible source only when its fact is told or it did not fit behind what had been told |
| `Experiences.ReadExperiences` | runtime/internal/agent/history_context.go:374-389 | The history budget plus what experiences and their instruction cost is the budget before; it never grows nor drops below zero |
| `Experiences.TellAllTells` | runtime/internal/context/experiences.go:81-94 | The greedy loop over any list keeps limits, order, uniqueness and a reason for every source left out |
| `Scheduler.Run` | runtime/internal/agent/scheduler.go:107-227 | Result i carries call i's id and name; an invalid batch starts nothing; a valid one gives the outcome that mentions neither limit nor completion order |
| `Scheduler.RunPlan` | runtime/internal/agent/scheduler.go:149-227 | A group is entered only when every earlier call succeeded; calls after a failed group are skipped without being started |
| `Scheduler.RunParallelGroup` | runtime/internal/agent/scheduler.go:362-432 | For every completion order: never more than the limit in flight, nothing launched after a technical error, none in flight at the end, results at their own places |
| `Scheduler.Preflight` | runtime/internal/agent/scheduler.go:229-334 | Fails if and only if some call is not allowed, and then answers every call |
| `Scheduler.FillPriorGroupSkipped` | runtime/internal/agent/scheduler.go:623-627 | Fills exactly the calls after the failed group |
| `Scheduler.ReportsFirstRealError` | runtime/internal/agent/scheduler.go:668-676 | The reported error is the first that is not a cancellation, else the first of all |
| `Scheduler.ActionsInCallOrder` | runtime/internal/agent/scheduler.go:434-442 | Successful actions are in call order, each of a completed call |
| `Scheduler.ActionsDependOnMembership` | runtime/internal/agent/scheduler.go:434-442 | They depend on which calls finished, not on when |
| `TurnLoop.RunBoundedSteps` | runtime/internal/agent/loop.go:386-784 | Every turn keeps the step, per-step call, per-turn call and async limits, schedules each non-blank id at most once, lets at most one argument-failure batch be followed by a model call, builds a transcript that is accepted exactly when no id is blank and the last calls were answered, and ends by exactly one of complete and fail |
| `TurnLoop.TranscriptAcceptedIffNoBlank` | runtime/internal/agent/loop.go:597-686 | The answered batch a turn adds keeps the transcript accepted if and only if no id of it is blank |
| `TurnLoop.BatchIsWellBuilt` | runtime/internal/agent/loop.go:597-686 | Adding an answered batch keeps it true that the transcript is accepted exactly when no id is blank |
| `TurnLoop.OpenCallsAreWellBuilt` | runtime/internal/agent/loop.go:655-686 | The calls of a batch that broke stay open, and the transcript is not accepted |
| `TurnLoop.DuplicateWithinStep` | runtime/internal/agent/loop.go:1101-1114 | True exactly when two calls of the step share a non-blank trimmed id |
| `TurnLoop.ReusedAcrossSteps` | runtime/internal/agent/loop.go:1071-1099 | True exactly when some non-blank id was seen before |
| `TurnLoop.Schedule` | runtime/internal/agent/loop.go:597-640 | Scheduling fresh names keeps every scheduled name distinct |
| `Retrieval.SubtractIsExact` | runtime/internal/context/retrieval_projection.go:184-202 | Subtraction is exact set difference on offsets; it keeps disjointness and non-emptiness and stays inside the original spans |
| `Retrieval.SubtractRetrievalSpans` | runtime/internal/context/retrieval_projection.go:184-202 | The loops compute that difference |
| `Retrieval.ProjectRetrieved` | runtime/internal/context/retrieval_projection.go:72-182 | Snippets stay within limit and budget, are slices of their matches, overlap neither a visible span nor another snippet of their source, are in display order, and are none only if no match can be shown; matches are counted once |
| `Retrieval.ShowMatch` | runtime/internal/context/retrieval_projection.go:138-175 | One match adds its accepted stretches; it adds nothing only when every stretch was turned down |
| `Retrieval.Fit` | runtime/internal/context/retrieval_projection.go:153-165 | The whole stretch if accepted, else an accepted window inside it |
| `Retrieval.Crop` | runtime/internal/context/retrieval_projection.go:226-250 | The bisection ends at an accepted width whose successor is turned down |
| `Retrieval.WindowHoldsAnchor` | runtime/internal/context/retrieval_projection.go:229-236 | A window stays in its stretch, and one at least as wide as the anchor contains it |
| `Retrieval.Anchor` | runtime/internal/context/retrieval_projection.go:211-224 | An anchor exists exactly when a term occurs, and is an occurrence inside the stretch |
| `Retrieval.NotShownRecently` | runtime/internal/context/retrieval_projection.go:97-114 | What is left of a match is exactly what no recent unit shows |
| `Retrieval.NotShownAlready` | runtime/internal/context/retrieval_projection.go:115-123 | What is left is apart from every snippet shown of the source |
| `Retrieval.OrderSpans` | runtime/internal/context/retrieval_projection.go:133-137 | Stretches with a query term come first, and nothing is lost |
| `Retrieval.PlaceKeeps` | runtime/internal/context/retrieval_projection.go:304-320 | Placing a clear, accepted snippet keeps every promise of the display |
| `Pointer.UnescapeEscape` | runtime/internal/memory/history_text.go:84-93 | Unescaping undoes escaping for every key (sections 3 and 4 of RFC 6901) |
| `Pointer.EscapeUnescape` | runtime/internal/context/history_projection.go:303-304 | Escaping undoes unescaping exactly on escaped tokens |
| `Pointer.TokensOfPrinted` | runtime/internal/context/history_projection.go:302-304 | Reading a printed path gives back its tokens |
| `Pointer.PrintIsInjective` | runtime/internal/memory/history_text.go:74-95 | Different token lists print differently |
| `Pointer.AtoiOfDigits` | runtime/internal/context/history_projection.go:319-323 | A printed index reads back as itself and needs no escaping |
| `JsonTree.Document.SetString` | runtime/internal/context/history_projection.go:300-337 | Succeeds exactly when the path names a string, and then writes that leaf alone |
| `JsonTree.PutElsewhere` | runtime/internal/context/history_projection.go:311-330 | Writing a leaf leaves every other leaf as it was |
| `JsonTree.FillOver` | runtime/internal/context/history_projection.go:261-282 | Writing the same leaves again overwrites whatever was written before |
| `JsonTree.FillReads` | runtime/internal/context/history_projection.go:265-269 | Each listed leaf ends with its own text |
| `JsonTree.FillKeepsResolve` | runtime/internal/context/history_projection.go:300-323 | Writing leaves changes where no path leads |
| `JsonTree.ResolveTokens` | runtime/internal/context/history_projection.go:303-329 | The tokens of a node lead back to it |
| `HistoryText.FieldsAreDistinctLeaves` | runtime/internal/memory/history_text.go:27-72 | Every listed field is a non-empty string of the document at its own tokens, and no two share them |
| `HistoryText.PathsAreDistinct` | runtime/internal/memory/history_text.go:27-95 | Distinct listed fields have distinct paths |
| `HistoryText.LeavesAreComplete` | runtime/internal/memory/history_text.go:74-95 | The collector misses no non-empty string |
| `UnitCrop.LastProbeDecides` | runtime/internal/context/history_projection.go:261-296 | After any sequence of probes the shared tree is a fresh copy cut to the last limit alone |
| `UnitCrop.FillIsCut` | runtime/internal/context/history_projection.go:261-276 | Exactly the listed fields are cut to the limit; no other leaf and no path changes |
| `UnitCrop.FieldsArePrinted` | runtime/internal/context/history_projection.go:251-268 | Every listed field is found in the marked tree through its printed path, at a leaf of its own |
| `UnitCrop.SpansAreKeptPrefixes` | runtime/internal/context/history_projection.go:265-272 | The spans are exactly the kept prefixes |
| `UnitCrop.CropUnit` | runtime/internal/context/history_projection.go:242-298 | The cropped unit fits, is the marked tree cut to one limit whose successor does not fit or cuts nothing, and is missing exactly when there is no text or not even the empty texts fit |
| `UnitCrop.MakeCandidate` | runtime/internal/context/history_projection.go:261-282 | A probe in place gives the fresh cut copy and its spans |
| `UnitCrop.Widen` | runtime/internal/context/history_projection.go:287-297 | The bisection over the shared tree ends at a fitting limit whose successor does not fit |
| `HistoryProjection.ProjectHistory` | runtime/internal/context/history_projection.go:99-202 | The section fits its budget if and only if the budget is not negative (otherwise it is empty and costs nothing); its sources are the newest run of the eligible candidates not covered by the displayed summary; every source is counted once |
| `HistoryProjection.ShowNewest` | runtime/internal/context/history_projection.go:175-199 | The run stops at the first source that does not fit; only a lone newest one is cropped |
| `HistoryProjection.ShownUnits` | runtime/internal/context/history_projection.go:175-199 | Units show candidates in ascending order, and only a lone newest one may be incomplete |
| `HistoryProjection.CandidatesInOrder` | runtime/internal/context/history_projection.go:136-174 | The candidates are exactly the eligible sources, by sequence and id |
| `HistoryProjection.BoundSummary` | runtime/internal/context/history_projection.go:219-240 | The summary in full if it fits, else an accepted cut whose successor does not fit, else none |
| `HistoryProjection.CropNewest` | runtime/internal/context/history_projection.go:189-197 | The cropped unit fits and is cut only in its texts, or cannot be cut |
| `RequestBudget.Builder.Enforce` | runtime/internal/context/context.go:584-650 | The result is the state after the fewest drops at which the projection fits, or at which nothing droppable is left, or at which the measure fails |
| `RequestBudget.DropsInOrder` | runtime/internal/context/context.go:604-637 | Parts are dropped in the fixed order of classes; once a class is reached no earlier one has anything left |
| `RequestBudget.DropsAreBounded` | runtime/internal/context/context.go:595-649 | The loop ends: there are at most as many drops as parts |
| `RequestBudget.DropsConserve` | runtime/internal/context/context.go:607-623 | Retained plus dropped is conserved in every report |
| `RequestBudget.DropsRemain` | runtime/internal/context/context.go:668-748 | What is left keeps the newest history, transcript groups and memories, the first experiences and every required part |
| `RequestBudget.Builder.DropSnippets` | runtime/internal/context/retrieval_projection.go:364-383 | All snippets go and their matches count as dropped |
| `RequestBudget.Builder.DropOldestHistory` | runtime/internal/context/history_projection.go:359-373 | The oldest source goes, then the summary; the total is kept |
| `RequestBudget.Builder.DropExperience` | runtime/internal/context/experiences.go:101-111 | The last experience goes |
| `RequestBudget.Builder.DropOldestGroup` | runtime/internal/context/context.go:676-690 | The oldest causal group goes if another is left |
| `RequestBudget.Builder.DropOldestMemory` | runtime/internal/context/context.go:668-674 | The oldest memory goes |
| `RequestBudget.Builder.DropFactFields` | runtime/internal/context/context.go:692-712 | All attributes go, or else all texts are marked |
| `RequestBudget.Builder.DropObservation` | runtime/internal/context/context.go:722-730 | The optional parts of the observation go |
| `RequestBudget.Builder.DropGame` | runtime/internal/context/context.go:732-739 | The game definition becomes minimal |
| `RequestBudget.Builder.DropAgent` | runtime/internal/context/context.go:741-748 | The agent definition becomes minimal |
| `DefinitionBudget.ApplyDefinitionBudget` | runtime/internal/context/context.go:762-792 | Fails if and only if a limit is set and the minimal definitions exceed it; otherwise the result fits, each definition is the longest acceptable cut of its own in fill order, lists are prefixes, and a definition is reported cropped exactly when it changed |
| `DefinitionBudget.FillAgent` | runtime/internal/context/context.go:815-851 | The filled agent is the longest cut all of whose shorter ones fit, and is incomplete exactly when some cut does not fit |
| `DefinitionBudget.FillGame` | runtime/internal/context/context.go:853-891 | The same for the game beside the filled agent |
| `DefinitionBudget.FilledIsDetermined` | runtime/internal/context/context.go:762-792 | These conditions leave one outcome |
| `DefinitionBudget.AppendItems` | runtime/internal/context/context.go:893-907 | Items are added in order until one does not fit |
| `Transcript.ToolResultsMatchCalls` | runtime/internal/context/transcript_projection.go:73-103 | True exactly when the results answer the calls: non-blank distinct calls and one result each, in any order |
| `Transcript.AnswersIff` | runtime/internal/context/transcript_projection.go:73-103 | What the loop checks amounts to being a permutation |
| `Transcript.CausalGroups` | runtime/internal/context/transcript_projection.go:45-71 | The loop computes the grouping |
| `Transcript.GroupedIff` | runtime/internal/context/transcript_projection.go:45-71 | A transcript is accepted with these groups if and only if they are valid and flatten to it |
| `Transcript.RegroupSuffix` | runtime/internal/context/context.go:676-690 | Regrouping any suffix of groups gives that suffix |
| `Transcript.GroupedAppendCall` | runtime/internal/context/transcript_projection.go:45-71 | Calls without an answer are never accepted |
| `Transcript.GroupedAppendPair` | runtime/internal/agent/loop.go:597-686 | Appending a call and its answer keeps a transcript accepted if and only if the answer answers the call |
| `Transcript.TrimGroups` | runtime/internal/context/transcript_projection.go:105-130 | Keeps the longest suffix of whole groups within the limit and fails exactly when the last group alone exceeds it |
| `Transcript.TrimConserves` | runtime/internal/context/transcript_projection.go:105-145 | Dropped and kept groups are the transcript, and what is kept is accepted |
| `GameTime.CompareIsTotalPreorder` | runtime/internal/memory/game_time.go:103-120 | A fixed basis makes comparison a total preorder on present times |
| `GameTime.CompareIsLexicographic` | runtime/internal/memory/game_time.go:103-120 | Comparison is lexicographic on the fields of the basis |
| `GameTime.AbsentTimesBreakTheOrder` | runtime/internal/memory/game_time.go:103-120 | With absent times admitted, transitivity holds exactly for the unknown basis |
| `GameTime.ComputeSharedBasis` | runtime/internal/memory/game_time.go:80-101 | The flags computed in the loop give the shared basis |
| `GameTime.HistoryVisibility` | runtime/internal/memory/history.go:302-315 | Hidden by any time known to be later than now; unknown when any cannot be compared or there is none |
| `Timeline.SelectTimeline` | runtime/internal/context/memory_projection.go:52-94 | A permutation of the non-future records in the promised order: by time, then by sequence when all of the group have one and by creation and id otherwise |
| `Timeline.SortGroup` | runtime/internal/context/memory_projection.go:70-93 | Sorting one equal-time group in place never breaks the time order |
| `Timeline.FindGroup` | runtime/internal/context/memory_projection.go:70-84 | The group found is all of the records of that time |
| `Timeline.GroupDone` | runtime/internal/context/memory_projection.go:70-93 | After its sort a group is final |
| `Sorting.SortIsStable` | runtime/internal/context/memory_projection.go:64-92 | Elements that the order does not separate keep their relative order |
| `Sorting.StableSortSorts` | runtime/internal/context/memory_projection.go:64-92 | The result is sorted |
| `Sorting.SortKeepsPairwise` | runtime/internal/context/retrieval_projection.go:306-318 | A symmetric relation between all pairs survives the sort |

## Left out

- HTTP, gRPC, mail, Docker and browser plumbing, configuration loading, accounts other than the ledger, the web console, logging and traces: no hard property.
- SQL text, schema migration, file locking, JSON serialization and hashing: tables are ordered rows, a transaction is one atomic step, a batch's identity and fingerprint are given.
- Real time: a timeout is a cancellation that may come at any moment.
- Diagnostics texts of the projections and of pruning, except those that page contracts and the incomplete flag depend on.
- Memory trimming by tokens: the same suffix argument as for transcript groups.
- Summary storage: only the current revision of an owner and its coverage are kept; how coverage is stored and validated is not modelled.
- The index rebuild of history maintenance is an arbitrary result.
- The retry loop that finishes a task execution ends by a reconcile that is not part of this model.
- Prune.PruneCandidates: a failure at a candidate comes before the candidate is read; one that comes after differs only in the bytes the failed result reports as read, which stay within the limit.
- Experiences.ProjectRecentExperiences: what the experience store answers is arbitrary, and whether a record's clock name is well formed is a given flag.
- HistoryStores.MemoryStore.AppendHistory: batches are given in canonical form, so the refusals that precede the lock are not modelled.
- JsonTree.Document.SetString: the tree is a value held in one field, so sharing of nodes between two trees is not expressible; a parsed document has none.
- HistoryText.LeavesAreComplete: members of an object come in a fixed order; that the source sorts keys decides only the order of the fields.
- Generations.Runtime.ReplaceLocked: seen from the holder of the setup lock alone; steps of others in between are what the protocol adds.
- SendSlot.OneSendAtATime: senders, their guards and transports are a state machine on values; goroutines and channels have no class of their own.
- Scheduler.Run: results travel as sequences, where the source fills shared slices; the outcome of each call is given in advance and completion order is arbitrary.
- TurnLoop.RunBoundedSteps: a batch adds one result per call; the contents of messages and the durable record of a turn are not modelled.
- PreparedHistory.Compact: the cooldown of a failed compaction is a given flag.
- PreparedHistory.ReadPreparedHistory: should a store repeat a sequence, the source leaves the order of the two open and the model sorts stably.
- Retrieval.ProjectRetrieved: whether a match may be seen (owner, watermark, availability, time) is a given flag, since it is decided before the spans are.
