# Verified model of the durable Agent protocol and its neighbours

This project models, in Dafny, the parts of the application whose correctness depends on many steps, several actors
and arithmetic, and proves what those parts are for. `dafny verify dfyconfig.toml` checks all of it.

**The Agent run protocol.** Each repository transaction is one atomic step on the rows of a run: `AgentTransactions`
gives its meaning as a function, the class `AgentRepository` performs it as updates of its tables, and every method is
proved equal to that function. `AgentLadder` and `AgentCancellation` say what each answer means, read off the columns
without the functions: one ladder of checks opens every write under a fence. `AgentInvariant`, `AgentHistory`,
`AgentCancellation` and `AgentStateRules` prove what any interleaving of transactions keeps. `AgentDatabase` puts all runs
and memberships together; scripts of transactions are the histories a database can have, and `EvidenceProvenance` follows
stored evidence back through them to the documents of its space. `ExecutionContext` and `ContextRoundTrip` relate the context a worker extends to the
one anybody rebuilds. `RunExecutor` is the executor's loop with arbitrary transactions of everybody else between any two of
its own steps: the only thing it relies on is that other executors' writes are disciplined (allowed tools, room for the
answer, exact byte counts), and each of its own writes is licensed by what it has itself read or written. What it answers
is what it owes (`ExecutorOutcomes`): the ending its own write made, or the reason it stopped.
`ExecutorsTogether` closes the circle: any number of such executors, interleaved with anybody else, meet what each of them
relies on. The provider, the tools, the clock, identifiers, abort signals and the checkpoint answer anything
(`Common.Anything`).
`WorkerLease` models the worker's lease locals as a class and all workers' sessions on one run as a state machine.
`RunViews` and `TraceResponse` cover what is read back.

**The document chunker** (`DocumentChunker`) works on UTF-16 code units (`Utf16`); its three patterns are scanners over
character classes. `DocumentIndex` and `DocumentIndexingWorker` model attempts, whole-index replacement and one claimed
attempt from text to activated index.

**Realtime.** `RealtimeHub` is the hub as a class with its sockets; `RealtimeGateway` dispatches one socket's commands with
everybody else's work between its awaits; `RealtimeAccess` interleaves subscribe commands with removals, deletions and
their later events.

**Smaller cores.** `ArxivScheduler` (the request queue), `ActivityCursor` (RFC 4648, sections 3.5 and 5) and
`ActivityPaging` (keyset pages).

Findings about the code as it is:

- A claim can take a queued run straight to failed, which the status table does not allow; `TransactionsFollowTheTable`
  says exactly when, `QueuedRunsMayFail` gives such a run, and all other steps follow the table. Durable steps are
  therefore related to the table's closure.
- Some values pass every check of the application and are refused by their columns. A jsonb column takes no text with
  U+0000 or a lone surrogate, and the observation's check measures the text the database keeps, which has a space after
  every colon and comma; a text column takes no U+0000. The transaction then throws and the execution is interrupted; an
  observation's step stays running, and the next claim runs the tool again. `ColumnLimits` gives the exact conditions for
  observations (`CheckedResultsAreStoredIff`) and answers (`CheckedAnswersAreStoredIff`), `ReservingFollowsTheCounters`
  for arguments, and the two former have inputs on the rows of a real run.
- A cursor carries its time in whole milliseconds while the column holds microseconds. `PagingIsCompleteIff` says exactly
  when paging is complete, `FinerTimesAreSkipped` gives two rows that lose one, and `PagingIsComplete` shows that rows
  stamped with JavaScript dates, as the application stamps them, are never lost.
- `validateTiming` compares the heartbeat interval and the safety margin with the lease separately, so it accepts timings
  whose watchdog is due before the first maintenance heartbeat (`AcceptedTimingsMayStarve`); a checkpoint may send one
  earlier. `FirstMaintenanceHeartbeatIff` gives the exact condition, in which the time the claim's reply took counts too;
  the default timing (15 s and 15 s for a lease of 60 s) leaves the reply 30 s.
- The chunker's amortised bound is a little better than its constants suggest: four cuts advance by a full 2700.
- Several of the executor's defensive branches cannot be reached while executors are disciplined: the step and tool-call
  limit answers, the evidence and context limits on completion, the changed snapshot and the unexpected identifiers. They
  appear as `assert false`.

User, run, document and space identifiers are numbers, ordered as their fixed-width lower-case text is. Times are
integers. A JSON value is opaque but for two byte sizes, that of its serialization, which a stored and reread value keeps,
and that of the text a jsonb column gives back for it, if the column takes it at all.

## Model

| member | source | states |
|---|---|---|
| AgentContracts.EvidenceIdsAreE1ToE32 | shared/contracts/agents.ts:199 | the identifier pattern accepts exactly E1 to E32 |
| AgentContracts.EvidenceKeyIsInjective | server/modules/agents/repository.ts:486-488 | different ordinals give different evidence keys |
| AgentContracts.ParsedResultsStayParsed | shared/contracts/agents.ts:209-271 | an accepted final result is accepted again, unchanged, when it is parsed a second time |
| AgentContracts.AcceptedExactlyWhen | shared/contracts/agents.ts:205-271 | a result is accepted exactly when its trimmed answer has 1 to 8000 code units and its identifiers are the answer's markers, once each in first-appearance order: for an answer at least one, each of E1 to E32, and for insufficient context none; the limit of 32 never decides |
| AgentContracts.MarkersAreAllFound | shared/contracts/agents.ts:201-203 | the names read from an answer are exactly those between the brackets of its markers, wherever they stand |
| AgentContracts.FirstOccurrencesInOrder | shared/contracts/agents.ts:205-207 | of two unique values the one that first appears earlier comes first |
| Utf16.TrimCutsSpace | shared/contracts/agents.ts:212-216 | trimming cuts white space from the two ends and nothing else |
| AgentState.TerminalReachesOnlyItself | server/modules/agents/state.ts:28-50 | no path of the status table leaves a terminal status |
| AgentInvariant.TransactionsKeepConsistent | server/db/schema.ts:519-604 | every transaction, by any caller with any arguments, keeps the row checks and the cross-row invariant: steps are 1 to stepCount, tool calls are counted, at most the last step runs, evidence is E1 to En from completed tools, the lease ends by the fixed deadline, cited ordinals spell the answer's markers |
| AgentInvariant.PublishedIsConsistent | server/modules/agents/repository.ts:1843-1892 | storing a citable, parsed answer as the last step keeps the whole invariant |
| AgentInvariant.CitingSpellsTheIds | server/modules/agents/repository.ts:1843-1854 | clearing and renumbering final ordinals makes them spell the cited identifiers and nothing else |
| AgentHistory.TransactionsMoveForward | server/modules/agents/repository.ts:1025-2069 | a transaction never withdraws a cancellation, moves a deadline, lowers a generation, changes a settled step or stored evidence, shares a generation between owners, or raises 2 * (maxSteps - stepCount) plus one for a running step |
| AgentHistory.HistoriesMoveForward | server/modules/agents/repository.ts:1025-2069 | so does any history, and it keeps the invariant |
| AgentHistory.TerminalRunsStayFrozen | server/modules/agents/state.ts:28-35 | after a run has ended no history changes its status, steps, evidence, answer or error |
| AgentHistory.UnheldFenceChangesNothing | server/modules/agents/repository.ts:1307-1322 | a write under a superseded fence, or on a run that is not running, changes nothing |
| AgentHistory.ExpiredFenceOnlyEndsTheRun | server/modules/agents/repository.ts:373-395 | at or past lease expiry a worker write changes nothing or ends the run for cancellation, lost access or the deadline, in that order |
| AgentHistory.AcceptedWritesAreFenced | server/modules/agents/repository.ts:1141-2069 | in any history, accepted worker writes carry the fence the run was held under, their generations never decrease, and one generation has one owner |
| AgentHistory.OtherWritesKeepTheLease | server/modules/agents/repository.ts:1238-2069 | only claims and heartbeats move a lease |
| AgentLadder.FencedWritesClimbOneLadder | server/modules/agents/repository.ts:1141-2069 | every write under a fence asks, in this order: held, cancellation, access, deadline, lease; it changes nothing or ends the run for the first that fails, as its transaction does, and goes on only when all hold |
| AgentLadder.LostAccessEndsTheRun | server/modules/agents/repository.ts:1188-1217 | when the actor is no longer a member, whatever the lease, a write under a fence changes nothing or ends the run as cancelled or for the lost access; a held, uncancelled run ends for it under every write but a tool's completion and a settlement |
| AgentLadder.HeartbeatDecides | server/modules/agents/repository.ts:1141-1236 | what each standing of the worker is answered; a good one moves the lease, and nothing else, to the duration from now or the deadline |
| AgentLadder.ReserveAllowedDecides | server/modules/agents/repository.ts:1360-1433 | each answer for the condition it stands for: resumed, a different step in progress, either limit, a row the table refuses, or a new row column by column |
| AgentLadder.CompleteToolDecides | server/modules/agents/repository.ts:1435-1580 | the first check that fails gives the answer with nothing changed, documents of another space among them; otherwise the step, the numbered evidence and the size are stored, column by column |
| AgentLadder.FailStepDecides | server/modules/agents/repository.ts:1582-1712 | what each answer means; only the step in progress fails, with the code asked for |
| AgentLadder.PublishDecides | server/modules/agents/repository.ts:1714-1894 | what each answer means; a published run has the answer, its numbered citations and its last step, column by column |
| AgentLadder.AbandonDecides | server/modules/agents/repository.ts:1896-2021 | what each answer means; the run ends with the code asked for, and with the decision-error step asked for |
| AgentLadder.ClaimDecides | server/modules/agents/repository.ts:1025-1113 | only a waiting run or one whose lease is over is claimed; it is ended for cancellation, its deadline or lost access, in that order, or handed out under the next generation until the duration or the deadline is over |
| AgentLadder.ReadDecides | server/modules/agents/repository.ts:969-1023 | what each standing of the worker is answered |
| AgentLadder.ForgettingDecides | server/db/schema.ts:459-486 | deleting a user account takes the user out of the two columns that name one and touches nothing else |
| EvidenceProvenance.StoredEvidenceIsAuthorized | server/modules/agents/repository.ts:1497-1515 | whatever evidence a transaction stores quotes only documents that belong to the run's space as it does so |
| EvidenceProvenance.EvidenceComesFromTheSpace | server/modules/agents/repository.ts:1497-1580 | through every script, each document that any stored evidence quotes belonged to the run's own space at some time of the script |
| AgentCancellation.CancellingTakesEffect | server/modules/agents/repository.ts:1238-1305 | a member's cancellation ends a queued run, leaves a request on a running one and nothing on an ended one |
| AgentCancellation.StrangersCannotCancel | server/modules/agents/repository.ts:1247-1258 | who is no member of the space changes nothing |
| AgentCancellation.CancelDecides | server/modules/agents/repository.ts:1238-1305 | each answer exactly when it is due, and what it leaves: a queued run ends at once, the first request on a running run is the one that is kept |
| AgentCancellation.CancelledRunsNeverAdvance | server/modules/agents/repository.ts:1065-2069 | once cancellation is requested no later history adds a step, observation, evidence or answer, completes the run or fails it |
| AgentStateRules.TransactionsFollowTheTable | server/modules/agents/state.ts:28-50 | a transaction's status change is an edge of the table if and only if it is not the claim of a queued run whose actor lost access |
| AgentStateRules.QueuedRunsMayFail | server/modules/agents/repository.ts:1045-1097 | that claim exists: a run created with the default limits whose actor has left goes from queued to failed |
| AgentStateRules.ReservingFollowsTheCounters | server/modules/agents/state.ts:73-91 | a step is inserted exactly when the counters allow it and the step table takes the row, and moves them as the rule says; a row the table refuses throws with nothing changed |
| AgentStateRules.ClaimingFollowsTheTiming | server/modules/agents/state.ts:103-126 | claiming sets or keeps start and deadline as the timing rule does, and that rule never throws on durable rows |
| AgentStateRules.EndedRunsAreValid | server/modules/agents/state.ts:138-167 | every consistent ended run satisfies the terminal-state rule of its status |
| ExecutionContext.ValidateStepOrder | server/modules/agents/execution-context.ts:75-96 | accepts exactly the states of the run's own task whose steps are the run's own, numbered, counted and running only at the end |
| ExecutionContext.ValidateEvidence | server/modules/agents/execution-context.ts:98-123 | rejects exactly too many, misnumbered or foreign rows and rows of another run, and groups the keys by step in order |
| ExecutionContext.BuildAgentDecisionContext | server/modules/agents/execution-context.ts:173-205 | the loops and the map compute the projection the rows define, with the first error in the order of the checks |
| ExecutionContext.ContextBytesMeasureTheText | server/modules/agents/execution-context.ts:66-68 | the byte count is the length of the serialized context, opaque JSON counting its own bytes |
| ContextRoundTrip.ProjectionIsNeverCorrupt | server/modules/agents/execution-context.ts:173-205 | a consistent running run with an exact byte count is projected, or is refused only for the size of its prompt |
| ContextRoundTrip.LostEvidenceIsDetected | server/modules/agents/execution-context.ts:195-203 | a running run with an exact byte count that has lost any number of its newest evidence rows is refused as corrupt |
| ContextRoundTrip.AppendingEqualsRebuilding | server/modules/agents/execution-context.ts:173-249 | the context extended by one finished call equals the one rebuilt from the rows once that step is stored, identifiers and byte count included |
| ContextRoundTrip.AppendingStopsAtTheLimits | server/modules/agents/execution-context.ts:207-249 | on consistent rows with a step in progress a finished call is refused only for its own size, the evidence limit or the context limit, in this order; its place and its identifiers are always accepted |
| ContextRoundTrip.ProjectedRowsAreInOrder | server/modules/agents/execution-context.ts:75-123 | rows that are projected have what the tables promise across rows: numbered and counted steps, only the last running, evidence in key order from completed tools, and an exact byte count |
| AgentDiscipline.DisciplineKeepsSound | server/modules/agents/run-executor.ts:379-464 | transactions of executors that follow the protocol keep room for the answer, allowed tools and an exact byte count, whatever everyone else does |
| AgentDiscipline.SoundRowsProject | server/modules/agents/run-executor.ts:520-529 | rebuilding the context of such a run never reports corruption |
| AgentDatabase.ScriptsKeepConsistent | server/modules/agents/repository.ts:1025-2069 | any script of transactions on all runs, with runs created and deleted and members coming and going, keeps every run consistent and moves it forward |
| AgentDatabase.DisciplinedScriptsKeepSound | server/modules/agents/run-executor.ts:508-661 | any disciplined script reaches only states whose contexts can be rebuilt |
| AgentDatabase.ScriptsKeepIdsUnique | server/db/schema.ts:567-571 | step identifiers stay unique across all runs through every script whose inserts are checked against the whole table |
| AgentDatabase.MembersAreOfTheSpace | server/modules/agents/repository.ts:1318-1336 | a run's access is its actor's membership of the run's own space |
| AgentDatabase.ActionsTouchOneRun | server/db/schema.ts:519-604 | an action touches only the run it names, creating one never touches a run that was ever there, and memberships change one at a time |
| AgentRepository.AgentRepository.ClaimRun | server/modules/agents/repository.ts:1025-1139 | terminates; hands out the first claimable unlocked run in (created, id) order that need not be ended, ends exactly those before it, and answers empty only when none is left |
| AgentRepository.AgentRepository.ClaimOrEnd | server/modules/agents/repository.ts:1045-1113 | one candidate is ended for cancellation, deadline or lost access, in that order, or handed out under the next generation |
| AgentRepository.FirstIsOldest | server/modules/agents/repository.ts:1030-1043 | the first candidate is the oldest unlocked claimable run, and of runs created at one time the one with the smallest identifier |
| AgentRepository.HandOutShowsTheStepInProgress | server/modules/agents/repository.ts:1119-1136 | the step handed out with a run is the one in progress, and there is none exactly when no step is |
| AgentRepository.HandedOutRunsAreFenced | server/modules/agents/repository.ts:1099-1113 | a run handed out is held by the claimer under a fresh generation with a lease that lies ahead and ends by the deadline |
| AgentRepository.AgentRepository.HeartbeatLease | server/modules/agents/repository.ts:1141-1236 | only the holder of a live lease renews it, by the duration or to the deadline; a requested cancellation, lost access or the deadline ends the run instead |
| AgentRepository.AgentRepository.CancelRun | server/modules/agents/repository.ts:1238-1305 | a stranger learns nothing, an ended run keeps its status, a queued run ends, and a running one gets the request of the first member who asked |
| AgentRepository.AgentRepository.ReserveStep | server/modules/agents/repository.ts:1307-1433 | cancellation is left to be settled, lost access and the deadline end the run; a step in progress is resumed only under its own identifier, tool and arguments; a new one needs both counters, an identifier no run uses and arguments the column takes |
| AgentRepository.AgentRepository.CompleteToolStepWithEvidence | server/modules/agents/repository.ts:1435-1580 | nothing changes unless every check of the code and of the columns passes, in order; then the step, its numbered evidence and the context size are stored together; stored evidence quotes documents of the run's space only, and invalid evidence quotes another |
| AgentRepository.AgentRepository.AuthorizeDocuments | server/modules/agents/repository.ts:1497-1515 | comparing two set sizes decides whether every quoted document belongs to the space |
| AgentRepository.AgentRepository.FailStep | server/modules/agents/repository.ts:1582-1712 | fails the one running step with that identifier and stores the size, unless the gate ends the run or shuts |
| AgentRepository.AgentRepository.NumberCitations | server/modules/agents/repository.ts:1843-1854 | the clearing update and one update per identifier number exactly the cited rows |
| AgentRepository.AgentRepository.CompleteRun | server/modules/agents/repository.ts:1714-1894 | publishes a parsed answer as the last step only when no step runs, none is final, a step is left, every identifier is citable and the column takes the text |
| AgentRepository.AgentRepository.FailRun | server/modules/agents/repository.ts:1896-2021 | ends the run with the code, and records the decision error as one more step when a step is left |
| AgentRepository.AgentRepository.MarkCancelled | server/modules/agents/repository.ts:2023-2069 | settles the run and its running step exactly when its holder finds a request |
| AgentRepository.AgentRepository.ReadExecutionState | server/modules/agents/repository.ts:969-1023 | a read hands out the stored rows only to the holder of a live, permitted lease |
| ExecutorRely.ForeignActionsKeepWork | server/modules/agents/repository.ts:1025-2069 | while our fence still holds, nobody else's transaction has touched the run's steps, evidence or counters |
| ExecutorRely.ProgressNeverRises | server/modules/agents/run-executor.ts:516-657 | nobody's transaction raises the bound on the executor's remaining iterations |
| ExecutorWrites.ReservingIsDisciplined | server/modules/agents/run-executor.ts:391-401 | the limits are never answered, refusals ended the run with their own code, and a reserved or resumed step is the run's last, runs, and has the prepared tool and arguments |
| ExecutorWrites.CompletingIsDisciplined | server/modules/agents/run-executor.ts:331-377 | storing an appended call never meets the evidence or context limit, stores the predicted identifiers and an exact byte count, and spends one unit of the measure |
| ExecutorWrites.FailingIsDisciplined | server/modules/agents/run-executor.ts:280-308 | failing a step with the rebuilt context's size stores that error on that step, keeps the byte count exact and spends one unit of the measure |
| ExecutorWrites.PublishingAnswers | server/modules/agents/run-executor.ts:484-505 | every answer of completeRun names the state the run is then in, and the step limit is never one |
| ExecutorWrites.AbandoningAnswers | server/modules/agents/run-executor.ts:204-240 | every answer of failRun names the state the run is then in, with the decision-error step it was asked for, and the step limit is never one |
| ExecutorWrites.LicensedIsDisciplined | server/modules/agents/run-executor.ts:280-506 | whatever an executor writes going by the rows it last saw is disciplined on the rows as they are by then |
| ColumnLimits.CheckedResultsAreStoredIff | server/modules/agents/repository.ts:1435-1580 | a result that passed the executor's checks, under a live lease, is stored if and only if its drafts are accepted, the jsonb column takes the observation and the text kept for it fits; otherwise the call throws and the step stays running |
| ColumnLimits.RefusedObservationsThrow | server/db/schema.ts:580-595 | for every run with the default limits, the first call's completion throws with nothing changed whenever its observation is within the application's limit and the column does not take it |
| ColumnLimits.StoredTextMayBeTooLong | server/db/schema.ts:595 | a search result of 32,700 bytes whose stored text has 32,800, on the rows of a created, claimed and reserved run |
| ColumnLimits.ObservationMayBeRefused | server/db/schema.ts:580 | a short knowledge answer with U+0000 in it, on such rows |
| ColumnLimits.CheckedAnswersAreStoredIff | server/modules/agents/repository.ts:1714-1894 | a parsed, citable answer, under a live lease with a step left and none running, is published if and only if it has no U+0000 and its step's identifier is new; otherwise the call throws with nothing changed |
| ColumnLimits.AnswerMayBeRefused | server/modules/agents/repository.ts:1872-1892 | an accepted insufficient-context answer with U+0000 in it, on the rows of a claimed run |
| RunExecutor.SameWorkSameSnapshot | server/modules/agents/run-executor.ts:95-116 | reads under one lease have equal snapshot keys, so no decision is discarded for a changed snapshot |
| RunExecutor.Execution.Read | server/modules/agents/run-executor.ts:242-246 | a successful read shows the work as last read or written, under whatever interference |
| RunExecutor.Execution.Recheck | server/modules/agents/run-executor.ts:248-272 | a refused read is settled and answered as owed; the signal is looked at before the rows are used |
| RunExecutor.Execution.FailWith | server/modules/agents/run-executor.ts:204-240 | the code is the one the last news asks for; the answer is how this write, or the gate it met, ended the run, and stale only when the lease is no longer ours; the retry without a decision error is never needed |
| RunExecutor.Execution.PersistToolSuccess | server/modules/agents/run-executor.ts:331-377 | goes on only with the measure spent and the checkpoint passed; stored identifiers are always the predicted ones; an outcome is the one owed |
| RunExecutor.Execution.HandleToolError | server/modules/agents/run-executor.ts:421-449 | reads the run again first; fails the step with the code the error asks for and goes on with the measure spent, or answers as owed |
| RunExecutor.Execution.ExecutePreparedTool | server/modules/agents/run-executor.ts:379-464 | the tool runs only as the step in progress, after a checkpoint; it goes on only with the measure spent, and an outcome is the one owed |
| RunExecutor.Execution.CompleteFinal | server/modules/agents/run-executor.ts:466-506 | completed is answered exactly when this publication completed the run; an answer that does not parse, is too long or is not citable fails the run for it; every other answer is owed too |
| RunExecutor.Execution.Decide | server/modules/agents/run-executor.ts:565-656 | the provider is asked about the rebuilt context with every offered tool, or none when only an answer fits; an outcome is the one owed |
| RunExecutor.Execution.ActOn | server/modules/agents/run-executor.ts:607-656 | a decision is acted on only after the rows have been read again; a new step is reserved only for an offered tool with room for the answer |
| RunExecutor.Execution.Execute | server/modules/agents/run-executor.ts:509-661 | terminates under any interference; completed, cancelled or failed(e) is answered exactly when one of its own writes ended the run that way, and the row says so; stale only when the lease is no longer ours, interrupted only for its causes, a failure of its choosing only with the code that the news asks for; the context is never found corrupt |
| ExecutorOutcomes.OwnWritesOwe | server/modules/agents/run-executor.ts:171-183 | what an execution owes is how the last of its own writes that ended the run ended it |
| ExecutorOutcomes.OthersOweNothing | server/modules/agents/run-executor.ts:171-183 | and nothing that anybody else writes changes it |
| ExecutorOutcomes.PublishOwes | server/modules/agents/run-executor.ts:484-505 | each answer of completeRun names the ending it made; stale means the lease is over or a step is running |
| ExecutorOutcomes.AbandonOwes | server/modules/agents/run-executor.ts:204-240 | each answer of failRun names the ending it made; stale means the lease is over |
| ExecutorOutcomes.ReserveOwes | server/modules/agents/run-executor.ts:310-329 | each answer of reserveStep names the ending it made, and what it found otherwise |
| RunExecutor.DurableOutcomesStay | server/modules/agents/run-executor.ts:171-183 | and they stay so through every later script, for as long as the run exists |
| ExecutorsTogether.OthersMeetTheRely | server/modules/agents/run-executor.ts:508-661 | every transaction of the other executors and of everybody else is one that an executor allows for between two of its own steps |
| ExecutorsTogether.ExecutorsComposeSafely | server/modules/agents/run-executor.ts:508-661 | any number of executors on any runs, each going only by what it read or wrote itself, and anybody else in between, produce a disciplined script: nothing is assumed of any of them |
| ExecutorsTogether.NoRunIsCorrupted | server/modules/agents/run-executor.ts:520-529 | so no running run is ever found corrupt, and at most one execution holds it |
| WorkerLease.ClaimSession.ResetWatchdog | server/modules/agents/worker.ts:312-337 | the watchdog is armed for the cutoff, or for now when that has passed |
| WorkerLease.ClaimSession.SettleHeartbeat | server/modules/agents/worker.ts:339-390 | an update is confirmed and rearms the watchdog; anything else aborts the execution with its own cause; after maintenance has stopped nothing changes |
| WorkerLease.AnswersMoveTheSession | server/modules/agents/worker.ts:339-390 | an updated lease keeps the session alive with its watchdog a safety margin before the new expiry, or at the deadline; a stale answer and a cancellation end it, each with its own cause unless one was named before |
| WorkerLease.SessionsStopForACause | server/modules/agents/worker.ts:286-390 | in every run a session is over only if a stale answer, an answered cancellation, a due watchdog or a stop from outside ended it, and the cause it names is one that happened |
| WorkerLease.ClaimSession.LeaseCheckpoint | server/modules/agents/worker.ts:409-421 | always answers, since retries cannot outlast the watchdog; its heartbeats are a retry interval apart, and it continues only with a lease renewed during the checkpoint |
| WorkerLease.FirstMaintenanceHeartbeatIff | server/modules/agents/worker.ts:423-437 | an uncapped lease leaves time before its cutoff, and its first maintenance heartbeat precedes its watchdog exactly when the interval, the margin and the time the claim's reply took are together shorter than the lease |
| WorkerLease.AcceptedTimingsMayStarve | server/modules/agents/worker.ts:98-110 | an interval of 50 s and a margin of 15 s for a lease of 60 s are accepted, and the watchdog is due 5 s before the first maintenance heartbeat |
| WorkerLease.OneHolder | server/modules/agents/worker.ts:286-390 | with a shared clock, whenever no uncapped watchdog is late by its safety margin, at most one un-aborted execution of the run exists, and it has the row's generation |
| WorkerLease.OneHolderWhenWatchdogsFire | server/modules/agents/worker.ts:312-337 | in particular whenever no due watchdog is unfired |
| WorkerLease.CappedLeasesAreLast | server/modules/agents/repository.ts:1058-1097 | after a lease capped at the deadline every later claim ends the run |
| WorkerLease.ConfirmedNeverExceedsDurable | server/modules/agents/worker.ts:293-320 | the holder's confirmed expiry never exceeds the row's, and its cutoff precedes it unless the deadline caps it |
| WorkerLease.UpdatesRenewTheLease | server/modules/agents/repository.ts:1218-1234 | an updated heartbeat has renewed the row's lease to the answered time, which lies ahead, by the duration or to the deadline |
| RunViews.BuildRunPersistenceViews | server/modules/agents/repository.ts:404-451 | the maps and loops compute the specified views or the first error |
| RunViews.ViewsMean | server/modules/agents/repository.ts:404-451 | each error for the references it stands for; otherwise the ordinals are 1 to n, no key repeats, and the view lists each reference's key at its ordinal |
| RunViews.GroupsAreTheRuns | server/modules/agents/repository.ts:418-426 | a run's group holds its own references, as often as they occur, and no others |
| RunViews.ViewsReadBackCitations | server/modules/agents/repository.ts:404-451 | on consistent runs it never throws, and returns exactly the identifiers each stored answer cites, whatever order the references come in |
| RunViews.CitedIdsAreCitable | server/modules/agents/repository.ts:1808-1841 | every cited identifier belongs to evidence of a completed tool step of that run |
| RunViews.PublishedAnswersReadBack | server/modules/agents/repository.ts:1714-1894 | publishing an answer and reading it back, at any later time, is the identity on its identifiers |
| TraceResponse.ValidateTrace | shared/contracts/agents.ts:569-640 | the loops accept exactly the traces of one run with ascending steps, evidence from completed tools under distinct keys and final ordinals 1 to n |
| TraceResponse.AcceptedTracesTell | shared/contracts/agents.ts:569-640 | in an accepted trace everything is the run's own, steps ascend strictly, evidence comes from completed tool steps of the trace, and no key occurs twice |
| TraceResponse.ShapesAgreeWithTheTable | shared/contracts/agents.ts:393-470 | the response's step schema and the step table's checks accept the same steps, but for a failed step with an observation, which the schema alone lets through |
| TraceResponse.ConsistentRunsHaveTraces | shared/contracts/agents.ts:569-640 | the trace of every consistent run is accepted |
| DocumentChunker.MatchesAreLongest | server/modules/documents/document-chunker.ts:77-88 | each scanner finds the longest text of its pattern's language from a position, or there is none |
| DocumentChunker.LastMatchEnd | server/modules/documents/document-chunker.ts:62-71 | returns the end of the last successive match in the window |
| DocumentChunker.LastMatchIsLast | server/modules/documents/document-chunker.ts:62-71 | that end lies in (start, end], ends a match, leaves no match after it; there is none exactly when the window holds no match |
| DocumentChunker.ChoosePrimaryEnd | server/modules/documents/document-chunker.ts:73-92 | chooses the specified cut |
| DocumentChunker.CutIsBest | server/modules/documents/document-chunker.ts:73-92 | the cut leaves no match of its kind after it and no match of a better kind in the window |
| DocumentChunker.PrimaryEndIsSafe | server/modules/documents/document-chunker.ts:38-48 | every cut makes progress, stays within 2700 code units and splits no surrogate pair |
| DocumentChunker.Chunk | server/modules/documents/document-chunker.ts:98-131 | the loop produces the specified chunks, and fails exactly when there would be more than 1000 |
| DocumentChunker.UnitDraftsRebuild | server/modules/documents/document-chunker.ts:103-126 | dropping each overlap rebuilds the text exactly |
| DocumentChunker.UnitDraftsAreOk | server/modules/documents/document-chunker.ts:111-121 | each chunk is the slice at its offsets, at most 3000 code units, splits no pair, and is well formed when the text is (Unicode Standard, section 3.9); ordinals are consecutive |
| DocumentChunker.ChunksStartAndEndWell | server/modules/documents/document-chunker.ts:103-121 | every chunk starts 300 code units before the end of the one before, or one fewer where that would split a pair, and ends at the end of the text or at a best cut of a window of 2700 |
| DocumentChunker.DocumentIsNumbered | server/modules/documents/document-chunker.ts:101-129 | ordinals run on through all units of a document |
| DocumentChunker.EveryUnitIsChunked | server/modules/documents/document-chunker.ts:101-129 | a document's chunks are those of its first unit, then those of its second, and so on, none left out and none repeated |
| DocumentChunker.NextKindDrops | server/modules/documents/document-chunker.ts:73-92 | to stay inside the previous cut's window a cut must be of a strictly worse kind |
| DocumentChunker.FourCutsAdvance | server/modules/documents/document-chunker.ts:103-126 | four consecutive cuts advance by at least 2700 code units unless they reach the end |
| DocumentChunker.ChunksAreFew | server/modules/documents/document-chunker.ts:6-10 | n > 0 code units give at most 4 * ((n - 1) div 2700) + 4 chunks |
| DocumentChunker.LongTextsFit | server/modules/documents/document-chunker.ts:122-124 | a text of up to 675,000 code units is never refused |
| DocumentIndex.VisibleIndexIsTheLastActivation | server/modules/documents/repository.ts:354-419 | through any history the chunks and index columns are those of the last accepted activation, none before the first, and chunkCount counts the rows |
| DocumentIndex.AttemptsEndOnceInOrder | server/modules/documents/repository.ts:339-369 | accepted failures and activations carry strictly increasing attempt numbers, so no attempt ends twice |
| DocumentIndex.StaleAttemptsChangeNothing | server/modules/documents/repository.ts:324-369 | an attempt that is not current changes nothing |
| DocumentIndex.ActionsMoveTheStatus | server/modules/documents/repository.ts:238-419 | where each action finds a document and where it leaves it: recovery and reindexing queue it, a claim starts its next attempt, a failure and an activation end the one being processed and write just the columns that say so; on any other document nothing changes |
| DocumentIndex.StatusColumnsStayOk | server/modules/documents/repository.ts:238-419 | through any history error, stage, attempt and index columns say what the status says |
| DocumentIndex.DocumentRepository.RecoverProcessingDocuments | server/modules/documents/repository.ts:279-286 | requeues exactly the documents being processed and counts them |
| DocumentIndex.DocumentRepository.ClaimNextQueuedDocument | server/modules/documents/repository.ts:288-322 | claims the first unlocked queued document by (updated, id) under the next attempt number, or says none is queued |
| DocumentIndex.FirstIsOldest | server/modules/documents/repository.ts:288-322 | the first document is the one changed longest ago, and of those the one with the smallest identifier |
| DocumentIndex.DocumentRepository.ReplaceChunks | server/modules/documents/repository.ts:370-386 | deleting and inserting in batches of 100 leaves exactly the new chunks |
| DocumentIndex.DocumentRepository.ActivateDocumentIndex | server/modules/documents/repository.ts:354-419 | replaces chunks and columns exactly when the attempt is current |
| DocumentIndex.DocumentRepository.QueueReindexForMember | server/modules/documents/repository.ts:238-277 | who may requeue which document, and what each answer means |
| DocumentIndexingWorker.ValidateGeneratedEmbeddings | server/modules/documents/document-indexing-worker.ts:237-255 | accepts exactly one finite vector of the right size per chunk from the right model |
| DocumentIndexingWorker.IndexingAttempt.ProcessClaim | server/modules/documents/document-indexing-worker.ts:130-222 | whatever interferes and whichever call throws, the attempt ends as what happened asks: activated after both stages with exactly the chunks, vectors and columns it was given, stale only when superseded, failed with the stage and code of what went wrong, and in the row when recorded |
| RealtimeHub.Hub.Unregister | server/realtime/hub.ts:36-44 | the client is gone; nobody hears anything but presence lists, and every open subscriber's last one is right |
| RealtimeHub.Hub.SubscribeIfCurrent | server/realtime/hub.ts:59-88 | subscribes exactly when no removal or deletion was processed since the capture, with a snapshot, and tells the reason otherwise; the others hear only presence lists, and every one is right |
| RealtimeHub.Hub.Unsubscribe | server/realtime/hub.ts:90-94 | drops the one subscription; nobody hears anything but presence lists, and every one is right |
| RealtimeHub.Hub.RevokeMember | server/realtime/hub.ts:128-138 | raises the revision, drops exactly the user's subscriptions to the space and tells each such socket once; every other socket hears at most who is still present, and every presence list is right |
| RealtimeHub.Hub.RevokeSpace | server/realtime/hub.ts:140-146 | raises the revision, drops every subscription to the space and tells each subscriber once, and nobody else |
| RealtimeHub.Hub.GetPresentUserIds | server/realtime/hub.ts:154-160 | lists exactly the users with a subscribed socket, ascending |
| RealtimeHub.Hub.Send | server/realtime/hub.ts:202-222 | an open socket that can take the event gets it and stays open; one that cannot is terminated; nobody else is touched |
| RealtimeHub.Hub.Broadcast | server/realtime/hub.ts:192-200 | every open subscriber is sent the event once, and no one else anything |
| RealtimeHub.Hub.BroadcastMessage | server/realtime/hub.ts:96-102 | every open subscriber is sent the message once; a socket that is not subscribed hears nothing of it |
| RealtimeHub.ChangesTouchOnlyTheirOwn | server/realtime/hub.ts:28-146 | who is subscribed after each change: everybody as before but for the socket, space or user it names |
| RealtimeHub.OneListEach | server/realtime/hub.ts:154-160 | there is only one such list |
| RealtimeGateway.AtMostTwiceTheLimit | server/realtime/gateway.ts:18-20 | in any stretch of less than a minute a socket gets at most 120 commands and at most 40 chat messages through |
| RealtimeGateway.AdmissionsByWindow | server/realtime/gateway.ts:94-107 | within one window no more are admitted than the limit leaves, and such a stretch meets at most two windows |
| RealtimeGateway.CountersCountTheWindow | server/realtime/gateway.ts:94-101 | the counters are the numbers of commands and chat messages since the window opened, admitted or not; it opened with one of them, and nothing older counts |
| RealtimeGateway.FewCommandsAllPass | server/realtime/gateway.ts:102-107 | a socket that stays at 60 commands and 20 chat messages, with those already counted, is never refused |
| RealtimeGateway.Gateway.DispatchSubscribe | server/realtime/gateway.ts:109-115 | one membership lookup; acknowledged only for a user it found a member, with both access revisions as they were when the command began, although anybody may act before and after it; no such space exactly when it found none, an internal error exactly when it threw |
| RealtimeGateway.Gateway.DispatchChat | server/realtime/gateway.ts:121-127 | an acknowledged message was stored after three lookups that all found its sender a member; it is the last event of every other open socket subscribed by then, and the last but its acknowledgement of the sender's; an unsubscribed socket is refused with nothing changed |
| RealtimeGateway.Gateway.Dispatch | server/realtime/gateway.ts:90-128 | which answer each command gets, with anybody's revocations, connections, messages and commands between its awaits; an acknowledgement is the last event its socket is sent; every presence list is right throughout |
| RealtimeAccess.StepsKeepSafe | server/realtime/gateway.ts:109-115 | capturing, checking, subscribing, removing, deleting and processing events, in any order, keep the access invariant |
| RealtimeAccess.SubscribersKeepAccess | server/modules/members/service.ts:81-84 | in every interleaving a subscribed socket's user is still a member or the matching event is not yet processed |
| RealtimeAccess.SettledSubscribersAreMembers | server/modules/spaces/service.ts:85-87 | once all events are processed, subscribers are members |
| ArxivScheduler.Scheduler.Schedule | server/integrations/arxiv/scheduler.ts:41-58 | refuses exactly when active with a full queue; the queue stays bounded and is empty when idle |
| ArxivScheduler.Scheduler.StartDrain | server/integrations/arxiv/scheduler.ts:60-72 | the next job in order starts now if its earliest start has come, and otherwise sleeps until exactly then |
| ArxivScheduler.Scheduler.EarliestStartMeans | server/integrations/arxiv/scheduler.ts:66-69 | the earliest start is the first time neither before the job's own nor within the spacing of the last start |
| ArxivScheduler.Scheduler.TaskEnds | server/integrations/arxiv/scheduler.ts:73-79 | the running job, and no other, is settled, and the next drain begins |
| ArxivScheduler.Scheduler.IdleMeansDone | server/integrations/arxiv/scheduler.ts:76-79 | when idle, every accepted job has started in order and been settled exactly once |
| ArxivScheduler.StartsAreApart | server/integrations/arxiv/scheduler.ts:67-72 | any two starts are at least as many spacings apart as there are starts between them |
| ActivityCursor.PatternIffDecoder | shared/contracts/activity.ts:22-29 | the pattern accepts a non-empty text exactly when the decoder's alphabet, length and re-encode checks do |
| ActivityCursor.DecodingUndoesEncoding | server/modules/activity/service.ts:38-57 | decoding an encoded cursor gives its bytes back |
| ActivityCursor.EncodedCursorsAreAccepted | server/modules/activity/service.ts:38-57 | every encoded cursor passes both checks |
| ActivityPaging.RemainingIsATail | server/modules/activity/repository.ts:351-366 | what a cursor lets through is a tail of the ordered events |
| ActivityPaging.FollowingShowsTheTail | server/modules/activity/service.ts:70-90 | following cursors ends, and shows all that remains exactly when no page boundary skips an event |
| ActivityPaging.PagingIsCompleteIff | server/modules/activity/service.ts:70-90 | every event is shown once and in order if and only if at each page boundary the next event passes the cursor's filter |
| ActivityPaging.PagingIsComplete | server/modules/activity/service.ts:70-90 | always so for events on whole milliseconds |
| ActivityPaging.FinerTimesAreSkipped | server/modules/activity/repository.ts:351-357 | two events within one millisecond of which one is never shown |
| ActivityPaging.InsertsDoNotDisturb | server/modules/activity/service.ts:82-88 | an event inserted ahead of a cursor never disturbs the remaining pages |

## Left out

- PostgreSQL itself: each transaction is atomic; skip-locked is a set of rows the claim does not see.
- Repository calls that reject for reasons outside the tables (lost connections): the executor answers interrupted, as for the thrown results that are modelled.
- A heartbeat whose request throws has either committed already or never will; a commit that overtakes a later heartbeat of the same session is not modelled.
- The lease duration is a positive number by type; `calculateAgentLeaseExpiry` throws for any other, and the worker refuses to be built with one.
- LeaseCheckpoint: assumes every heartbeat request settles and a due watchdog fires while something is awaited.
- Execute: the executor's termination assumes that provider, tools and checkpoint answer.
- ClaimRun: the task row it also returns, and the case of a task that has vanished.
- A lone surrogate in a final answer, for which the database driver stores the replacement character; the answer is stored as it is.
- Evidence drafts: whether the evidence schema and the table's checks accept one is a flag of the draft.
- The run identifier a projection carries, with which an appended step's is compared; the executor works on one run.
- The step durations, updated-at times, provider model names and prompt versions, which no branch of the protocol reads; the provider-model comparison is a free choice.
- Evidence snapshots, embeddings and content hashes beyond identity and shape; SHA-256, index fingerprints and extractor output are opaque.
- The worker's poll loop, maintenance timing and shutdown grace periods; stopping a session is one step of the lease model.
- Retries, task creation, idempotency fingerprints and listings of tasks.
- Hub.Register: states its effect for a socket that is not registered yet, the only way the gateway calls it.
- Hub.CloseSession: the sockets stop being open; their registration ends with the later close event.
- The gateway's pings, upgrade checks, frame parsing, error envelopes and the promise chain that runs a socket's commands one at a time.
- The race between an awaited provider or tool call and its timers: how it ends is a free choice.
- The membership check of a subscribe command is one atomic read.
- Scheduler.SleepEnds: assumes sleep never ends early or throws, and a clock that does not run backwards.
- The JSON payload inside an activity cursor and its schema; paging uses the two values it carries, after the same cut to milliseconds.
- Activity events come as one ordered list: the union of sources, the space and category filters and the truncation of titles are not modelled.
- Document upload, deletion and listing, storage, text extraction and the embedding provider's requests.
