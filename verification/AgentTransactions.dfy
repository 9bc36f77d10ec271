/** What each repository transaction does to the rows of one run (server/modules/agents/repository.ts). */
module AgentTransactions {
  import opened Common
  import opened Utf16
  import opened AgentContracts
  import opened AgentRows

  datatype Fence = Fence(owner: OwnerId, generation: nat)

  /** A lease duration; the worker refuses to be built with any other (worker.ts, validateTiming). */
  type Duration = d: int | d > 0 witness 1

  /** status = running and the lease columns match the fence. */
  predicate Holds(run: RunRecord, fence: Fence) {
    && run.status == Running
    && run.leaseOwnerId == Some(fence.owner)
    && run.leaseGeneration == fence.generation
  }

  function LeaseExpiry(now: Time, duration: Duration, deadlineAt: Time): Time {
    Min(now + duration, deadlineAt)
  }

  predicate LeaseExpired(run: RunRecord, now: Time) {
    run.leaseExpiresAt.None? || run.leaseExpiresAt.value <= now
  }

  datatype WriteGuard = Allowed | GuardCancelRequested | GuardDeadlineExceeded | GuardAccessRevoked

  function ClassifyWorkerWrite(run: RunRecord, member: bool, now: Time): WriteGuard {
    if run.cancelRequestedAt.Some? then GuardCancelRequested
    else if !member then GuardAccessRevoked
    else if run.deadlineAt.None? || run.deadlineAt.value <= now then GuardDeadlineExceeded
    else Allowed
  }

  // ---------------------------------------------------------------- shared row updates

  datatype Ending = EndCancelled | EndFailed(code: ErrorCode)

  function SettleStep(s: StepRecord, ending: Ending, now: Time): StepRecord {
    if s.status != StepRunning then s
    else match ending
      case EndCancelled => s.(status := StepCancelled, completedAt := Some(now))
      case EndFailed(code) => s.(status := StepFailed, errorCode := Some(code), completedAt := Some(now))
  }

  /** update agent_run_steps ... where status = 'running'. */
  function SettleRunning(steps: seq<StepRecord>, ending: Ending, now: Time): (r: seq<StepRecord>)
    ensures |r| == |steps|
    ensures forall i :: 0 <= i < |steps| ==> r[i] == SettleStep(steps[i], ending, now)
  {
    seq(|steps|, i requires 0 <= i < |steps| => SettleStep(steps[i], ending, now))
  }

  function EndRunRow(run: RunRecord, ending: Ending, now: Time): RunRecord {
    var ended := run.(finishedAt := Some(now), leaseOwnerId := None, leaseExpiresAt := None);
    match ending
    case EndCancelled => ended.(status := Cancelled)
    case EndFailed(code) => ended.(status := Failed, errorCode := Some(code))
  }

  function EndRun(rows: RunRows, ending: Ending, now: Time): RunRows {
    RunRows(EndRunRow(rows.run, ending, now), SettleRunning(rows.steps, ending, now), rows.evidence)
  }

  /** The code a refused write ends the run with: lost access outranks the deadline. */
  function RefusalCode(member: bool): ErrorCode {
    if member then WallTimeExceeded else SpaceAccessRevoked
  }

  predicate PastDeadline(run: RunRecord, now: Time) {
    run.deadlineAt.Some? && run.deadlineAt.value <= now
  }

  /** The checks that open heartbeatLease, failStep, completeRun and failRun: they may end the run on the spot. */
  datatype Gate = Shut | Ends(ending: Ending) | Open

  function EndingGate(run: RunRecord, member: bool, fence: Fence, now: Time): Gate {
    if !Holds(run, fence) || run.deadlineAt.None? then Shut
    else if run.cancelRequestedAt.Some? then Ends(EndCancelled)
    else if !member || PastDeadline(run, now) then Ends(EndFailed(RefusalCode(member)))
    else if LeaseExpired(run, now) then Shut
    else Open
  }

  /** Index of the last running step. */
  function LastRunning(steps: seq<StepRecord>): (r: Option<nat>)
    ensures r.Some? ==> r.value < |steps| && steps[r.value].status == StepRunning
    ensures r.Some? ==> forall j :: r.value < j < |steps| ==> steps[j].status != StepRunning
    ensures r.None? ==> forall j :: 0 <= j < |steps| ==> steps[j].status != StepRunning
  {
    if steps == [] then None
    else if steps[|steps| - 1].status == StepRunning then Some(|steps| - 1)
    else LastRunning(steps[..|steps| - 1])
  }

  /** Index of the running tool step with this id. */
  function RunningTool(steps: seq<StepRecord>, id: StepId): (r: Option<nat>)
    ensures r.Some? ==> r.value < |steps| && steps[r.value].id == id && steps[r.value].kind == ToolCall && steps[r.value].status == StepRunning
    ensures r.None? ==> forall j :: 0 <= j < |steps| ==> !(steps[j].id == id && steps[j].kind == ToolCall && steps[j].status == StepRunning)
  {
    if steps == [] then None
    else
      var last := steps[|steps| - 1];
      if last.id == id && last.kind == ToolCall && last.status == StepRunning then Some(|steps| - 1)
      else RunningTool(steps[..|steps| - 1], id)
  }

  // ---------------------------------------------------------------- claimRun, one candidate

  predicate Claimable(run: RunRecord, now: Time) {
    run.status == Queued || (run.status == Running && run.leaseExpiresAt.Some? && run.leaseExpiresAt.value <= now)
  }

  function StartedAt(run: RunRecord, now: Time): Time {
    if run.startedAt.Some? then run.startedAt.value else now
  }

  function DeadlineAt(run: RunRecord, now: Time): Time {
    if run.deadlineAt.Some? then run.deadlineAt.value else StartedAt(run, now) + run.limits.wallTimeSeconds * 1000
  }

  /** Why a candidate is ended rather than handed out. */
  function ClaimEnding(run: RunRecord, member: bool, now: Time): Option<Ending> {
    if run.cancelRequestedAt.Some? then Some(EndCancelled)
    else if DeadlineAt(run, now) <= now then Some(EndFailed(WallTimeExceeded))
    else if !member then Some(EndFailed(SpaceAccessRevoked))
    else None
  }

  function WithTiming(run: RunRecord, now: Time): RunRecord {
    run.(startedAt := Some(StartedAt(run, now)), deadlineAt := Some(DeadlineAt(run, now)))
  }

  function ClaimCandidate(rows: RunRows, member: bool, owner: OwnerId, duration: Duration, now: Time): RunRows {
    var timed := WithTiming(rows.run, now);
    match ClaimEnding(rows.run, member, now)
    case Some(ending) => EndRun(rows.(run := timed), ending, now)
    case None =>
      rows.(run := timed.(
        status := Running,
        leaseOwnerId := Some(owner),
        leaseGeneration := rows.run.leaseGeneration + 1,
        leaseExpiresAt := Some(LeaseExpiry(now, duration, DeadlineAt(rows.run, now)))))
  }

  // ---------------------------------------------------------------- heartbeatLease

  datatype HeartbeatResult = LeaseUpdated(leaseExpiresAt: Time) | HeartbeatStale | HeartbeatCancelRequested

  function HeartbeatLease(rows: RunRows, member: bool, fence: Fence, duration: Duration, now: Time): (RunRows, HeartbeatResult) {
    var run := rows.run;
    match EndingGate(run, member, fence, now)
    case Shut => (rows, HeartbeatStale)
    case Ends(ending) => (EndRun(rows, ending, now), if ending == EndCancelled then HeartbeatCancelRequested else HeartbeatStale)
    case Open =>
      var expiresAt := LeaseExpiry(now, duration, run.deadlineAt.value);
      (rows.(run := run.(leaseExpiresAt := Some(expiresAt))), LeaseUpdated(expiresAt))
  }

  // ---------------------------------------------------------------- cancelRun

  datatype CancelResult = CancelledNow | CancellationRequested | AlreadyTerminal(status: RunStatus) | RunNotFound

  function CancelRun(rows: RunRows, actorIsMember: bool, actor: UserId, now: Time): (RunRows, CancelResult) {
    var run := rows.run;
    if !actorIsMember then (rows, RunNotFound)
    else if run.status in {Completed, Failed, Cancelled} then (rows, AlreadyTerminal(run.status))
    else if run.status == Queued then
      (rows.(run := run.(status := Cancelled, cancelRequestedAt := Some(now), cancelRequestedBy := Some(actor), finishedAt := Some(now))),
       CancelledNow)
    else if run.cancelRequestedAt.Some? then (rows, CancellationRequested)
    else (rows.(run := run.(cancelRequestedAt := Some(now), cancelRequestedBy := Some(actor))), CancellationRequested)
  }

  // ---------------------------------------------------------------- reserveStep

  /** idTaken: some other run has a step with the new row's identifier, as the repository finds in its table, where identifiers are unique. */
  datatype ReserveInput = ReserveInput(stepId: StepId, toolName: ToolName, safeArguments: Json, resumeStepId: Option<StepId>, idTaken: bool)

  datatype ReserveResult =
    | Reserved(step: StepRecord)
    | Resumed(step: StepRecord)
    | ReserveStale
    | ReserveRefused(guard: WriteGuard)
    | ReserveStepLimit
    | ReserveToolCallLimit
    | IncompleteStep
    | ReserveThrew  // the new row's identifier is taken, or its column refuses the arguments

  function NewToolStep(input: ReserveInput, sequence: nat, now: Time): StepRecord {
    StepRecord(input.stepId, sequence, ToolCall, StepRunning, Some(input.toolName), Some(input.safeArguments), None, 1, None, now, None)
  }

  function WithStep(rows: RunRows, i: nat, step: StepRecord): RunRows
    requires i < |rows.steps|
  {
    rows.(steps := rows.steps[i := step])
  }

  function WithNewTool(rows: RunRows, step: StepRecord): RunRows {
    rows.(run := rows.run.(stepCount := rows.run.stepCount + 1, toolCallCount := rows.run.toolCallCount + 1),
          steps := rows.steps + [step])
  }

  /** The step table takes the new row. */
  predicate InsertFits(steps: seq<StepRecord>, input: ReserveInput) {
    !HasId(steps, input.stepId) && !input.idTaken && JsonFits(input.safeArguments)
  }

  /** reserveStep once the guards have passed: resume the step in progress, or insert a new one. */
  function ReserveAllowed(rows: RunRows, input: ReserveInput, now: Time): (RunRows, ReserveResult) {
    var run, steps := rows.run, rows.steps;
    match LastRunning(steps)
    case Some(i) =>
      var step := steps[i];
      if Some(step.id) != input.resumeStepId || step.kind != ToolCall || step.toolName != Some(input.toolName)
         || step.safeArguments != Some(input.safeArguments)
      then (rows, IncompleteStep)
      else
        var resumed := step.(executionCount := step.executionCount + 1, startedAt := now);
        (WithStep(rows, i, resumed), Resumed(resumed))
    case None =>
      if run.stepCount >= run.limits.maxSteps then (rows, ReserveStepLimit)
      else if run.toolCallCount >= run.limits.maxToolCalls then (rows, ReserveToolCallLimit)
      else if !InsertFits(steps, input) then (rows, ReserveThrew)
      else
        var step := NewToolStep(input, run.stepCount + 1, now);
        (WithNewTool(rows, step), Reserved(step))
  }

  function ReserveStep(rows: RunRows, member: bool, fence: Fence, input: ReserveInput, now: Time): (RunRows, ReserveResult) {
    var run := rows.run;
    if !Holds(run, fence) || run.deadlineAt.None? then (rows, ReserveStale)
    else
      var guard := ClassifyWorkerWrite(run, member, now);
      if guard == GuardCancelRequested then (rows, ReserveRefused(guard))
      else if guard != Allowed then (EndRun(rows, EndFailed(RefusalCode(member)), now), ReserveRefused(guard))
      else if LeaseExpired(run, now) then (rows, ReserveStale)
      else ReserveAllowed(rows, input, now)
  }

  // ---------------------------------------------------------------- completeToolStepWithEvidence

  datatype CompleteToolInput = CompleteToolInput(
    stepId: StepId, observation: Json, evidence: seq<EvidenceDraft>, contextBytes: int, documentsAuthorized: bool)

  datatype CompleteToolResult =
    | ToolStepCompleted(step: StepRecord, evidence: seq<EvidenceRecord>)
    | CompleteToolStale
    | CompleteToolRefused(guard: WriteGuard)
    | ObservationTooLarge
    | EvidenceLimitExceeded
    | InvalidEvidence
    | CompleteToolContextLimit
    | CompleteToolThrew  // a draft does not parse, or a column or row check refuses what is stored

  function NewEvidence(drafts: seq<EvidenceDraft>, stepId: StepId, existing: nat): (r: seq<EvidenceRecord>)
    ensures |r| == |drafts|
    ensures forall i :: 0 <= i < |r| ==> r[i] == EvidenceRecord(stepId, EvidenceKey(existing + i + 1), drafts[i], None)
  {
    seq(|drafts|, i requires 0 <= i < |drafts| => EvidenceRecord(stepId, EvidenceKey(existing + i + 1), drafts[i], None))
  }

  /** What validateEvidenceDraft and the checks of the two tables let through. */
  predicate RowsAccept(input: CompleteToolInput) {
    && ObservationFits(input.observation)
    && forall i :: 0 <= i < |input.evidence| ==> input.evidence[i].storable
  }

  function CompleteToolStep(rows: RunRows, member: bool, fence: Fence, input: CompleteToolInput, now: Time): (RunRows, CompleteToolResult) {
    var run, steps := rows.run, rows.steps;
    if input.observation.bytes > AGENT_OBSERVATION_MAX_BYTES then (rows, ObservationTooLarge)
    else if !Holds(run, fence) || run.deadlineAt.None? then (rows, CompleteToolStale)
    else
      var guard := ClassifyWorkerWrite(run, member, now);
      if guard != Allowed then (rows, CompleteToolRefused(guard))
      else if LeaseExpired(run, now) then (rows, CompleteToolStale)
      else if input.observation.bytes > run.limits.observationMaxBytes then (rows, ObservationTooLarge)
      else if !(0 <= input.contextBytes <= run.limits.contextMaxBytes) then (rows, CompleteToolContextLimit)
      else match RunningTool(steps, input.stepId)
        case None => (rows, CompleteToolStale)
        case Some(i) =>
          if |rows.evidence| + |input.evidence| > run.limits.maxEvidence then (rows, EvidenceLimitExceeded)
          else if !input.documentsAuthorized then (rows, InvalidEvidence)
          else if !RowsAccept(input) then (rows, CompleteToolThrew)
          else
            var step := steps[i].(status := StepCompleted, observation := Some(input.observation), completedAt := Some(now));
            var added := NewEvidence(input.evidence, step.id, |rows.evidence|);
            (RunRows(run.(contextBytes := input.contextBytes), steps[i := step], rows.evidence + added), ToolStepCompleted(step, added))
  }

  // ---------------------------------------------------------------- failStep

  datatype FailStepInput = FailStepInput(stepId: StepId, errorCode: ErrorCode, contextBytes: int)

  datatype FailStepResult =
    | StepFailedResult(step: StepRecord)
    | FailStepStale
    | FailStepCancelRequested
    | FailStepDeadlineExceeded
    | FailStepAccessRevoked
    | FailStepContextLimit

  function FailStep(rows: RunRows, member: bool, fence: Fence, input: FailStepInput, now: Time): (RunRows, FailStepResult) {
    var run, steps := rows.run, rows.steps;
    match EndingGate(run, member, fence, now)
    case Shut => (rows, FailStepStale)
    case Ends(ending) =>
      (EndRun(rows, ending, now),
       match ending case EndCancelled => FailStepCancelRequested case EndFailed(_) => if member then FailStepDeadlineExceeded else FailStepAccessRevoked)
    case Open =>
    if !(0 <= input.contextBytes <= run.limits.contextMaxBytes) then (rows, FailStepContextLimit)
    else match RunningTool(steps, input.stepId)
      case None => (rows, FailStepStale)
      case Some(i) =>
        var step := steps[i].(status := StepFailed, errorCode := Some(input.errorCode), completedAt := Some(now));
        (rows.(run := run.(contextBytes := input.contextBytes), steps := steps[i := step]), StepFailedResult(step))
  }

  // ---------------------------------------------------------------- completeRun

  datatype CompleteRunInput = CompleteRunInput(finalStepId: StepId, finalResult: FinalResult, idTaken: bool)

  datatype CompleteRunResult =
    | RunCompleted
    | CompleteRunStale
    | CompleteRunCancelRequested
    | CompleteRunDeadlineExceeded
    | CompleteRunAccessRevoked
    | CompleteRunStepLimit
    | CompleteRunInvalidEvidence
    | CompleteRunThrew  // the result does not parse, the new row's identifier is taken, or the column refuses the answer

  function IndexOf(ids: seq<Text>, key: Text): (r: Option<nat>)
    ensures r.Some? ==> r.value < |ids| && ids[r.value] == key
    ensures r.None? ==> key !in ids
  {
    if ids == [] then None
    else if ids[|ids| - 1] == key then Some(|ids| - 1)
    else IndexOf(ids[..|ids| - 1], key)
  }

  function Cite(item: EvidenceRecord, ids: seq<Text>): EvidenceRecord {
    match IndexOf(ids, item.key)
    case Some(k) => item.(finalOrdinal := Some(k + 1))
    case None => item.(finalOrdinal := None)
  }

  /** Clears every final ordinal, then numbers the cited rows. */
  function CiteAll(evidence: seq<EvidenceRecord>, ids: seq<Text>): (r: seq<EvidenceRecord>)
    ensures |r| == |evidence|
    ensures forall i :: 0 <= i < |r| ==> r[i] == Cite(evidence[i], ids)
  {
    seq(|evidence|, i requires 0 <= i < |evidence| => Cite(evidence[i], ids))
  }

  predicate Citable(rows: RunRows, key: Text) {
    exists i :: 0 <= i < |rows.evidence| && rows.evidence[i].key == key && FromCompletedTool(rows.steps, rows.evidence[i].stepId)
  }

  predicate AllCitable(rows: RunRows, ids: seq<Text>) {
    forall key :: key in ids ==> Citable(rows, key)
  }

  predicate HasFinalAnswer(steps: seq<StepRecord>) {
    exists i :: 0 <= i < |steps| && steps[i].kind == FinalAnswer
  }

  function FinalStep(id: StepId, sequence: nat, now: Time): StepRecord {
    StepRecord(id, sequence, FinalAnswer, StepCompleted, None, None, None, 1, None, now, Some(now))
  }

  /** The rows with the answer stored as the run's last step. */
  function Published(rows: RunRows, finalStepId: StepId, result: FinalResult, now: Time): RunRows {
    var run := rows.run;
    RunRows(
      run.(status := Completed, stepCount := run.stepCount + 1, finalStatus := Some(result.status), finalAnswer := Some(result.answer),
           finishedAt := Some(now), leaseOwnerId := None, leaseExpiresAt := None),
      rows.steps + [FinalStep(finalStepId, run.stepCount + 1, now)],
      CiteAll(rows.evidence, result.evidenceIds))
  }

  /** completeRun after its result has been parsed. */
  function PublishParsed(
      rows: RunRows, member: bool, fence: Fence, finalStepId: StepId, idTaken: bool, result: FinalResult, now: Time): (RunRows, CompleteRunResult)
  {
    var run, steps := rows.run, rows.steps;
    match EndingGate(run, member, fence, now)
    case Shut => (rows, CompleteRunStale)
    case Ends(ending) =>
      (EndRun(rows, ending, now),
       match ending case EndCancelled => CompleteRunCancelRequested case EndFailed(_) => if member then CompleteRunDeadlineExceeded else CompleteRunAccessRevoked)
    case Open =>
    if run.stepCount >= run.limits.maxSteps then (rows, CompleteRunStepLimit)
    else if LastRunning(steps).Some? then (rows, CompleteRunStale)
    else if HasFinalAnswer(steps) then (rows, CompleteRunStale)
    else if !AllCitable(rows, result.evidenceIds) then (rows, CompleteRunInvalidEvidence)
    else if HasId(steps, finalStepId) || idTaken || !TextFits(result.answer) then (rows, CompleteRunThrew)
    else (Published(rows, finalStepId, result, now), RunCompleted)
  }

  function CompleteRun(rows: RunRows, member: bool, fence: Fence, input: CompleteRunInput, now: Time): (RunRows, CompleteRunResult) {
    match ParseFinalResult(input.finalResult)
    case None => (rows, CompleteRunThrew)
    case Some(result) => PublishParsed(rows, member, fence, input.finalStepId, input.idTaken, result, now)
  }

  // ---------------------------------------------------------------- failRun

  datatype FailRunInput = FailRunInput(errorCode: ErrorCode, decisionErrorStepId: Option<StepId>, idTaken: bool)

  datatype FailRunResult =
    | RunFailed
    | FailRunStale
    | FailRunCancelRequested
    | FailRunDeadlineExceeded
    | FailRunAccessRevoked
    | FailRunStepLimit
    | FailRunThrew  // the new row's identifier is taken

  function DecisionErrorStep(id: StepId, sequence: nat, code: ErrorCode, now: Time): StepRecord {
    StepRecord(id, sequence, DecisionError, StepFailed, None, None, None, 1, Some(code), now, Some(now))
  }

  function WithDecisionError(ended: RunRows, id: StepId, code: ErrorCode, now: Time): RunRows {
    ended.(run := ended.run.(stepCount := ended.run.stepCount + 1),
           steps := ended.steps + [DecisionErrorStep(id, ended.run.stepCount + 1, code, now)])
  }

  function FailRun(rows: RunRows, member: bool, fence: Fence, input: FailRunInput, now: Time): (RunRows, FailRunResult) {
    var run, steps := rows.run, rows.steps;
    match EndingGate(run, member, fence, now)
    case Shut => (rows, FailRunStale)
    case Ends(ending) =>
      (EndRun(rows, ending, now),
       match ending case EndCancelled => FailRunCancelRequested case EndFailed(_) => if member then FailRunDeadlineExceeded else FailRunAccessRevoked)
    case Open =>
    match input.decisionErrorStepId
      case None => (EndRun(rows, EndFailed(input.errorCode), now), RunFailed)
      case Some(id) =>
        if run.stepCount >= run.limits.maxSteps then (rows, FailRunStepLimit)
        else if HasId(steps, id) || input.idTaken then (rows, FailRunThrew)
        else
          (WithDecisionError(EndRun(rows, EndFailed(input.errorCode), now), id, input.errorCode, now), RunFailed)
  }

  // ---------------------------------------------------------------- markCancelled

  datatype MarkCancelledResult = MarkedCancelled | MarkCancelledStale | MarkNotRequested

  function MarkCancelled(rows: RunRows, fence: Fence, now: Time): (RunRows, MarkCancelledResult) {
    if !Holds(rows.run, fence) then (rows, MarkCancelledStale)
    else if rows.run.cancelRequestedAt.None? then (rows, MarkNotRequested)
    else (EndRun(rows, EndCancelled, now), MarkedCancelled)
  }

  // ---------------------------------------------------------------- readExecutionState

  datatype ReadStateResult = StateRead(state: RunRows) | ReadStale | ReadRefused(guard: WriteGuard)

  function ReadExecutionState(rows: RunRows, member: bool, fence: Fence, now: Time): (r: ReadStateResult)
    ensures r.StateRead? ==> r.state == rows && Holds(rows.run, fence) && member && rows.run.cancelRequestedAt.None?
    ensures r.StateRead? ==> !LeaseExpired(rows.run, now) && !PastDeadline(rows.run, now)
  {
    var run := rows.run;
    if !Holds(run, fence) || run.leaseExpiresAt.None? then ReadStale
    else
      var guard := ClassifyWorkerWrite(run, member, now);
      if guard != Allowed then ReadRefused(guard)
      else if run.leaseExpiresAt.value <= now then ReadStale
      else StateRead(rows)
  }
}
