/** The executor's own writes: each keeps the database on track, and what each answer means. */
module ExecutorWrites {
  import opened Common
  import opened Utf16
  import opened AgentContracts
  import opened AgentRows
  import opened AgentTransactions
  import opened AgentInvariant
  import opened AgentHistory
  import opened AgentDiscipline
  import opened AgentDatabase
  import opened ExecutionContext
  import opened ContextRoundTrip
  import opened ExecutorRely

  /** The run is terminal, and its row says why. */
  predicate EndedAs(rows: RunRows, ending: Ending) {
    match ending
    case EndCancelled => rows.run.status == Cancelled
    case EndFailed(code) => rows.run.status == Failed && rows.run.errorCode == Some(code)
  }

  /** The rows of one run replaced, and nothing else. */
  predicate Rewrites(db: Database, next: Database, id: RunId, rows: RunRows) {
    next == db.(runs := db.runs[id := rows])
  }

  /** The actor of run id is a member of its space. */
  predicate Actor(db: Database, id: RunId)
    requires id in db.runs
  {
    IsMember(db.runs[id].run, MembersOf(db.members, db.runs[id].run.spaceId))
  }

  /** What every write of ours starts from: the database is on track, and while we hold the run we know its work. */
  ghost predicate Ready(start: Database, script: seq<DbAction>, db: Database, id: RunId, fence: Fence, seen: RunRows) {
    && OnTrack(start, script, db, id, fence)
    && (StillHolds(db, id, fence) ==> SameWork(seen, db.runs[id]))
  }

  /** One disciplined transaction of our own on the run keeps the database on track. */
  lemma OwnStaysOnTrack(
      start: Database, script: seq<DbAction>, db: Database, next: Database, id: RunId, fence: Fence, action: RunAction, now: Time)
    requires OnTrack(start, script, db, id, fence)
    requires id in db.runs ==>
      var rows, members := db.runs[id], MembersOf(db.members, db.runs[id].run.spaceId);
      Disciplined(rows, members, action, now) && Rewrites(db, next, id, Apply(rows, members, action, now))
    requires id !in db.runs ==> next == db
    ensures OnTrack(start, script + [OnRun(id, action, now)], next, id, fence)
    ensures 0 <= Progress(next, id) <= Progress(db, id)
  {
    hide Disciplined, SoundDb, Progress, WasClaimed, Apply;
    StaysOnTrack(start, script, db, id, fence, OnRun(id, action, now));
  }

  // ---------------------------------------------------------------- reserveStep

  /** A new step may be reserved with an allowed tool while one more step still leaves room for the answer. */
  predicate MayReserve(seen: RunRows, toolName: ToolName) {
    && toolName in seen.run.toolNames
    && seen.run.stepCount + 1 < seen.run.limits.maxSteps
    && seen.run.toolCallCount < seen.run.limits.maxToolCalls
  }

  /** Refusals ended the run with their own code; a reserved or resumed step is the run's last one and runs under our lease. */
  predicate ReserveAnswers(after: RunRows, input: ReserveInput, r: ReserveResult, fence: Fence) {
    && r != ReserveStepLimit && r != ReserveToolCallLimit && r != ReserveRefused(Allowed)
    && (r == ReserveRefused(GuardAccessRevoked) ==> EndedAs(after, EndFailed(SpaceAccessRevoked)))
    && (r == ReserveRefused(GuardDeadlineExceeded) ==> EndedAs(after, EndFailed(WallTimeExceeded)))
    && (r.Reserved? || r.Resumed? ==>
          && Holds(after.run, fence) && after.steps != [] && after.steps[|after.steps| - 1] == r.step && r.step.status == StepRunning
          && r.step.toolName == Some(input.toolName) && r.step.safeArguments == Some(input.safeArguments))
    && (r.Reserved? ==> r.step.id == input.stepId && r.step.executionCount == 1)
    && (r.Resumed? ==> Some(r.step.id) == input.resumeStepId && r.step.executionCount > 1)
  }

  lemma ReservingIsDisciplined(rows: RunRows, seen: RunRows, members: set<UserId>, fence: Fence, input: ReserveInput, now: Time)
    requires StepsOk(rows)
    requires Holds(rows.run, fence) ==> SameWork(seen, rows)
    requires LastRunning(seen.steps).None? ==> MayReserve(seen, input.toolName)
    ensures Disciplined(rows, members, Reserve(fence, input), now)
    ensures var (after, r) := ReserveStep(rows, IsMember(rows.run, members), fence, input, now);
      after == Apply(rows, members, Reserve(fence, input), now) && ReserveAnswers(after, input, r, fence)
  {
  }

  lemma ReserveStaysOnTrack(
      start: Database, script: seq<DbAction>, db: Database, next: Database, id: RunId, fence: Fence, seen: RunRows, input: ReserveInput, now: Time)
    requires Ready(start, script, db, id, fence, seen)
    requires LastRunning(seen.steps).None? ==> MayReserve(seen, input.toolName)
    requires id in db.runs ==> Rewrites(db, next, id, ReserveStep(db.runs[id], Actor(db, id), fence, input, now).0)
    requires id !in db.runs ==> next == db
    ensures OnTrack(start, script + [OnRun(id, Reserve(fence, input), now)], next, id, fence)
    ensures 0 <= Progress(next, id) <= Progress(db, id)
    ensures id in db.runs ==>
      var (after, r) := ReserveStep(db.runs[id], Actor(db, id), fence, input, now); ReserveAnswers(after, input, r, fence)
  {
    hide Disciplined, Progress, WasClaimed, ReserveStep, MayReserve, Measure, SameWork, Apply;
    if id in db.runs {
      ReservingIsDisciplined(db.runs[id], seen, MembersOf(db.members, db.runs[id].run.spaceId), fence, input, now);
    }
    OwnStaysOnTrack(start, script, db, next, id, fence, Reserve(fence, input), now);
  }

  // ---------------------------------------------------------------- completeToolStepWithEvidence

  /** p is the context of rows, and q is p with the running last step of rows finished by result. */
  predicate Appends(rows: RunRows, p: Projection, result: ToolResult, q: Projection) {
    && rows.run.status == Running
    && rows.steps != [] && rows.steps[|rows.steps| - 1].status == StepRunning
    && BuildDecisionContext(rows) == Ok(p)
    && AppendCompletedToolCall(p, rows.steps[|rows.steps| - 1], result) == Ok(q)
  }

  function CompletionOf(rows: RunRows, result: ToolResult, q: Projection, authorized: bool): CompleteToolInput
    requires rows.steps != []
  {
    CompleteToolInput(rows.steps[|rows.steps| - 1].id, result.observation, result.evidence, q.contextBytes, authorized)
  }

  /** The identifiers the worker predicted for its last call. */
  function Predicted(q: Projection): seq<Utf16.Text> {
    var calls := q.context.completedToolCalls;
    if calls == [] then [] else calls[|calls| - 1].evidenceIds
  }

  function KeysIn(evidence: seq<EvidenceRecord>): (r: seq<Utf16.Text>)
    ensures |r| == |evidence| && forall i :: 0 <= i < |r| ==> r[i] == evidence[i].key
  {
    seq(|evidence|, i requires 0 <= i < |evidence| => evidence[i].key)
  }

  /** No size limit is met, the stored identifiers are the predicted ones, and one unit of the measure is spent. */
  predicate CompleteToolAnswers(before: RunRows, after: RunRows, input: CompleteToolInput, q: Projection, r: CompleteToolResult) {
    && r != EvidenceLimitExceeded && r != CompleteToolContextLimit && r != CompleteToolRefused(Allowed)
    && (r.ToolStepCompleted? ==>
          && r.step.id == input.stepId && r.step.status == StepCompleted && KeysIn(r.evidence) == Predicted(q)
          && Measure(after) < Measure(before))
  }

  lemma CompletingStoresTheProjection(
      rows: RunRows, member: bool, fence: Fence, p: Projection, result: ToolResult, q: Projection, authorized: bool, now: Time)
    requires Consistent(rows) && Appends(rows, p, result, q)
    requires CompleteToolStep(rows, member, fence, CompletionOf(rows, result, q, authorized), now).1.ToolStepCompleted?
    ensures CompleteToolStep(rows, member, fence, CompletionOf(rows, result, q, authorized), now).0 == Finished(rows, result, q.contextBytes, now)
    ensures CompleteToolStep(rows, member, fence, CompletionOf(rows, result, q, authorized), now).1
         == ToolStepCompleted(Done(rows.steps[|rows.steps| - 1], result.observation, now),
                              NewEvidence(result.evidence, rows.steps[|rows.steps| - 1].id, |rows.evidence|))
  {
    hide BuildDecisionContext, AppendCompletedToolCall, EvidenceOk, AnswerOk, RunRowOk;
    assert RunningTool(rows.steps, rows.steps[|rows.steps| - 1].id).value == |rows.steps| - 1;
  }

  /** What appending predicts. */
  lemma AppendPredicts(rows: RunRows, p: Projection, result: ToolResult, q: Projection)
    requires Appends(rows, p, result, q)
    ensures 0 <= q.contextBytes <= rows.run.limits.contextMaxBytes && result.observation.bytes <= AGENT_OBSERVATION_MAX_BYTES
    ensures |rows.evidence| + |result.evidence| <= rows.run.limits.maxEvidence
    ensures Predicted(q) == PredictedIds(|rows.evidence|, |result.evidence|)
  {
    hide ContextBytes, CallsOk, CompletedCalls, StepOrderOk, EvidenceOrderOk;
  }

  lemma NewEvidenceHasPredictedKeys(drafts: seq<EvidenceDraft>, id: StepId, existing: nat)
    ensures KeysIn(NewEvidence(drafts, id, existing)) == PredictedIds(existing, |drafts|)
  {
  }

  /** A finished step stored with the size of the appended projection is a disciplined write with the predicted identifiers. */
  lemma CompletingIsDisciplined(
      rows: RunRows, members: set<UserId>, fence: Fence, p: Projection, result: ToolResult, q: Projection, authorized: bool, now: Time)
    requires Consistent(rows) && Appends(rows, p, result, q)
    ensures Disciplined(rows, members, CompleteTool(fence, CompletionOf(rows, result, q, authorized)), now)
    ensures var input := CompletionOf(rows, result, q, authorized);
      var (after, r) := CompleteToolStep(rows, IsMember(rows.run, members), fence, input, now);
      after == Apply(rows, members, CompleteTool(fence, input), now) && CompleteToolAnswers(rows, after, input, q, r)
  {
    hide Consistent, Measure, BuildDecisionContext, AppendCompletedToolCall, ContextExact, Predicted, PredictedIds, NewEvidence;
    var input := CompletionOf(rows, result, q, authorized);
    var member := IsMember(rows.run, members);
    var (after, r) := CompleteToolStep(rows, member, fence, input, now);
    AppendPredicts(rows, p, result, q);
    if r.ToolStepCompleted? {
      CompletingStoresTheProjection(rows, member, fence, p, result, q, authorized, now);
      CompleteToolKeepsConsistent(rows, member, fence, input, now);
      AppendingEqualsRebuilding(rows, p, result, q, now);
      CompleteToolMovesForward(rows, member, fence, input, now);
      NewEvidenceHasPredictedKeys(result.evidence, rows.steps[|rows.steps| - 1].id, |rows.evidence|);
    }
  }

  lemma SameWorkSameProjection(a: RunRows, b: RunRows)
    requires SameWork(a, b) && a.run.status == Running && b.run.status == Running
    ensures BuildDecisionContext(a) == BuildDecisionContext(b)
  {
    hide CompletedCalls, FieldsOk, FinalizeProjection, HasTerminalTool, IsEvidenceId, FromCompletedTool;
    assert FieldsOk(a.steps) ==> ProjectionOf(a) == ProjectionOf(b);
    forall i | 0 <= i < |a.evidence|
      ensures EvidenceRowOk(a, i) <==> EvidenceRowOk(b, i)
    {
    }
  }

  /** Finishing the step the worker saw running: under a lease we lost, the call is refused before anything changes. */
  lemma CompletingWhatWasSeen(
      rows: RunRows, seen: RunRows, members: set<UserId>, fence: Fence, p: Projection, result: ToolResult, q: Projection, authorized: bool, now: Time)
    requires Consistent(rows) && Appends(seen, p, result, q)
    requires Holds(rows.run, fence) ==> SameWork(seen, rows)
    ensures Disciplined(rows, members, CompleteTool(fence, CompletionOf(seen, result, q, authorized)), now)
    ensures var input := CompletionOf(seen, result, q, authorized);
      var (after, r) := CompleteToolStep(rows, IsMember(rows.run, members), fence, input, now);
      after == Apply(rows, members, CompleteTool(fence, input), now) && CompleteToolAnswers(rows, after, input, q, r)
  {
    hide Consistent, BuildDecisionContext, AppendCompletedToolCall, Measure, Predicted, ContextExact;
    AppendPredicts(seen, p, result, q);
    if Holds(rows.run, fence) {
      hide CompleteToolStep;
      SameWorkSameProjection(seen, rows);
      CompletingIsDisciplined(rows, members, fence, p, result, q, authorized, now);
    }
  }

  lemma CompleteToolStaysOnTrack(
      start: Database, script: seq<DbAction>, db: Database, next: Database, id: RunId, fence: Fence, seen: RunRows,
      p: Projection, result: ToolResult, q: Projection, authorized: bool, now: Time)
    requires Ready(start, script, db, id, fence, seen) && Appends(seen, p, result, q)
    requires id in db.runs ==>
      Rewrites(db, next, id, CompleteToolStep(db.runs[id], Actor(db, id), fence, CompletionOf(seen, result, q, authorized), now).0)
    requires id !in db.runs ==> next == db
    ensures OnTrack(start, script + [OnRun(id, CompleteTool(fence, CompletionOf(seen, result, q, authorized)), now)], next, id, fence)
    ensures 0 <= Progress(next, id) <= Progress(db, id)
    ensures id in db.runs ==>
      var input := CompletionOf(seen, result, q, authorized);
      var (after, r) := CompleteToolStep(db.runs[id], Actor(db, id), fence, input, now);
      CompleteToolAnswers(db.runs[id], after, input, q, r)
  {
    hide Disciplined, Progress, WasClaimed, Measure, Consistent, BuildDecisionContext, AppendCompletedToolCall, Apply,
      CompleteToolStep, SameWork, Predicted;
    if id in db.runs {
      var members := MembersOf(db.members, db.runs[id].run.spaceId);
      CompletingWhatWasSeen(db.runs[id], seen, members, fence, p, result, q, authorized, now);
    }
    OwnStaysOnTrack(start, script, db, next, id, fence, CompleteTool(fence, CompletionOf(seen, result, q, authorized)), now);
  }

  // ---------------------------------------------------------------- failStep

  /** Failing the running step leaves the context as it was. */
  lemma FailingKeepsExactness(rows: RunRows, step: StepRecord)
    requires Consistent(rows) && rows.steps != [] && rows.steps[|rows.steps| - 1].status == StepRunning
    requires step.kind == ToolCall && step.status == StepFailed
    ensures FieldsOk(rows.steps) && FieldsOk(rows.steps[|rows.steps| - 1 := step])
    ensures CompletedCalls(rows.steps[|rows.steps| - 1 := step], rows.evidence) == CompletedCalls(rows.steps, rows.evidence)
    ensures HasTerminalTool(rows.steps[|rows.steps| - 1 := step])
  {
    var last := |rows.steps| - 1;
    var front := rows.steps[..last];
    ConsistentFieldsOk(rows);
    hide Consistent, CompletedCalls, CompletedFieldsOk;
    assert FieldsOk(front) by { assert forall i :: 0 <= i < last ==> front[i] == rows.steps[i]; }
    assert rows.steps == front + [rows.steps[last]] && rows.steps[last := step] == front + [step];
    assert FieldsOk(front + [step]);
    RunningStepsMakeNoCall(front, rows.steps[last], rows.evidence);
    RunningStepsMakeNoCall(front, step, rows.evidence);
    assert (front + [step])[last] == step;
  }

  /** Endings carry the code the answer names, no size limit is met, and a failed step spends one unit of the measure. */
  predicate FailStepAnswers(before: RunRows, after: RunRows, input: FailStepInput, r: FailStepResult) {
    match r
    case StepFailedResult(step) =>
      && step.id == input.stepId && step.status == StepFailed && step.errorCode == Some(input.errorCode)
      && step in after.steps && Measure(after) < Measure(before)
    case FailStepStale => after == before
    case FailStepCancelRequested => EndedAs(after, EndCancelled)
    case FailStepDeadlineExceeded => EndedAs(after, EndFailed(WallTimeExceeded))
    case FailStepAccessRevoked => EndedAs(after, EndFailed(SpaceAccessRevoked))
    case FailStepContextLimit => false
  }

  lemma FailingStoresTheSize(rows: RunRows, member: bool, fence: Fence, input: FailStepInput, now: Time)
    requires Consistent(rows) && FieldsOk(rows.steps)
    requires input.contextBytes == ContextBytes(ProjectionOf(rows).context)
    requires FailStep(rows, member, fence, input, now).1.StepFailedResult?
    ensures ContextExact(FailStep(rows, member, fence, input, now).0)
  {
    hide ContextBytes, EvidenceOk, AnswerOk, RunRowOk;
    var (after, result) := FailStep(rows, member, fence, input, now);
    assert RunningTool(rows.steps, input.stepId).value == |rows.steps| - 1;
    FailingKeepsExactness(rows, result.step);
    assert ProjectionOf(after).context == ProjectionOf(rows).context;
  }

  lemma FailedStepIsStored(rows: RunRows, member: bool, fence: Fence, input: FailStepInput, now: Time)
    requires FailStep(rows, member, fence, input, now).1.StepFailedResult?
    ensures var (after, r) := FailStep(rows, member, fence, input, now);
      r.step.id == input.stepId && r.step.status == StepFailed && r.step.errorCode == Some(input.errorCode) && r.step in after.steps
  {
    var (after, r) := FailStep(rows, member, fence, input, now);
    assert after.steps[RunningTool(rows.steps, input.stepId).value] == r.step;
  }

  /** A failed step stored with the size of the projection rebuilt beside it is a disciplined write. */
  lemma FailingIsDisciplined(
      rows: RunRows, seen: RunRows, members: set<UserId>, fence: Fence, p: Projection, input: FailStepInput, now: Time)
    requires Consistent(rows) && seen.run.status == Running
    requires Holds(rows.run, fence) ==> SameWork(seen, rows)
    requires BuildDecisionContext(seen) == Ok(p) && input.contextBytes == p.contextBytes
    ensures Disciplined(rows, members, Fail(fence, input), now)
    ensures var (after, r) := FailStep(rows, IsMember(rows.run, members), fence, input, now);
      after == Apply(rows, members, Fail(fence, input), now) && FailStepAnswers(rows, after, input, r)
  {
    hide ContextExact, Measure, Consistent, ContextBytes, StepOrderOk, EvidenceOrderOk, FieldsOk, CallsOk, CompletedCalls, Later, RunningTool;
    var member := IsMember(rows.run, members);
    FailStepMovesForward(rows, member, fence, input, now);
    if Holds(rows.run, fence) {
      SameWorkSameProjection(seen, rows);
      if FailStep(rows, member, fence, input, now).1.StepFailedResult? {
        FailedStepIsStored(rows, member, fence, input, now);
        FailingStoresTheSize(rows, member, fence, input, now);
      }
    }
  }

  lemma FailStepStaysOnTrack(
      start: Database, script: seq<DbAction>, db: Database, next: Database, id: RunId, fence: Fence, seen: RunRows,
      p: Projection, input: FailStepInput, now: Time)
    requires Ready(start, script, db, id, fence, seen) && seen.run.status == Running
    requires BuildDecisionContext(seen) == Ok(p) && input.contextBytes == p.contextBytes
    requires id in db.runs ==> Rewrites(db, next, id, FailStep(db.runs[id], Actor(db, id), fence, input, now).0)
    requires id !in db.runs ==> next == db
    ensures OnTrack(start, script + [OnRun(id, Fail(fence, input), now)], next, id, fence)
    ensures 0 <= Progress(next, id) <= Progress(db, id)
    ensures id in db.runs ==>
      var (after, r) := FailStep(db.runs[id], Actor(db, id), fence, input, now); FailStepAnswers(db.runs[id], after, input, r)
  {
    hide Disciplined, Progress, WasClaimed, Measure, Consistent, Apply, FailStep, SameWork, BuildDecisionContext;
    if id in db.runs {
      FailingIsDisciplined(db.runs[id], seen, MembersOf(db.members, db.runs[id].run.spaceId), fence, p, input, now);
    }
    OwnStaysOnTrack(start, script, db, next, id, fence, Fail(fence, input), now);
  }

  // ---------------------------------------------------------------- completeRun

  predicate CompleteRunAnswers(before: RunRows, after: RunRows, r: CompleteRunResult) {
    match r
    case RunCompleted => after.run.status == Completed
    case CompleteRunStale => after == before
    case CompleteRunCancelRequested => EndedAs(after, EndCancelled)
    case CompleteRunDeadlineExceeded => EndedAs(after, EndFailed(WallTimeExceeded))
    case CompleteRunAccessRevoked => EndedAs(after, EndFailed(SpaceAccessRevoked))
    case CompleteRunStepLimit => false
    case CompleteRunInvalidEvidence => after == before
    case CompleteRunThrew => after == before
  }

  lemma PublishingParsedAnswers(rows: RunRows, member: bool, fence: Fence, id: StepId, idTaken: bool, result: FinalResult, now: Time)
    requires rows.run.status == Running ==> rows.run.stepCount < rows.run.limits.maxSteps
    ensures var (after, r) := PublishParsed(rows, member, fence, id, idTaken, result, now); CompleteRunAnswers(rows, after, r)
  {
    hide AllCitable, SettleRunning, CiteAll, HasId, HasFinalAnswer, LastRunning;
  }

  lemma PublishingAnswers(rows: RunRows, members: set<UserId>, fence: Fence, input: CompleteRunInput, now: Time)
    requires rows.run.status == Running ==> rows.run.stepCount < rows.run.limits.maxSteps
    ensures Disciplined(rows, members, Publish(fence, input), now)
    ensures var (after, r) := CompleteRun(rows, IsMember(rows.run, members), fence, input, now);
      after == Apply(rows, members, Publish(fence, input), now) && CompleteRunAnswers(rows, after, r)
  {
    hide PublishParsed, ParseFinalResult, Trim;
    var parsed := ParseFinalResult(input.finalResult);
    if parsed.Some? {
      PublishingParsedAnswers(rows, IsMember(rows.run, members), fence, input.finalStepId, input.idTaken, parsed.value, now);
    }
  }

  lemma CompleteRunStaysOnTrack(
      start: Database, script: seq<DbAction>, db: Database, next: Database, id: RunId, fence: Fence, seen: RunRows,
      input: CompleteRunInput, now: Time)
    requires Ready(start, script, db, id, fence, seen)
    requires id in db.runs ==> Rewrites(db, next, id, CompleteRun(db.runs[id], Actor(db, id), fence, input, now).0)
    requires id !in db.runs ==> next == db
    ensures OnTrack(start, script + [OnRun(id, Publish(fence, input), now)], next, id, fence)
    ensures 0 <= Progress(next, id) <= Progress(db, id)
    ensures id in db.runs ==>
      var (after, r) := CompleteRun(db.runs[id], Actor(db, id), fence, input, now); CompleteRunAnswers(db.runs[id], after, r)
  {
    hide Disciplined, Progress, WasClaimed, Measure, Consistent, Apply, CompleteRun, SameWork;
    if id in db.runs {
      PublishingAnswers(db.runs[id], MembersOf(db.members, db.runs[id].run.spaceId), fence, input, now);
    }
    OwnStaysOnTrack(start, script, db, next, id, fence, Publish(fence, input), now);
  }

  // ---------------------------------------------------------------- failRun

  predicate FailRunAnswers(before: RunRows, after: RunRows, input: FailRunInput, r: FailRunResult) {
    match r
    case RunFailed =>
      && EndedAs(after, EndFailed(input.errorCode))
      && (match input.decisionErrorStepId
          case None => |after.steps| == |before.steps|
          case Some(id) =>
            && |after.steps| == |before.steps| + 1
            && var step := after.steps[|before.steps|];
               step.id == id && step.kind == DecisionError && step.errorCode == Some(input.errorCode))
    case FailRunStale => after == before
    case FailRunCancelRequested => EndedAs(after, EndCancelled)
    case FailRunDeadlineExceeded => EndedAs(after, EndFailed(WallTimeExceeded))
    case FailRunAccessRevoked => EndedAs(after, EndFailed(SpaceAccessRevoked))
    case FailRunStepLimit => false
    case FailRunThrew => after == before
  }

  lemma AbandoningAnswers(rows: RunRows, members: set<UserId>, fence: Fence, input: FailRunInput, now: Time)
    requires rows.run.status == Running ==> rows.run.stepCount < rows.run.limits.maxSteps
    ensures Disciplined(rows, members, Abandon(fence, input), now)
    ensures var (after, r) := FailRun(rows, IsMember(rows.run, members), fence, input, now);
      after == Apply(rows, members, Abandon(fence, input), now) && FailRunAnswers(rows, after, input, r)
  {
  }

  lemma FailRunStaysOnTrack(
      start: Database, script: seq<DbAction>, db: Database, next: Database, id: RunId, fence: Fence, seen: RunRows,
      input: FailRunInput, now: Time)
    requires Ready(start, script, db, id, fence, seen)
    requires id in db.runs ==> Rewrites(db, next, id, FailRun(db.runs[id], Actor(db, id), fence, input, now).0)
    requires id !in db.runs ==> next == db
    ensures OnTrack(start, script + [OnRun(id, Abandon(fence, input), now)], next, id, fence)
    ensures 0 <= Progress(next, id) <= Progress(db, id)
    ensures id in db.runs ==>
      var (after, r) := FailRun(db.runs[id], Actor(db, id), fence, input, now); FailRunAnswers(db.runs[id], after, input, r)
  {
    hide Disciplined, Progress, WasClaimed, Measure, Consistent, Apply, FailRun, SameWork;
    if id in db.runs {
      AbandoningAnswers(db.runs[id], MembersOf(db.members, db.runs[id].run.spaceId), fence, input, now);
    }
    OwnStaysOnTrack(start, script, db, next, id, fence, Abandon(fence, input), now);
  }

  // ---------------------------------------------------------------- markCancelled

  predicate MarkCancelledAnswers(before: RunRows, after: RunRows, r: MarkCancelledResult) {
    if r.MarkedCancelled? then EndedAs(after, EndCancelled) else after == before
  }

  lemma MarkCancelledStaysOnTrack(
      start: Database, script: seq<DbAction>, db: Database, next: Database, id: RunId, fence: Fence, seen: RunRows, now: Time)
    requires Ready(start, script, db, id, fence, seen)
    requires id in db.runs ==> Rewrites(db, next, id, MarkCancelled(db.runs[id], fence, now).0)
    requires id !in db.runs ==> next == db
    ensures OnTrack(start, script + [OnRun(id, Settle(fence), now)], next, id, fence)
    ensures 0 <= Progress(next, id) <= Progress(db, id)
    ensures id in db.runs ==>
      var (after, r) := MarkCancelled(db.runs[id], fence, now); MarkCancelledAnswers(db.runs[id], after, r)
  {
    hide Progress, WasClaimed, Measure, Consistent, SameWork, SoundDb;
    OwnStaysOnTrack(start, script, db, next, id, fence, Settle(fence), now);
  }

  // ---------------------------------------------------------------- every write, judged by what its executor knows

  /** The executor may take this write, going by the rows as it last read or wrote them. */
  ghost predicate Licensed(seen: RunRows, fence: Fence, action: RunAction) {
    && FenceOf(action) == Some(fence)
    && match action
       case Reserve(_, input) => LastRunning(seen.steps).None? ==> MayReserve(seen, input.toolName)
       case CompleteTool(_, input) => Finishes(seen, input)
       case Fail(_, input) => seen.run.status == Running && BuildDecisionContext(seen).Ok? && input.contextBytes == BuildDecisionContext(seen).value.contextBytes
       case _ => true
  }

  /** The input stores the running last step together with the context it makes. */
  ghost predicate Finishes(seen: RunRows, input: CompleteToolInput) {
    exists p, result, q :: Appends(seen, p, result, q) && input == CompletionOf(seen, result, q, input.documentsAuthorized)
  }

  lemma ReservingIsLicensed(seen: RunRows, fence: Fence, input: ReserveInput)
    requires LastRunning(seen.steps).None? ==> MayReserve(seen, input.toolName)
    ensures Licensed(seen, fence, Reserve(fence, input))
  {
  }

  lemma CompletingIsLicensed(seen: RunRows, fence: Fence, p: Projection, result: ToolResult, q: Projection, authorized: bool)
    requires Appends(seen, p, result, q)
    ensures Licensed(seen, fence, CompleteTool(fence, CompletionOf(seen, result, q, authorized)))
  {
    hide BuildDecisionContext, AppendCompletedToolCall;
  }

  lemma FailingIsLicensed(seen: RunRows, fence: Fence, p: Projection, input: FailStepInput)
    requires seen.run.status == Running && BuildDecisionContext(seen) == Ok(p) && input.contextBytes == p.contextBytes
    ensures Licensed(seen, fence, Fail(fence, input))
  {
    hide BuildDecisionContext;
  }

  lemma EndingsAreLicensed(seen: RunRows, fence: Fence, action: RunAction)
    requires FenceOf(action) == Some(fence) && (action.Publish? || action.Abandon? || action.Settle?)
    ensures Licensed(seen, fence, action)
  {
  }

  /** A licensed write is disciplined, whatever the rows have become in the meantime. */
  lemma LicensedIsDisciplined(rows: RunRows, seen: RunRows, members: set<UserId>, fence: Fence, action: RunAction, now: Time)
    requires Consistent(rows) && Licensed(seen, fence, action)
    requires Holds(rows.run, fence) ==> SameWork(seen, rows)
    ensures Disciplined(rows, members, action, now)
  {
    hide SameWork, BuildDecisionContext, AppendCompletedToolCall, ReserveStep, CompleteToolStep, FailStep, ContextExact, Holds,
      Disciplined, MayReserve, Consistent;
    ConsistentStepsOk(rows);
    match action
    case Reserve(_, input) => ReservingIsDisciplined(rows, seen, members, fence, input, now);
    case CompleteTool(_, input) =>
      var p, result, q :| Appends(seen, p, result, q) && input == CompletionOf(seen, result, q, input.documentsAuthorized);
      CompletingWhatWasSeen(rows, seen, members, fence, p, result, q, input.documentsAuthorized, now);
    case Fail(_, input) => FailingIsDisciplined(rows, seen, members, fence, BuildDecisionContext(seen).value, input, now);
    case _ => OtherWritesAreDisciplined(rows, members, action, now);
  }

  lemma ConsistentStepsOk(rows: RunRows)
    requires Consistent(rows)
    ensures StepsOk(rows)
  {
  }

  lemma OtherWritesAreDisciplined(rows: RunRows, members: set<UserId>, action: RunAction, now: Time)
    requires !action.Reserve? && !action.CompleteTool? && !action.Fail?
    ensures Disciplined(rows, members, action, now)
  {
  }
}
