/** What executors add to the repository's own checks: exact byte counts, allowed tools, and room for an answer. */
module AgentDiscipline {
  import opened Common
  import opened AgentContracts
  import opened AgentState
  import opened AgentRows
  import opened AgentTransactions
  import opened AgentInvariant
  import opened ExecutionContext
  import opened ContextRoundTrip

  predicate ToolsAllowed(rows: RunRows) {
    forall i :: 0 <= i < |rows.steps| && rows.steps[i].toolName.Some? ==> rows.steps[i].toolName.value in rows.run.toolNames
  }

  /** An unfinished run has room for its answer and an exact byte count. */
  predicate Sound(rows: RunRows) {
    && Consistent(rows)
    && ToolsAllowed(rows)
    && (!IsTerminal(rows.run.status) ==> rows.run.stepCount < rows.run.limits.maxSteps && ContextExact(rows))
  }

  /**
   * A write by an executor that follows the protocol: new steps use an allowed tool and leave room for the
   * answer, and finished steps store the size of the context they leave behind. The repository checks none of it.
   */
  predicate Disciplined(rows: RunRows, members: set<UserId>, action: RunAction, now: Time) {
    var member := IsMember(rows.run, members);
    match action
    case Reserve(fence, input) =>
      ReserveStep(rows, member, fence, input, now).1.Reserved? ==>
        input.toolName in rows.run.toolNames && rows.run.stepCount + 1 < rows.run.limits.maxSteps
    case CompleteTool(fence, input) =>
      var (after, result) := CompleteToolStep(rows, member, fence, input, now);
      result.ToolStepCompleted? ==> ContextExact(after)
    case Fail(fence, input) =>
      var (after, result) := FailStep(rows, member, fence, input, now);
      result.StepFailedResult? ==> ContextExact(after)
    case _ => true
  }

  // ---------------------------------------------------------------- the discipline is kept

  lemma SameWorkSameContext(a: RunRows, b: RunRows)
    requires ContextExact(a)
    requires b.steps == a.steps && b.evidence == a.evidence && b.run.prompt == a.run.prompt && b.run.contextBytes == a.run.contextBytes
    ensures ContextExact(b)
  {
  }

  /** A step in progress is invisible in the context. */
  lemma RunningStepIsInvisible(run: RunRecord, front: seq<StepRecord>, step: StepRecord, evidence: seq<EvidenceRecord>)
    requires FieldsOk(front) && step.status == StepRunning
    ensures ContextExact(RunRows(run, front + [step], evidence)) <==> ContextExact(RunRows(run, front, evidence))
  {
    RunningStepsMakeNoCall(front, step, evidence);
    RunningLastStepSameTerminals(front, step);
  }

  lemma RunningLastStepSameTerminals(front: seq<StepRecord>, step: StepRecord)
    requires step.status == StepRunning
    ensures HasTerminalTool(front + [step]) == HasTerminalTool(front)
  {
    if HasTerminalTool(front) {
      var i :| 0 <= i < |front| && front[i].kind == ToolCall && front[i].status != StepRunning;
      assert (front + [step])[i] == front[i];
    }
  }

  lemma ResumingKeepsExactness(rows: RunRows, i: nat, step: StepRecord)
    requires StepsOk(rows) && ContextExact(rows)
    requires i < |rows.steps| && rows.steps[i].status == StepRunning && step.status == StepRunning
    ensures ContextExact(WithStep(rows, i, step))
  {
    var front := rows.steps[..i];
    assert rows.steps == front + [rows.steps[i]] && rows.steps[i := step] == front + [step];
    assert FieldsOk(front) by { assert forall k :: 0 <= k < i ==> front[k] == rows.steps[k]; }
    RunningStepIsInvisible(rows.run, front, rows.steps[i], rows.evidence);
    RunningStepIsInvisible(rows.run, front, step, rows.evidence);
    assert RunRows(rows.run, rows.steps, rows.evidence) == rows;
  }

  lemma ReservingKeepsExactness(rows: RunRows, step: StepRecord)
    requires ContextExact(rows) && step.status == StepRunning
    ensures ContextExact(WithNewTool(rows, step))
  {
    var after := WithNewTool(rows, step);
    SameWorkSameContext(rows, rows.(run := after.run));
    RunningStepIsInvisible(after.run, rows.steps, step, rows.evidence);
  }

  /** Old steps keep their tools, and new steps have none or an allowed one. */
  predicate ToolsKept(rows: RunRows, after: RunRows) {
    && after.run.toolNames == rows.run.toolNames
    && |rows.steps| <= |after.steps|
    && (forall i :: 0 <= i < |rows.steps| ==> after.steps[i].toolName == rows.steps[i].toolName)
    && (forall i :: |rows.steps| <= i < |after.steps| && after.steps[i].toolName.Some? ==>
          after.steps[i].toolName.value in rows.run.toolNames)
  }

  lemma KeptToolsAreAllowed(rows: RunRows, after: RunRows)
    requires ToolsAllowed(rows) && ToolsKept(rows, after)
    ensures ToolsAllowed(after)
  {
    forall i | 0 <= i < |after.steps| && after.steps[i].toolName.Some?
      ensures after.steps[i].toolName.value in after.run.toolNames
    {
      if i < |rows.steps| {
        assert after.steps[i].toolName == rows.steps[i].toolName;
      }
    }
  }

  /** The rows ended, or their lease and cancellation columns changed, and nothing else. */
  predicate EndedOrSameWork(rows: RunRows, after: RunRows) {
    && ToolsKept(rows, after)
    && (|| IsTerminal(after.run.status)
        || (&& !IsTerminal(rows.run.status)
            && after.steps == rows.steps && after.evidence == rows.evidence && after.run.prompt == rows.run.prompt
            && after.run.contextBytes == rows.run.contextBytes && after.run.stepCount == rows.run.stepCount
            && after.run.limits == rows.run.limits))
  }

  lemma EndedOrSameWorkKeepsSound(rows: RunRows, after: RunRows)
    requires Sound(rows) && Consistent(after) && EndedOrSameWork(rows, after)
    ensures Sound(after)
  {
    KeptToolsAreAllowed(rows, after);
    if !IsTerminal(after.run.status) {
      SameWorkSameContext(rows, after);
    }
  }

  lemma SameRowsSameWork(rows: RunRows)
    ensures EndedOrSameWork(rows, rows)
  {
  }

  lemma EndingEnds(rows: RunRows, ending: Ending, now: Time)
    ensures EndedOrSameWork(rows, EndRun(rows, ending, now))
  {
  }

  lemma LeaseActionsEndOrSameWork(rows: RunRows, members: set<UserId>, action: RunAction, now: Time)
    requires action.Claim? || action.Heartbeat? || action.Cancel? || action.ForgetUser? || action.Settle?
    ensures EndedOrSameWork(rows, Apply(rows, members, action, now))
  {
    match action
    case Claim(owner, duration) =>
      if Claimable(rows.run, now) && ClaimEnding(rows.run, IsMember(rows.run, members), now).Some? {
        EndingEnds(rows.(run := WithTiming(rows.run, now)), ClaimEnding(rows.run, IsMember(rows.run, members), now).value, now);
      }
    case Heartbeat(fence, duration) =>
    case Cancel(actor) =>
    case Settle(fence) =>
    case ForgetUser(user) =>
  }

  lemma PublishEndsOrSameWork(rows: RunRows, member: bool, fence: Fence, id: StepId, idTaken: bool, result: FinalResult, now: Time)
    ensures EndedOrSameWork(rows, PublishParsed(rows, member, fence, id, idTaken, result, now).0)
  {
    if EndingGate(rows.run, member, fence, now).Ends? {
      EndingEnds(rows, EndingGate(rows.run, member, fence, now).ending, now);
    }
  }

  lemma AbandonEndsOrSameWork(rows: RunRows, member: bool, fence: Fence, input: FailRunInput, now: Time)
    ensures EndedOrSameWork(rows, FailRun(rows, member, fence, input, now).0)
  {
    if EndingGate(rows.run, member, fence, now).Ends? {
      EndingEnds(rows, EndingGate(rows.run, member, fence, now).ending, now);
    } else {
      EndingEnds(rows, EndFailed(input.errorCode), now);
    }
  }

  lemma CompleteToolKeepsTools(rows: RunRows, member: bool, fence: Fence, input: CompleteToolInput, now: Time)
    ensures var (after, result) := CompleteToolStep(rows, member, fence, input, now);
      ToolsKept(rows, after) && after.run.stepCount == rows.run.stepCount && after.run.limits == rows.run.limits
      && after.run.status == rows.run.status && (!result.ToolStepCompleted? ==> after == rows)
  {
  }

  lemma FailStepKeepsTools(rows: RunRows, member: bool, fence: Fence, input: FailStepInput, now: Time)
    ensures var (after, result) := FailStep(rows, member, fence, input, now);
      ToolsKept(rows, after) && after.run.stepCount == rows.run.stepCount && after.run.limits == rows.run.limits
      && (!result.StepFailedResult? ==> EndedOrSameWork(rows, after))
      && (result.StepFailedResult? ==> after.run.status == rows.run.status)
  {
    if EndingGate(rows.run, member, fence, now).Ends? {
      EndingEnds(rows, EndingGate(rows.run, member, fence, now).ending, now);
    }
  }

  lemma ResumedKeepsSound(rows: RunRows, i: nat, step: StepRecord)
    requires Sound(rows) && rows.run.status == Running && i < |rows.steps| && rows.steps[i].status == StepRunning
    requires step.status == StepRunning && step.toolName == rows.steps[i].toolName
    requires Consistent(WithStep(rows, i, step))
    ensures Sound(WithStep(rows, i, step))
  {
    KeptToolsAreAllowed(rows, WithStep(rows, i, step));
    ResumingKeepsExactness(rows, i, step);
  }

  lemma ReservedKeepsSound(rows: RunRows, step: StepRecord)
    requires Sound(rows) && rows.run.status == Running && rows.run.stepCount + 1 < rows.run.limits.maxSteps
    requires step.status == StepRunning && step.toolName.Some? && step.toolName.value in rows.run.toolNames
    requires Consistent(WithNewTool(rows, step))
    ensures Sound(WithNewTool(rows, step))
  {
    KeptToolsAreAllowed(rows, WithNewTool(rows, step));
    ReservingKeepsExactness(rows, step);
  }

  lemma ReserveAllowedKeepsSound(rows: RunRows, input: ReserveInput, now: Time)
    requires Sound(rows) && rows.run.status == Running && Consistent(ReserveAllowed(rows, input, now).0)
    requires ReserveAllowed(rows, input, now).1.Reserved? ==>
      input.toolName in rows.run.toolNames && rows.run.stepCount + 1 < rows.run.limits.maxSteps
    ensures Sound(ReserveAllowed(rows, input, now).0)
  {
    hide Consistent, ContextExact, ToolsAllowed, HasId;
    var (after, result) := ReserveAllowed(rows, input, now);
    if result.Resumed? {
      var i := LastRunning(rows.steps).value;
      assert after == WithStep(rows, i, result.step);
      ResumedKeepsSound(rows, i, result.step);
    } else if result.Reserved? {
      assert after == WithNewTool(rows, result.step);
      ReservedKeepsSound(rows, result.step);
    } else {
      assert after == rows;
    }
  }

  lemma ReserveKeepsSound(rows: RunRows, member: bool, fence: Fence, input: ReserveInput, now: Time)
    requires Sound(rows)
    requires ReserveStep(rows, member, fence, input, now).1.Reserved? ==>
      input.toolName in rows.run.toolNames && rows.run.stepCount + 1 < rows.run.limits.maxSteps
    requires Consistent(ReserveStep(rows, member, fence, input, now).0)
    ensures Sound(ReserveStep(rows, member, fence, input, now).0)
  {
    if Holds(rows.run, fence) {
      if ClassifyWorkerWrite(rows.run, member, now) != Allowed {
        var after := EndRun(rows, EndFailed(RefusalCode(member)), now);
        EndingEnds(rows, EndFailed(RefusalCode(member)), now);
        if Consistent(after) {
          EndedOrSameWorkKeepsSound(rows, after);
        }
      } else if !LeaseExpired(rows.run, now) {
        ReserveAllowedKeepsSound(rows, input, now);
      }
    }
  }

  /** Disciplined transactions keep a sound run sound. */
  lemma DisciplineKeepsSound(rows: RunRows, members: set<UserId>, action: RunAction, now: Time)
    requires Sound(rows) && Disciplined(rows, members, action, now)
    ensures Sound(Apply(rows, members, action, now))
  {
    hide Consistent, ContextExact, ClaimCandidate, HeartbeatLease, CancelRun, ReserveStep, CompleteToolStep, FailStep, PublishParsed, FailRun,
      MarkCancelled, ParseFinalResult, EndedOrSameWork, ToolsKept, ToolsAllowed;
    TransactionsKeepConsistent(rows, members, action, now);
    var member, after := IsMember(rows.run, members), Apply(rows, members, action, now);
    match action
    case Reserve(fence, input) => ReserveKeepsSound(rows, member, fence, input, now);
    case CompleteTool(fence, input) =>
      CompleteToolKeepsTools(rows, member, fence, input, now);
      KeptToolsAreAllowed(rows, after);
    case Fail(fence, input) =>
      FailStepKeepsTools(rows, member, fence, input, now);
      KeptToolsAreAllowed(rows, after);
      if EndedOrSameWork(rows, after) { EndedOrSameWorkKeepsSound(rows, after); }
    case Publish(fence, input) =>
      if ParseFinalResult(input.finalResult).Some? {
        PublishEndsOrSameWork(rows, member, fence, input.finalStepId, input.idTaken, ParseFinalResult(input.finalResult).value, now);
      } else {
        SameRowsSameWork(rows);
      }
      EndedOrSameWorkKeepsSound(rows, after);
    case Abandon(fence, input) =>
      AbandonEndsOrSameWork(rows, member, fence, input, now);
      EndedOrSameWorkKeepsSound(rows, after);
    case _ =>
      LeaseActionsEndOrSameWork(rows, members, action, now);
      EndedOrSameWorkKeepsSound(rows, after);
  }

  /**
   * Rebuilding the context of a sound running run never reports corruption: it fails only when the prompt alone
   * is over the limit before any tool call has ended.
   */
  lemma SoundRowsProject(rows: RunRows)
    requires Sound(rows) && rows.run.status == Running
    ensures var r := BuildDecisionContext(rows);
      && (r.Ok? || r == Err(ContextLimit))
      && (r.Ok? <==> HasTerminalTool(rows.steps) || ContextBytes(ProjectionOf(rows).context) <= rows.run.limits.contextMaxBytes)
  {
    ProjectionIsNeverCorrupt(rows);
  }
}
