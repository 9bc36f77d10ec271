/** Every transaction keeps the rows of a run consistent, whoever calls it and with whatever arguments. */
module AgentInvariant {
  import opened Common
  import opened Utf16
  import opened AgentContracts
  import opened AgentRows
  import opened AgentTransactions

  datatype RunAction =
    | Claim(owner: OwnerId, duration: Duration)
    | Heartbeat(fence: Fence, duration: Duration)
    | Cancel(actor: UserId)
    | Reserve(fence: Fence, reserve: ReserveInput)
    | CompleteTool(fence: Fence, completion: CompleteToolInput)
    | Fail(fence: Fence, failure: FailStepInput)
    | Publish(fence: Fence, answer: CompleteRunInput)
    | Abandon(fence: Fence, reason: FailRunInput)
    | Settle(fence: Fence)
    | ForgetUser(user: UserId)

  /** The actor the run acts for is still a member of the run's space. */
  predicate IsMember(run: RunRecord, members: set<UserId>) {
    run.actorUserId.Some? && run.actorUserId.value in members
  }

  function ForgetUserIn(run: RunRecord, user: UserId): RunRecord {
    run.(actorUserId := if run.actorUserId == Some(user) then None else run.actorUserId,
         cancelRequestedBy := if run.cancelRequestedBy == Some(user) then None else run.cancelRequestedBy)
  }

  /** The rows after one transaction. */
  function Apply(rows: RunRows, members: set<UserId>, action: RunAction, now: Time): RunRows {
    var member := IsMember(rows.run, members);
    match action
    case Claim(owner, duration) => if Claimable(rows.run, now) then ClaimCandidate(rows, member, owner, duration, now) else rows
    case Heartbeat(fence, duration) => HeartbeatLease(rows, member, fence, duration, now).0
    case Cancel(actor) => CancelRun(rows, actor in members, actor, now).0
    case Reserve(fence, input) => ReserveStep(rows, member, fence, input, now).0
    case CompleteTool(fence, input) => CompleteToolStep(rows, member, fence, input, now).0
    case Fail(fence, input) => FailStep(rows, member, fence, input, now).0
    case Publish(fence, input) => CompleteRun(rows, member, fence, input, now).0
    case Abandon(fence, input) => FailRun(rows, member, fence, input, now).0
    case Settle(fence) => MarkCancelled(rows, fence, now).0
    case ForgetUser(user) => rows.(run := ForgetUserIn(rows.run, user))
  }

  // ---------------------------------------------------------------- counting and settling

  lemma {:induction false} SameKindsSameCount(a: seq<StepRecord>, b: seq<StepRecord>)
    requires |a| == |b| && forall i :: 0 <= i < |a| ==> a[i].kind == b[i].kind
    ensures CountTools(a) == CountTools(b)
  {
    if a != [] {
      SameKindsSameCount(a[..|a| - 1], b[..|b| - 1]);
    }
  }

  lemma CountOfAppend(a: seq<StepRecord>, s: StepRecord)
    ensures CountTools(a + [s]) == CountTools(a) + if IsTool(s) then 1 else 0
  {
    assert (a + [s])[..|a|] == a;
  }

  lemma SettlingKeepsCompletedTools(steps: seq<StepRecord>, ending: Ending, now: Time)
    ensures forall id :: FromCompletedTool(steps, id) ==> FromCompletedTool(SettleRunning(steps, ending, now), id)
  {
    var settled := SettleRunning(steps, ending, now);
    forall id | FromCompletedTool(steps, id)
      ensures FromCompletedTool(settled, id)
    {
      var i :| 0 <= i < |steps| && steps[i].id == id && steps[i].kind == ToolCall && steps[i].status == StepCompleted;
      assert settled[i] == steps[i];
    }
  }

  lemma SettledRowOk(s: StepRecord, ending: Ending, now: Time)
    requires StepRowOk(s)
    ensures StepRowOk(SettleStep(s, ending, now)) && SettleStep(s, ending, now).observation == s.observation
  {
  }

  lemma SettlingKeepsStepsOk(rows: RunRows, ending: Ending, now: Time)
    requires StepsOk(rows) && rows.run.status in {Queued, Running}
    ensures StepsOk(EndRun(rows, ending, now))
  {
    hide StepRowOk;
    SameKindsSameCount(rows.steps, SettleRunning(rows.steps, ending, now));
    forall i | 0 <= i < |rows.steps|
      ensures StepRowOk(SettleStep(rows.steps[i], ending, now)) && SettleStep(rows.steps[i], ending, now).observation == rows.steps[i].observation
    {
      SettledRowOk(rows.steps[i], ending, now);
    }
  }

  lemma EndingKeepsConsistent(rows: RunRows, ending: Ending, now: Time)
    requires RunRowOk(EndRunRow(rows.run, ending, now))
    requires StepsOk(rows) && EvidenceOk(rows) && AnswerOk(rows)
    requires rows.run.status in {Queued, Running} && rows.run.finalAnswer.None?
    ensures Consistent(EndRun(rows, ending, now))
  {
    hide RunRowOk, StepsOk, FromCompletedTool, SettleRunning;
    SettlingKeepsStepsOk(rows, ending, now);
    SettlingKeepsCompletedTools(rows.steps, ending, now);
  }

  /** Appending one well-shaped row to settled steps keeps the step table in order. */
  lemma AppendingKeepsStepsOk(rows: RunRows, run: RunRecord, step: StepRecord, evidence: seq<EvidenceRecord>)
    requires StepsOk(rows) && LastRunning(rows.steps).None? && forall i :: 0 <= i < |rows.steps| ==> rows.steps[i].kind == ToolCall
    requires StepRowOk(step) && step.sequence == |rows.steps| + 1 && !HasId(rows.steps, step.id)
    requires run.stepCount == rows.run.stepCount + 1
    requires run.toolCallCount == rows.run.toolCallCount + if IsTool(step) then 1 else 0
    requires step.kind == ToolCall ==> run.status == Running
    requires step.kind == FinalAnswer <==> run.status == Completed
    requires step.kind == DecisionError ==> run.status == Failed
    requires run.status != Queued && run.limits == rows.run.limits && step.observation.None?
    ensures StepsOk(RunRows(run, rows.steps + [step], evidence))
  {
    CountOfAppend(rows.steps, step);
    var after := rows.steps + [step];
    forall i, j | 0 <= i < j < |after|
      ensures after[i].id != after[j].id
    {
      assert after[i] == rows.steps[i];
    }
  }

  /** Rewriting the running tool step in place keeps the step table in order. */
  lemma ReplacingKeepsStepsOk(rows: RunRows, run: RunRecord, i: nat, step: StepRecord, evidence: seq<EvidenceRecord>)
    requires StepsOk(rows) && rows.run.status == Running && i < |rows.steps| && rows.steps[i].status == StepRunning
    requires StepRowOk(step) && step.sequence == rows.steps[i].sequence && step.id == rows.steps[i].id && step.kind == ToolCall
    requires rows.steps[i].kind == ToolCall
    requires run.status == Running && run.stepCount == rows.run.stepCount && run.toolCallCount == rows.run.toolCallCount
    requires run.limits == rows.run.limits && (step.observation.Some? ==> step.observation.value.bytes <= run.limits.observationMaxBytes)
    ensures StepsOk(RunRows(run, rows.steps[i := step], evidence))
  {
    SameKindsSameCount(rows.steps, rows.steps[i := step]);
  }

  // ---------------------------------------------------------------- one lemma per transaction

  lemma TimingKeepsWork(rows: RunRows, now: Time)
    requires StepsOk(rows) && EvidenceOk(rows) && AnswerOk(rows)
    ensures var timed := rows.(run := WithTiming(rows.run, now)); StepsOk(timed) && EvidenceOk(timed) && AnswerOk(timed)
  {
  }

  lemma HandedOutIsConsistent(rows: RunRows, member: bool, owner: OwnerId, duration: Duration, now: Time)
    requires Consistent(rows) && Claimable(rows.run, now) && ClaimEnding(rows.run, member, now).None?
    ensures Consistent(ClaimCandidate(rows, member, owner, duration, now))
  {
  }

  lemma ClaimKeepsConsistent(rows: RunRows, member: bool, owner: OwnerId, duration: Duration, now: Time)
    requires Consistent(rows) && Claimable(rows.run, now)
    ensures Consistent(ClaimCandidate(rows, member, owner, duration, now))
  {
    hide StepsOk, EvidenceOk, AnswerOk, SettleRunning;
    var timed := rows.(run := WithTiming(rows.run, now));
    TimingKeepsWork(rows, now);
    match ClaimEnding(rows.run, member, now)
    case Some(ending) => EndingKeepsConsistent(timed, ending, now);
    case None => HandedOutIsConsistent(rows, member, owner, duration, now);
  }

  /** Whatever the opening checks end stays consistent. */
  lemma GateKeepsConsistent(rows: RunRows, member: bool, fence: Fence, now: Time)
    requires Consistent(rows) && EndingGate(rows.run, member, fence, now).Ends?
    ensures Consistent(EndRun(rows, EndingGate(rows.run, member, fence, now).ending, now))
  {
    EndingKeepsConsistent(rows, EndingGate(rows.run, member, fence, now).ending, now);
  }

  lemma HeartbeatKeepsConsistent(rows: RunRows, member: bool, fence: Fence, duration: Duration, now: Time)
    requires Consistent(rows)
    ensures Consistent(HeartbeatLease(rows, member, fence, duration, now).0)
  {
    if EndingGate(rows.run, member, fence, now).Ends? {
      GateKeepsConsistent(rows, member, fence, now);
    }
  }

  lemma AnswerOfTheSameEvidence(rows: RunRows, after: RunRows)
    requires after.evidence == rows.evidence && after.run.status == rows.run.status
    requires after.run.finalAnswer == rows.run.finalAnswer && after.run.finalStatus == rows.run.finalStatus
    ensures AnswerOk(rows) ==> AnswerOk(after)
  {
  }

  lemma ReserveAllowedKeepsConsistent(rows: RunRows, input: ReserveInput, now: Time)
    requires Consistent(rows) && rows.run.status == Running
    ensures Consistent(ReserveAllowed(rows, input, now).0)
  {
    hide CountTools, FromCompletedTool, AnswerOk;
    AnswerOfTheSameEvidence(rows, ReserveAllowed(rows, input, now).0);
    var (after, result) := ReserveAllowed(rows, input, now);
    match result
    case Resumed(step) =>
      ReplacingKeepsStepsOk(rows, after.run, LastRunning(rows.steps).value, step, after.evidence);
      ReplacingKeepsCompletedTools(rows.steps, LastRunning(rows.steps).value, step);
    case Reserved(step) =>
      AppendingKeepsStepsOk(rows, after.run, step, after.evidence);
      AppendingKeepsCompletedTools(rows.steps, step);
    case _ =>
  }

  lemma ReserveKeepsConsistent(rows: RunRows, member: bool, fence: Fence, input: ReserveInput, now: Time)
    requires Consistent(rows)
    ensures Consistent(ReserveStep(rows, member, fence, input, now).0)
  {
    if Holds(rows.run, fence) {
      if ClassifyWorkerWrite(rows.run, member, now) == Allowed {
        ReserveAllowedKeepsConsistent(rows, input, now);
      } else if rows.run.cancelRequestedAt.None? {
        EndingKeepsConsistent(rows, EndFailed(RefusalCode(member)), now);
      }
    }
  }

  lemma ReplacingKeepsCompletedTools(steps: seq<StepRecord>, i: nat, step: StepRecord)
    requires i < |steps| && steps[i].status == StepRunning && step.id == steps[i].id
    ensures forall id :: FromCompletedTool(steps, id) ==> FromCompletedTool(steps[i := step], id)
  {
    forall id | FromCompletedTool(steps, id)
      ensures FromCompletedTool(steps[i := step], id)
    {
      var j :| 0 <= j < |steps| && steps[j].id == id && steps[j].kind == ToolCall && steps[j].status == StepCompleted;
      assert steps[i := step][j] == steps[j];
    }
  }

  lemma AppendingKeepsCompletedTools(steps: seq<StepRecord>, step: StepRecord)
    ensures forall id :: FromCompletedTool(steps, id) ==> FromCompletedTool(steps + [step], id)
  {
    forall id | FromCompletedTool(steps, id)
      ensures FromCompletedTool(steps + [step], id)
    {
      var j :| 0 <= j < |steps| && steps[j].id == id && steps[j].kind == ToolCall && steps[j].status == StepCompleted;
      assert (steps + [step])[j] == steps[j];
    }
  }

  lemma CompleteToolKeepsConsistent(rows: RunRows, member: bool, fence: Fence, input: CompleteToolInput, now: Time)
    requires Consistent(rows)
    ensures Consistent(CompleteToolStep(rows, member, fence, input, now).0)
  {
    var (after, result) := CompleteToolStep(rows, member, fence, input, now);
    match result
    case ToolStepCompleted(step, added) =>
      var i := RunningTool(rows.steps, input.stepId).value;
      ReplacingKeepsStepsOk(rows, after.run, i, step, after.evidence);
      ReplacingKeepsCompletedTools(rows.steps, i, step);
      assert after.steps[i] == step;
      assert FromCompletedTool(after.steps, step.id);
    case _ =>
  }

  lemma FailStepKeepsConsistent(rows: RunRows, member: bool, fence: Fence, input: FailStepInput, now: Time)
    requires Consistent(rows)
    ensures Consistent(FailStep(rows, member, fence, input, now).0)
  {
    if EndingGate(rows.run, member, fence, now).Ends? {
      GateKeepsConsistent(rows, member, fence, now);
    } else {
      var (after, result) := FailStep(rows, member, fence, input, now);
      if result.StepFailedResult? {
        var i := RunningTool(rows.steps, input.stepId).value;
        ReplacingKeepsStepsOk(rows, after.run, i, result.step, after.evidence);
        ReplacingKeepsCompletedTools(rows.steps, i, result.step);
      }
    }
  }

  /** Numbering the cited rows makes the ordinals spell the identifiers back. */
  lemma CitingSpellsTheIds(rows: RunRows, ids: seq<Text>)
    requires NoDuplicates(ids) && AllCitable(rows, ids)
    ensures Cites(CiteAll(rows.evidence, ids), ids)
  {
    var cited := CiteAll(rows.evidence, ids);
    forall k | 0 <= k < |ids|
      ensures HasOrdinal(cited, ids[k], k + 1)
    {
      assert Citable(rows, ids[k]);
      var i :| 0 <= i < |rows.evidence| && rows.evidence[i].key == ids[k];
      assert cited[i] == Cite(rows.evidence[i], ids);
    }
  }

  /** What parsing guarantees about a stored answer. */
  predicate Storable(result: FinalResult) {
    && ParseFinalResult(result) == Some(result)
    && 1 <= |result.answer| <= AGENT_FINAL_ANSWER_MAX_CHARACTERS
    && result.evidenceIds == UniqueInOrder(EvidenceMarkers(result.answer))
  }

  lemma ParsedResultsAreStorable(raw: FinalResult)
    requires ParseFinalResult(raw).Some?
    ensures Storable(ParseFinalResult(raw).value)
  {
    AcceptedIdsAreTheMarkers(raw);
    ParsedResultsStayParsed(raw);
  }

  lemma PublishedStepsAndEvidence(rows: RunRows, id: StepId, result: FinalResult, now: Time)
    requires StepsOk(rows) && EvidenceOk(rows) && rows.run.status == Running
    requires LastRunning(rows.steps).None? && !HasId(rows.steps, id)
    ensures StepsOk(Published(rows, id, result, now)) && EvidenceOk(Published(rows, id, result, now))
  {
    var after := Published(rows, id, result, now);
    var step := FinalStep(id, rows.run.stepCount + 1, now);
    AppendingKeepsStepsOk(rows, after.run, step, after.evidence);
    AppendingKeepsCompletedTools(rows.steps, step);
  }

  lemma PublishedIsConsistent(rows: RunRows, id: StepId, result: FinalResult, now: Time)
    requires Consistent(rows) && rows.run.status == Running && rows.run.cancelRequestedAt.None?
    requires rows.run.stepCount < rows.run.limits.maxSteps && LastRunning(rows.steps).None? && !HasId(rows.steps, id)
    requires Storable(result) && TextFits(result.answer) && AllCitable(rows, result.evidenceIds)
    ensures Consistent(Published(rows, id, result, now))
  {
    var after := Published(rows, id, result, now);
    PublishedStepsAndEvidence(rows, id, result, now);
    CitingSpellsTheIds(rows, result.evidenceIds);
    assert CitedIds(after.run) == result.evidenceIds;
    assert FinalResult(after.run.finalStatus.value, after.run.finalAnswer.value, CitedIds(after.run)) == result;
  }

  lemma PublishKeepsConsistent(rows: RunRows, member: bool, fence: Fence, id: StepId, idTaken: bool, result: FinalResult, now: Time)
    requires Consistent(rows) && Storable(result)
    ensures Consistent(PublishParsed(rows, member, fence, id, idTaken, result, now).0)
  {
    if EndingGate(rows.run, member, fence, now).Ends? {
      GateKeepsConsistent(rows, member, fence, now);
    } else if PublishParsed(rows, member, fence, id, idTaken, result, now).1.RunCompleted? {
      PublishedIsConsistent(rows, id, result, now);
    }
  }

  lemma EndedStepsAreSettled(rows: RunRows)
    requires StepsOk(rows) && rows.run.status != Running
    ensures LastRunning(rows.steps).None? && |rows.steps| == rows.run.stepCount
  {
  }

  lemma DecisionErrorKeepsConsistent(ended: RunRows, id: StepId, code: ErrorCode, now: Time)
    requires Consistent(ended) && ended.run.status == Failed && ended.run.stepCount < ended.run.limits.maxSteps
    requires forall i :: 0 <= i < |ended.steps| ==> ended.steps[i].kind == ToolCall
    requires !HasId(ended.steps, id)
    ensures Consistent(WithDecisionError(ended, id, code, now))
  {
    hide StepsOk, FromCompletedTool;
    var after, step := WithDecisionError(ended, id, code, now), DecisionErrorStep(id, ended.run.stepCount + 1, code, now);
    EndedStepsAreSettled(ended);
    AppendingKeepsStepsOk(ended, after.run, step, ended.evidence);
    AppendingKeepsCompletedTools(ended.steps, step);
  }

  lemma AbandonKeepsConsistent(rows: RunRows, member: bool, fence: Fence, input: FailRunInput, now: Time)
    requires Consistent(rows)
    ensures Consistent(FailRun(rows, member, fence, input, now).0)
  {
    hide EvidenceOk, AnswerOk, WithDecisionError;
    if EndingGate(rows.run, member, fence, now).Ends? {
      GateKeepsConsistent(rows, member, fence, now);
    } else if EndingGate(rows.run, member, fence, now).Open? {
      var ended := EndRun(rows, EndFailed(input.errorCode), now);
      EndingKeepsConsistent(rows, EndFailed(input.errorCode), now);
      if FailRun(rows, member, fence, input, now).1.RunFailed? && input.decisionErrorStepId.Some? {
        assert !HasId(ended.steps, input.decisionErrorStepId.value);
        DecisionErrorKeepsConsistent(ended, input.decisionErrorStepId.value, input.errorCode, now);
      }
    }
  }

  lemma CancelKeepsConsistent(rows: RunRows, actorIsMember: bool, actor: UserId, now: Time)
    requires Consistent(rows)
    ensures Consistent(CancelRun(rows, actorIsMember, actor, now).0)
  {
  }

  lemma SettleKeepsConsistent(rows: RunRows, fence: Fence, now: Time)
    requires Consistent(rows)
    ensures Consistent(MarkCancelled(rows, fence, now).0)
  {
    if Holds(rows.run, fence) && rows.run.cancelRequestedAt.Some? {
      EndingKeepsConsistent(rows, EndCancelled, now);
    }
  }

  lemma ForgettingKeepsConsistent(rows: RunRows, user: UserId)
    requires Consistent(rows)
    ensures Consistent(rows.(run := ForgetUserIn(rows.run, user)))
  {
    assert CitedIds(ForgetUserIn(rows.run, user)) == CitedIds(rows.run);
  }

  /** The durable invariant survives any transaction by any caller. */
  lemma TransactionsKeepConsistent(rows: RunRows, members: set<UserId>, action: RunAction, now: Time)
    requires Consistent(rows)
    ensures Consistent(Apply(rows, members, action, now))
  {
    hide Consistent, ClaimCandidate, HeartbeatLease, CancelRun, ReserveStep, CompleteToolStep, FailStep, PublishParsed, FailRun,
      MarkCancelled, ParseFinalResult, ForgetUserIn, Storable;
    var member := IsMember(rows.run, members);
    match action
    case Claim(owner, duration) =>
      if Claimable(rows.run, now) { ClaimKeepsConsistent(rows, member, owner, duration, now); }
    case Heartbeat(fence, duration) => HeartbeatKeepsConsistent(rows, member, fence, duration, now);
    case Cancel(actor) => CancelKeepsConsistent(rows, actor in members, actor, now);
    case Reserve(fence, input) => ReserveKeepsConsistent(rows, member, fence, input, now);
    case CompleteTool(fence, input) => CompleteToolKeepsConsistent(rows, member, fence, input, now);
    case Fail(fence, input) => FailStepKeepsConsistent(rows, member, fence, input, now);
    case Publish(fence, input) =>
      if ParseFinalResult(input.finalResult).Some? {
        ParsedResultsAreStorable(input.finalResult);
        PublishKeepsConsistent(rows, member, fence, input.finalStepId, input.idTaken, ParseFinalResult(input.finalResult).value, now);
      }
    case Abandon(fence, input) => AbandonKeepsConsistent(rows, member, fence, input, now);
    case Settle(fence) => SettleKeepsConsistent(rows, fence, now);
    case ForgetUser(user) => ForgettingKeepsConsistent(rows, user);
  }
}
