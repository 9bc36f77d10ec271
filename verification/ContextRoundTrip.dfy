/** Extending a projection and rebuilding it from the stored rows agree, and stored rows are never rejected as corrupt. */
module ContextRoundTrip {
  import opened Common
  import opened Utf16
  import opened AgentContracts
  import opened AgentRows
  import opened AgentTransactions
  import opened ExecutionContext

  predicate KeysInOrder(evidence: seq<EvidenceRecord>) {
    forall i :: 0 <= i < |evidence| ==> evidence[i].key == EvidenceKey(i + 1)
  }

  lemma {:induction false} KeysOfAreDistinct(evidence: seq<EvidenceRecord>, id: StepId)
    requires KeysInOrder(evidence)
    ensures NoDuplicates(KeysOf(evidence, id))
  {
    if evidence != [] {
      var front, last := evidence[..|evidence| - 1], evidence[|evidence| - 1];
      KeysOfAreDistinct(front, id);
      if last.key in KeysOf(front, id) {
        var i :| 0 <= i < |front| && front[i].key == last.key;
        EvidenceKeyIsInjective(i + 1, |evidence|);
        assert false;
      }
    }
  }

  /** One identifier never belongs to two steps. */
  lemma KeysOfAreDisjoint(evidence: seq<EvidenceRecord>, a: StepId, b: StepId, key: Text)
    requires KeysInOrder(evidence) && key in KeysOf(evidence, a) && key in KeysOf(evidence, b)
    ensures a == b
  {
    var i :| 0 <= i < |evidence| && evidence[i].stepId == a && evidence[i].key == key;
    var j :| 0 <= j < |evidence| && evidence[j].stepId == b && evidence[j].key == key;
    EvidenceKeyIsInjective(i + 1, j + 1);
  }

  lemma {:induction false} KeysOfConcat(earlier: seq<EvidenceRecord>, added: seq<EvidenceRecord>, id: StepId)
    ensures KeysOf(earlier + added, id) == KeysOf(earlier, id) + KeysOf(added, id)
  {
    if added == [] {
      assert earlier + added == earlier;
    } else {
      var front := added[..|added| - 1];
      KeysOfConcat(earlier, front, id);
      assert (earlier + added)[..|earlier + added| - 1] == earlier + front;
    }
  }

  lemma {:induction false} KeysOfForeignRows(evidence: seq<EvidenceRecord>, id: StepId)
    requires forall i :: 0 <= i < |evidence| ==> evidence[i].stepId != id
    ensures KeysOf(evidence, id) == []
  {
    if evidence != [] {
      KeysOfForeignRows(evidence[..|evidence| - 1], id);
    }
  }

  lemma {:induction false} KeysOfNewRows(drafts: seq<EvidenceDraft>, id: StepId, existing: nat)
    ensures KeysOf(NewEvidence(drafts, id, existing), id) == PredictedIds(existing, |drafts|)
  {
    var rows := NewEvidence(drafts, id, existing);
    if drafts == [] {
      assert rows == [];
    } else {
      var n := |drafts| - 1;
      KeysOfNewRows(drafts[..n], id, existing);
      assert rows[..n] == NewEvidence(drafts[..n], id, existing);
      assert PredictedIds(existing, |drafts|) == PredictedIds(existing, n) + [EvidenceKey(existing + n + 1)];
    }
  }

  /** Rows added for another step do not change the earlier calls. */
  lemma {:induction false} CallsIgnoreForeignRows(steps: seq<StepRecord>, evidence: seq<EvidenceRecord>, added: seq<EvidenceRecord>)
    requires FieldsOk(steps)
    requires forall i, j :: 0 <= i < |steps| && 0 <= j < |added| ==> added[j].stepId != steps[i].id
    ensures CompletedCalls(steps, evidence + added) == CompletedCalls(steps, evidence)
  {
    if steps != [] {
      var front, last := steps[..|steps| - 1], steps[|steps| - 1];
      assert FieldsOk(front) by { assert forall i :: 0 <= i < |front| ==> front[i] == steps[i]; }
      CallsIgnoreForeignRows(front, evidence, added);
      KeysOfConcat(evidence, added, last.id);
      KeysOfForeignRows(added, last.id);
      assert KeysOf(evidence + added, last.id) == KeysOf(evidence, last.id);
    }
  }

  /** The call reports the completed tool step whose sequence number it carries. */
  predicate ReportsItsStep(call: CompletedCall, steps: seq<StepRecord>, evidence: seq<EvidenceRecord>) {
    && 1 <= call.sequence <= |steps|
    && var step := steps[call.sequence - 1];
       IsCompletedTool(step) && step.observation == Some(call.observation) && call.evidenceIds == KeysOf(evidence, step.id)
  }

  predicate InSequence(calls: seq<CompletedCall>) {
    forall j, k :: 0 <= j < k < |calls| ==> calls[j].sequence < calls[k].sequence
  }

  lemma {:induction false} CallsComeFromSteps(steps: seq<StepRecord>, evidence: seq<EvidenceRecord>)
    requires FieldsOk(steps) && forall i :: 0 <= i < |steps| ==> steps[i].sequence == i + 1
    ensures var calls := CompletedCalls(steps, evidence);
      InSequence(calls) && forall k :: 0 <= k < |calls| ==> ReportsItsStep(calls[k], steps, evidence)
  {
    if steps != [] {
      var front, last := steps[..|steps| - 1], steps[|steps| - 1];
      assert forall i :: 0 <= i < |front| ==> front[i] == steps[i];
      assert FieldsOk(front);
      CallsComeFromSteps(front, evidence);
      var earlier, calls := CompletedCalls(front, evidence), CompletedCalls(steps, evidence);
      assert IsCompletedTool(last) ==> CompletedFieldsOk(last);
      forall k | 0 <= k < |calls|
        ensures ReportsItsStep(calls[k], steps, evidence)
      {
        if k < |earlier| {
          assert calls[k] == earlier[k] && ReportsItsStep(earlier[k], front, evidence);
        }
      }
      forall j, k | 0 <= j < k < |calls|
        ensures calls[j].sequence < calls[k].sequence
      {
        assert calls[j] == earlier[j] && ReportsItsStep(earlier[j], front, evidence);
      }
    }
  }

  lemma ConsistentFieldsOk(rows: RunRows)
    requires StepsOk(rows)
    ensures FieldsOk(rows.steps)
  {
    forall i | 0 <= i < |rows.steps| && IsCompletedTool(rows.steps[i])
      ensures CompletedFieldsOk(rows.steps[i])
    {
      assert StepRowOk(rows.steps[i]);
    }
  }

  /** The provider schema accepts the calls of consistent rows. */
  lemma ConsistentCallsOk(rows: RunRows)
    requires Consistent(rows)
    ensures FieldsOk(rows.steps) && CallsOk(CompletedCalls(rows.steps, rows.evidence))
  {
    hide CompletedCalls, AnswerOk, EvidenceKey, IsEvidenceId;
    var steps, evidence := rows.steps, rows.evidence;
    ConsistentFieldsOk(rows);
    CallsComeFromSteps(steps, evidence);
    var calls := CompletedCalls(steps, evidence);
    forall k | 0 <= k < |calls|
      ensures calls[k].observation.bytes <= AGENT_OBSERVATION_MAX_BYTES
      ensures |calls[k].evidenceIds| <= AGENT_MAX_EVIDENCE
      ensures NoDuplicates(calls[k].evidenceIds)
      ensures forall id :: id in calls[k].evidenceIds ==> IsEvidenceId(id)
    {
      assert ReportsItsStep(calls[k], steps, evidence);
      var step := steps[calls[k].sequence - 1];
      assert StepRowOk(step);
      KeysOfAreDistinct(evidence, step.id);
      forall id | id in calls[k].evidenceIds
        ensures IsEvidenceId(id)
      {
        var i :| 0 <= i < |evidence| && evidence[i].key == id;
        EvidenceIdsAreE1ToE32(id);
        assert id == EvidenceKey(i + 1);
      }
    }
    forall j, k, id | 0 <= j < k < |calls| && id in calls[j].evidenceIds
      ensures id !in calls[k].evidenceIds
    {
      assert ReportsItsStep(calls[j], steps, evidence) && ReportsItsStep(calls[k], steps, evidence);
      if id in calls[k].evidenceIds {
        KeysOfAreDisjoint(evidence, steps[calls[j].sequence - 1].id, steps[calls[k].sequence - 1].id, id);
      }
    }
  }

  lemma ConsistentRowsPassValidation(rows: RunRows)
    requires Consistent(rows) && rows.run.status == Running
    ensures StepOrderOk(rows) && EvidenceOrderOk(rows)
  {
    forall i | 0 <= i < |rows.evidence|
      ensures IsEvidenceId(rows.evidence[i].key)
    {
      EvidenceIdsAreE1ToE32(rows.evidence[i].key);
      assert rows.evidence[i].key == EvidenceKey(i + 1);
    }
  }

  /**
   * A consistent running run whose byte count is exact is projected, unless its prompt alone is already
   * over the context limit before any tool call has ended. It is never rejected as corrupt.
   */
  lemma ProjectionIsNeverCorrupt(rows: RunRows)
    requires Consistent(rows) && rows.run.status == Running && ContextExact(rows)
    ensures var p := ProjectionOf(rows);
      BuildDecisionContext(rows) ==
      if HasTerminalTool(rows.steps) || ContextBytes(p.context) <= rows.run.limits.contextMaxBytes
      then Ok(p.(contextBytes := ContextBytes(p.context)))
      else Err(ContextLimit)
  {
    ConsistentRowsPassValidation(rows);
    ConsistentCallsOk(rows);
  }

  // ---------------------------------------------------------------- what the stored byte count detects

  lemma OneIdMoreIsLonger(ids: seq<Text>, id: Text)
    ensures IdsBytes(ids + [id]) > IdsBytes(ids)
  {
    assert (ids + [id])[..|ids|] == ids;
  }

  lemma OneRowMore(evidence: seq<EvidenceRecord>, item: EvidenceRecord, id: StepId)
    ensures KeysOf(evidence + [item], id) == KeysOf(evidence, id) + if item.stepId == id then [item.key] else []
  {
    assert (evidence + [item])[..|evidence|] == evidence;
  }

  /** A call weighs what its identifiers weigh, and more. */
  lemma CallsWithMoreIdsAreLarger(call: CompletedCall, ids: seq<Text>)
    requires IdsBytes(call.evidenceIds) <= IdsBytes(ids)
    ensures CallBytes(call.(evidenceIds := ids)) - CallBytes(call) == IdsBytes(ids) - IdsBytes(call.evidenceIds)
  {
    hide IdsBytes, Decimal, NameBytes;
  }

  lemma FromFrontOrLast(steps: seq<StepRecord>, id: StepId)
    requires steps != [] && FromCompletedTool(steps, id)
    ensures FromCompletedTool(steps[..|steps| - 1], id) || (IsCompletedTool(steps[|steps| - 1]) && steps[|steps| - 1].id == id)
  {
    var front := steps[..|steps| - 1];
    assert steps == front + [steps[|steps| - 1]];
    var i :| 0 <= i < |steps| && steps[i].id == id && steps[i].kind == ToolCall && steps[i].status == StepCompleted;
    assert i < |front| ==> front[i] == steps[i];
  }

  /** The call a completed step makes. */
  function CallAt(step: StepRecord, evidence: seq<EvidenceRecord>): CompletedCall
    requires CompletedFieldsOk(step)
  {
    CompletedCall(step.sequence, step.toolName.value, step.safeArguments.value, step.observation.value, KeysOf(evidence, step.id))
  }

  /** The size of all calls is that of the earlier ones and of the last step's, if it makes one. */
  lemma CallsBytesOfLast(steps: seq<StepRecord>, evidence: seq<EvidenceRecord>)
    requires FieldsOk(steps) && steps != []
    ensures var front, last := steps[..|steps| - 1], steps[|steps| - 1];
      && FieldsOk(front)
      && var earlier, calls := CompletedCalls(front, evidence), CompletedCalls(steps, evidence);
         if IsCompletedTool(last)
         then && CompletedFieldsOk(last) && |calls| == |earlier| + 1
              && CallsBytes(calls) == CallsBytes(earlier) + CallBytes(CallAt(last, evidence)) + if |earlier| > 0 then 1 else 0
         else calls == earlier
  {
    hide KeysOf, CallBytes;
    var front, last := steps[..|steps| - 1], steps[|steps| - 1];
    assert FieldsOk(front) by { assert forall i :: 0 <= i < |front| ==> front[i] == steps[i]; }
    var earlier, calls := CompletedCalls(front, evidence), CompletedCalls(steps, evidence);
    if IsCompletedTool(last) {
      assert CompletedFieldsOk(steps[|steps| - 1]);
      assert calls[..|calls| - 1] == earlier;
    }
  }

  /** The last step's call is as large as before, or larger when the new row is its own. */
  lemma LastCallHasWeight(steps: seq<StepRecord>, evidence: seq<EvidenceRecord>, item: EvidenceRecord)
    requires FieldsOk(steps) && steps != [] && IsCompletedTool(steps[|steps| - 1]) && CompletedFieldsOk(steps[|steps| - 1])
    ensures var last := steps[|steps| - 1];
      var less, more := CallBytes(CallAt(last, evidence)), CallBytes(CallAt(last, evidence + [item]));
      less <= more && (item.stepId == last.id ==> less < more)
  {
    hide KeysOf, IdsBytes, CallBytes;
    var last := steps[|steps| - 1];
    OneRowMore(evidence, item, last.id);
    var keys := KeysOf(evidence, last.id);
    assert keys + [] == keys;
    OneIdMoreIsLonger(keys, item.key);
    CallsWithMoreIdsAreLarger(CallAt(last, evidence), KeysOf(evidence + [item], last.id));
  }

  /** One evidence row more makes the calls larger when it belongs to one of them. */
  lemma {:induction false} EvidenceHasWeight(steps: seq<StepRecord>, evidence: seq<EvidenceRecord>, item: EvidenceRecord)
    requires FieldsOk(steps)
    ensures var less, more := CompletedCalls(steps, evidence), CompletedCalls(steps, evidence + [item]);
      && |less| == |more| && CallsBytes(less) <= CallsBytes(more)
      && (FromCompletedTool(steps, item.stepId) ==> CallsBytes(less) < CallsBytes(more))
  {
    if steps != [] {
      hide KeysOf, IdsBytes, CompletedCalls, CallsBytes, CallBytes, FromCompletedTool, CallAt;
      var front, last := steps[..|steps| - 1], steps[|steps| - 1];
      CallsBytesOfLast(steps, evidence);
      CallsBytesOfLast(steps, evidence + [item]);
      EvidenceHasWeight(front, evidence, item);
      if IsCompletedTool(last) {
        LastCallHasWeight(steps, evidence, item);
      }
      if FromCompletedTool(steps, item.stepId) {
        FromFrontOrLast(steps, item.stepId);
      }
    }
  }

  /** Fewer evidence rows of completed steps make smaller calls. */
  lemma {:induction false} FewerRowsWeighLess(steps: seq<StepRecord>, evidence: seq<EvidenceRecord>, n: nat)
    requires FieldsOk(steps) && n < |evidence|
    requires forall i :: 0 <= i < |evidence| ==> FromCompletedTool(steps, evidence[i].stepId)
    ensures CallsBytes(CompletedCalls(steps, evidence[..n])) < CallsBytes(CompletedCalls(steps, evidence))
  {
    hide CompletedCalls, CallsBytes, FromCompletedTool, FieldsOk;
    var front, item := evidence[..|evidence| - 1], evidence[|evidence| - 1];
    assert evidence == front + [item];
    EvidenceHasWeight(steps, front, item);
    if n < |front| {
      FewerRowsWeighLess(steps, front, n);
      assert front[..n] == evidence[..n];
    }
  }

  /** Losing the newest evidence rows of a run is noticed: the rows no longer have the size that was stored. */
  lemma LostEvidenceIsDetected(rows: RunRows, n: nat)
    requires Consistent(rows) && rows.run.status == Running && ContextExact(rows) && n < |rows.evidence|
    ensures BuildDecisionContext(rows.(evidence := rows.evidence[..n])) == Err(PersistenceFailed)
  {
    hide CompletedCalls, CallsBytes, CallsOk, StepOrderOk, EvidenceOrderOk, AnswerOk;
    var item := rows.evidence[0];
    assert FromCompletedTool(rows.steps, item.stepId);
    var i :| 0 <= i < |rows.steps| && rows.steps[i].id == item.stepId && rows.steps[i].kind == ToolCall && rows.steps[i].status == StepCompleted;
    ConsistentFieldsOk(rows);
    FewerRowsWeighLess(rows.steps, rows.evidence, n);
  }

  // ---------------------------------------------------------------- append, then persist = persist, then rebuild

  /** The running step, finished with this observation. */
  function Done(step: StepRecord, observation: Json, now: Time): StepRecord {
    step.(status := StepCompleted, observation := Some(observation), completedAt := Some(now))
  }

  /** The rows after the running last step has been completed. */
  function Finished(rows: RunRows, result: ToolResult, contextBytes: nat, now: Time): RunRows
    requires rows.steps != []
  {
    var last := |rows.steps| - 1;
    var step := Done(rows.steps[last], result.observation, now);
    RunRows(rows.run.(contextBytes := contextBytes), rows.steps[last := step],
            rows.evidence + NewEvidence(result.evidence, step.id, |rows.evidence|))
  }

  /** The call that a running step becomes. */
  function CallOf(step: StepRecord, evidenceCount: nat, result: ToolResult): CompletedCall
    requires step.toolName.Some? && step.safeArguments.Some?
  {
    CompletedCall(step.sequence, step.toolName.value, step.safeArguments.value, result.observation,
                  PredictedIds(evidenceCount, |result.evidence|))
  }

  lemma RunningStepsMakeNoCall(front: seq<StepRecord>, step: StepRecord, evidence: seq<EvidenceRecord>)
    requires FieldsOk(front) && !IsCompletedTool(step) && FieldsOk(front + [step])
    ensures CompletedCalls(front + [step], evidence) == CompletedCalls(front, evidence)
  {
    assert (front + [step])[..|front|] == front;
  }

  lemma DoneStepsMakeOneCall(
      front: seq<StepRecord>, step: StepRecord, evidence: seq<EvidenceRecord>, result: ToolResult, now: Time)
    requires FieldsOk(front) && step.kind == ToolCall && step.toolName.Some? && step.safeArguments.Some?
    requires forall i :: 0 <= i < |front| ==> front[i].id != step.id
    requires KeysOf(evidence, step.id) == []
    requires FieldsOk(front + [Done(step, result.observation, now)])
    ensures CompletedCalls(front + [Done(step, result.observation, now)], evidence + NewEvidence(result.evidence, step.id, |evidence|))
         == CompletedCalls(front, evidence) + [CallOf(step, |evidence|, result)]
  {
    var done, added := Done(step, result.observation, now), NewEvidence(result.evidence, step.id, |evidence|);
    assert (front + [done])[..|front|] == front;
    CallsIgnoreForeignRows(front, evidence, added);
    KeysOfConcat(evidence, added, step.id);
    KeysOfNewRows(result.evidence, step.id, |evidence|);
    assert KeysOf(evidence + added, step.id) == PredictedIds(|evidence|, |result.evidence|);
  }

  /** Evidence never belongs to the step that is still running. */
  lemma RunningStepHasNoEvidence(rows: RunRows)
    requires StepsOk(rows) && EvidenceOk(rows) && rows.steps != [] && rows.steps[|rows.steps| - 1].status == StepRunning
    ensures KeysOf(rows.evidence, rows.steps[|rows.steps| - 1].id) == []
  {
    var step := rows.steps[|rows.steps| - 1];
    forall i | 0 <= i < |rows.evidence|
      ensures rows.evidence[i].stepId != step.id
    {
      assert FromCompletedTool(rows.steps, rows.evidence[i].stepId);
      var j :| 0 <= j < |rows.steps| && rows.steps[j].id == rows.evidence[i].stepId && rows.steps[j].status == StepCompleted;
    }
    KeysOfForeignRows(rows.evidence, step.id);
  }

  lemma FinishingAddsOneCall(rows: RunRows, result: ToolResult, contextBytes: nat, now: Time)
    requires StepsOk(rows) && EvidenceOk(rows) && rows.steps != [] && rows.steps[|rows.steps| - 1].status == StepRunning
    ensures var after, step := Finished(rows, result, contextBytes, now), rows.steps[|rows.steps| - 1];
      && FieldsOk(rows.steps) && FieldsOk(after.steps) && step.toolName.Some? && step.safeArguments.Some?
      && CompletedCalls(after.steps, after.evidence)
         == CompletedCalls(rows.steps, rows.evidence) + [CallOf(step, |rows.evidence|, result)]
  {
    var last := |rows.steps| - 1;
    var front, step := rows.steps[..last], rows.steps[last];
    var done := Done(step, result.observation, now);
    assert StepRowOk(step);
    ConsistentFieldsOk(rows);
    assert FieldsOk(front) by { assert forall i :: 0 <= i < last ==> front[i] == rows.steps[i]; }
    assert FieldsOk(front + [done]);
    assert rows.steps == front + [step] && rows.steps[last := done] == front + [done];
    RunningStepsMakeNoCall(front, step, rows.evidence);
    RunningStepHasNoEvidence(rows);
    DoneStepsMakeOneCall(front, step, rows.evidence, result, now);
  }

  /**
   * What a worker predicts by appending its finished call is what anyone rebuilds from the rows once that
   * step has been persisted: same context, same identifiers, same byte count.
   */
  lemma AppendingEqualsRebuilding(rows: RunRows, p: Projection, result: ToolResult, q: Projection, now: Time)
    requires Consistent(rows) && rows.run.status == Running
    requires rows.steps != [] && rows.steps[|rows.steps| - 1].status == StepRunning
    requires BuildDecisionContext(rows) == Ok(p)
    requires AppendCompletedToolCall(p, rows.steps[|rows.steps| - 1], result) == Ok(q)
    requires Consistent(Finished(rows, result, q.contextBytes, now))
    ensures BuildDecisionContext(Finished(rows, result, q.contextBytes, now)) == Ok(q)
    ensures ContextExact(Finished(rows, result, q.contextBytes, now))
  {
    hide StepOrderOk, EvidenceOrderOk, CallsOk, CompletedCalls, ContextBytes, RunRowOk, AnswerOk;
    var after := Finished(rows, result, q.contextBytes, now);
    FinishingAddsOneCall(rows, result, q.contextBytes, now);
    assert q.context == ProjectionOf(after).context;
    assert after.steps[|rows.steps| - 1].status == StepCompleted && after.steps[|rows.steps| - 1].kind == ToolCall;
    assert HasTerminalTool(after.steps);
    ProjectionIsNeverCorrupt(after);
  }

  // ---------------------------------------------------------------- what may be appended

  lemma PredictedIdsAreNew(evidence: seq<EvidenceRecord>, n: nat, calls: seq<CompletedCall>, steps: seq<StepRecord>)
    requires KeysInOrder(evidence) && |evidence| + n <= AGENT_MAX_EVIDENCE
    requires forall k :: 0 <= k < |calls| ==> ReportsItsStep(calls[k], steps, evidence)
    ensures var ids := PredictedIds(|evidence|, n);
      && NoDuplicates(ids) && (forall id :: id in ids ==> IsEvidenceId(id))
      && (forall k, id :: 0 <= k < |calls| && id in calls[k].evidenceIds ==> id !in ids)
  {
    hide EvidenceKey, IsEvidenceId, KeysOf;
    var ids := PredictedIds(|evidence|, n);
    forall i, j | 0 <= i < j < n
      ensures ids[i] != ids[j]
    {
      if ids[i] == ids[j] {
        EvidenceKeyIsInjective(|evidence| + i + 1, |evidence| + j + 1);
      }
    }
    forall id | id in ids
      ensures IsEvidenceId(id)
    {
      var i :| 0 <= i < n && ids[i] == id;
      EvidenceIdsAreE1ToE32(id);
      assert id == EvidenceKey(|evidence| + i + 1);
    }
    forall k, id | 0 <= k < |calls| && id in calls[k].evidenceIds
      ensures id !in ids
    {
      if id in ids {
        var i :| 0 <= i < n && ids[i] == id;
        assert ReportsItsStep(calls[k], steps, evidence);
        var j :| 0 <= j < |evidence| && evidence[j].key == id;
        EvidenceKeyIsInjective(j + 1, |evidence| + i + 1);
      }
    }
  }

  /** One call more is acceptable when it comes later than the others and its identifiers are new. */
  lemma OneCallMoreIsOk(calls: seq<CompletedCall>, call: CompletedCall)
    requires CallsOk(calls) && |calls| < AGENT_MAX_TOOL_CALLS
    requires 1 <= call.sequence <= AGENT_MAX_STEPS && call.observation.bytes <= AGENT_OBSERVATION_MAX_BYTES
    requires |call.evidenceIds| <= AGENT_MAX_EVIDENCE && NoDuplicates(call.evidenceIds) && (forall id :: id in call.evidenceIds ==> IsEvidenceId(id))
    requires forall k :: 0 <= k < |calls| ==> calls[k].sequence < call.sequence
    requires forall k, id :: 0 <= k < |calls| && id in calls[k].evidenceIds ==> id !in call.evidenceIds
    ensures CallsOk(calls + [call])
  {
    hide NoDuplicates, IsEvidenceId;
  }

  /** While the last step runs, it is a tool's, and the others have made fewer calls than the run may make. */
  lemma RunningStepLeavesRoom(rows: RunRows)
    requires Consistent(rows) && rows.steps != [] && rows.steps[|rows.steps| - 1].status == StepRunning
    ensures var step, n := rows.steps[|rows.steps| - 1], |rows.steps|;
      && step.kind == ToolCall && step.toolName.Some? && step.safeArguments.Some? && step.sequence == n <= AGENT_MAX_STEPS
      && FieldsOk(rows.steps) && |CompletedCalls(rows.steps, rows.evidence)| < AGENT_MAX_TOOL_CALLS
  {
    hide AnswerOk;
    var last := |rows.steps| - 1;
    var front, step := rows.steps[..last], rows.steps[last];
    assert StepRowOk(step);
    ConsistentFieldsOk(rows);
    assert FieldsOk(front) by { assert forall i :: 0 <= i < last ==> front[i] == rows.steps[i]; }
    assert rows.steps == front + [step];
    RunningStepsMakeNoCall(front, step, rows.evidence);
    assert |CompletedCalls(front, rows.evidence)| <= CountTools(front);
  }

  /**
   * A worker that has the projection of consistent rows may append whatever its running step has found, up to the limits: the call is
   * refused only for its size, the run's evidence limit, or the size of the context with it, in this order.
   */
  lemma AppendingStopsAtTheLimits(rows: RunRows, p: Projection, result: ToolResult)
    requires Consistent(rows) && rows.run.status == Running
    requires rows.steps != [] && rows.steps[|rows.steps| - 1].status == StepRunning
    requires BuildDecisionContext(rows) == Ok(p)
    ensures var step, n, limits := rows.steps[|rows.steps| - 1], |rows.evidence| + |result.evidence|, rows.run.limits;
      && step.toolName.Some? && step.safeArguments.Some?
      && var context := p.context.(completedToolCalls := p.context.completedToolCalls + [CallOf(step, |rows.evidence|, result)]);
         AppendCompletedToolCall(p, step, result) ==
         if result.observation.bytes > AGENT_OBSERVATION_MAX_BYTES || |result.evidence| > AGENT_MAX_EVIDENCE then Err(PersistenceFailed)
         else if n > limits.maxEvidence then Err(EvidenceLimit)
         else if ContextBytes(context) > limits.contextMaxBytes then Err(ContextLimit)
         else Ok(Projection(context, ContextBytes(context), n, |rows.steps|, limits.maxEvidence, limits.contextMaxBytes))
  {
    hide StepOrderOk, EvidenceOrderOk, CallsOk, CompletedCalls, ContextBytes, AnswerOk, EvidenceKey, IsEvidenceId, PredictedIds, NoDuplicates;
    RunningStepLeavesRoom(rows);
    ConsistentCallsOk(rows);
    CallsComeFromSteps(rows.steps, rows.evidence);
    var step, calls := rows.steps[|rows.steps| - 1], CompletedCalls(rows.steps, rows.evidence);
    if result.observation.bytes <= AGENT_OBSERVATION_MAX_BYTES && |rows.evidence| + |result.evidence| <= rows.run.limits.maxEvidence {
      PredictedIdsAreNew(rows.evidence, |result.evidence|, calls, rows.steps);
      forall k | 0 <= k < |calls|
        ensures calls[k].sequence < step.sequence
      {
        assert ReportsItsStep(calls[k], rows.steps, rows.evidence);
      }
      OneCallMoreIsOk(calls, CallOf(step, |rows.evidence|, result));
    }
  }

  /** Rows that are projected have what the tables promise across rows: numbered and counted steps, and evidence in key order. */
  lemma ProjectedRowsAreInOrder(rows: RunRows)
    requires BuildDecisionContext(rows).Ok?
    ensures rows.run.status == Running && |rows.steps| == rows.run.stepCount && CountTools(rows.steps) == rows.run.toolCallCount
    ensures forall i :: 0 <= i < |rows.steps| ==>
      && rows.steps[i].sequence == i + 1
      && (rows.steps[i].status == StepRunning ==> rows.steps[i].kind == ToolCall && i == |rows.steps| - 1)
    ensures EvidenceOk(rows) && |rows.evidence| <= AGENT_MAX_EVIDENCE && ContextExact(rows)
    ensures ContextBytes(ProjectionOf(rows).context) <= rows.run.limits.contextMaxBytes
  {
    hide CompletedCalls, CallsOk, ContextBytes, FromCompletedTool;
    forall i | 0 <= i < |rows.evidence|
      ensures rows.evidence[i].key == EvidenceKey(i + 1) && FromCompletedTool(rows.steps, rows.evidence[i].stepId)
    {
      assert EvidenceRowOk(rows, i);
    }
    if rows.evidence != [] {
      var n := |rows.evidence|;
      assert EvidenceRowOk(rows, n - 1);
      EvidenceIdsAreE1ToE32(EvidenceKey(n));
      var k: nat :| 1 <= k <= AGENT_MAX_EVIDENCE && EvidenceKey(n) == EvidenceKey(k);
      EvidenceKeyIsInjective(n, k);
    }
  }
}
