/** The trace response validator (shared/contracts/agents.ts), and that durable rows always pass it. */
module TraceResponse {
  import opened Utf16
  import opened AgentContracts
  import opened AgentRows
  import opened ContextRoundTrip
  import opened Sorting
  import opened RunViews

  datatype TraceStep = TraceStep(runId: RunId, step: StepRecord)

  datatype TraceEvidence = TraceEvidence(runId: RunId, item: EvidenceRecord)

  datatype Trace = Trace(runId: RunId, steps: seq<TraceStep>, evidence: seq<TraceEvidence>)

  // ---------------------------------------------------------------- the schema's shapes

  predicate ToolStepShapeOk(s: StepRecord) {
    && s.toolName.Some? && s.safeArguments.Some?
    && (s.observation.Some? ==> s.observation.value.bytes <= AGENT_OBSERVATION_MAX_BYTES)
    && (s.status == StepRunning ==> s.completedAt.None? && s.errorCode.None? && s.observation.None?)
    && (s.status != StepRunning ==> s.completedAt.Some?)
    && (s.status == StepCompleted ==> s.errorCode.None? && s.observation.Some?)
    && (s.status == StepFailed ==> s.errorCode.Some?)
    && (s.status == StepCancelled ==> s.errorCode.None? && s.observation.None?)
  }

  /** agentStepSchema accepts the step. */
  predicate StepShapeOk(s: StepRecord) {
    && 1 <= s.sequence <= AGENT_MAX_STEPS && s.executionCount > 0
    && match s.kind
       case ToolCall => ToolStepShapeOk(s)
       case FinalAnswer =>
         && s.status == StepCompleted && s.toolName.None? && s.safeArguments.None? && s.observation.None?
         && s.errorCode.None? && s.completedAt.Some?
       case DecisionError =>
         && s.status == StepFailed && s.toolName.None? && s.safeArguments.None? && s.observation.None?
         && s.errorCode.Some? && s.completedAt.Some?
  }

  /** What the response's schema asks of a step beyond the table's checks, and the other way round. */
  lemma ShapesAgreeWithTheTable(s: StepRecord)
    requires s.safeArguments.Some? ==> JsonFits(s.safeArguments.value)
    requires s.observation.Some? ==> ObservationFits(s.observation.value)
    ensures StepShapeOk(s) && (s.status == StepFailed ==> s.observation.None?)
       <==> && StepRowOk(s) && 1 <= s.sequence <= AGENT_MAX_STEPS
            && (s.observation.Some? ==> s.observation.value.bytes <= AGENT_OBSERVATION_MAX_BYTES)
  {
  }

  predicate EvidenceShapeOk(e: EvidenceRecord) {
    IsEvidenceId(e.key) && (e.finalOrdinal.Some? ==> 1 <= e.finalOrdinal.value <= AGENT_MAX_EVIDENCE)
  }

  predicate ShapesOk(t: Trace) {
    && |t.steps| <= AGENT_MAX_STEPS && |t.evidence| <= AGENT_MAX_EVIDENCE
    && (forall i :: 0 <= i < |t.steps| ==> StepShapeOk(t.steps[i].step))
    && (forall i :: 0 <= i < |t.evidence| ==> EvidenceShapeOk(t.evidence[i].item))
  }

  // ---------------------------------------------------------------- what a trace must be

  predicate StepInOrder(t: Trace, i: nat)
    requires i < |t.steps|
  {
    && t.steps[i].runId == t.runId
    && (if i == 0 then 0 else t.steps[i - 1].step.sequence) < t.steps[i].step.sequence
  }

  predicate CompletedToolIn(t: Trace, id: StepId) {
    exists i :: 0 <= i < |t.steps| && t.steps[i].step.id == id && t.steps[i].step.kind == ToolCall && t.steps[i].step.status == StepCompleted
  }

  function Identity(n: nat): int {
    n
  }

  /** The final ordinals, in evidence order. */
  function FinalOrdinals(evidence: seq<TraceEvidence>): seq<nat> {
    if evidence == [] then []
    else
      var last := evidence[|evidence| - 1].item.finalOrdinal;
      FinalOrdinals(evidence[..|evidence| - 1]) + if last.Some? then [last.value] else []
  }

  predicate EvidenceOfRun(t: Trace, i: nat)
    requires i < |t.evidence|
  {
    t.evidence[i].runId == t.runId && CompletedToolIn(t, t.evidence[i].item.stepId)
  }

  predicate DistinctKeys(evidence: seq<TraceEvidence>) {
    forall i, j :: 0 <= i < j < |evidence| ==> evidence[i].item.key != evidence[j].item.key
  }

  /**
   * Steps and evidence of one run, steps in ascending order, evidence from completed tool steps under distinct
   * keys, and final ordinals that are 1 to n without repetition.
   */
  ghost predicate TraceOk(t: Trace) {
    && ShapesOk(t)
    && (forall i :: 0 <= i < |t.steps| ==> StepInOrder(t, i))
    && (forall i :: 0 <= i < |t.evidence| ==> EvidenceOfRun(t, i))
    && DistinctKeys(t.evidence)
    && OneToN(FinalOrdinals(t.evidence), Identity, |FinalOrdinals(t.evidence)|)
  }

  lemma {:induction false} StepsAscend(t: Trace, i: nat, j: nat)
    requires i < j < |t.steps| && forall k :: 0 <= k < |t.steps| ==> StepInOrder(t, k)
    ensures t.steps[i].step.sequence < t.steps[j].step.sequence
    decreases j
  {
    assert StepInOrder(t, j);
    if i < j - 1 {
      StepsAscend(t, i, j - 1);
    }
  }

  /** What an accepted trace tells: everything is this run's, no two steps share a number, and no answer cites a key twice. */
  lemma AcceptedTracesTell(t: Trace)
    requires TraceOk(t)
    ensures forall i :: 0 <= i < |t.steps| ==> t.steps[i].runId == t.runId && 1 <= t.steps[i].step.sequence <= AGENT_MAX_STEPS
    ensures forall i, j :: 0 <= i < j < |t.steps| ==> t.steps[i].step.sequence < t.steps[j].step.sequence
    ensures forall i :: 0 <= i < |t.evidence| ==> t.evidence[i].runId == t.runId && CompletedToolIn(t, t.evidence[i].item.stepId)
    ensures forall i, j :: 0 <= i < j < |t.evidence| ==> t.evidence[i].item.key != t.evidence[j].item.key
  {
    hide OneToN, FinalOrdinals, CompletedToolIn, ToolStepShapeOk, EvidenceShapeOk;
    forall i | 0 <= i < |t.steps|
      ensures t.steps[i].runId == t.runId && 1 <= t.steps[i].step.sequence <= AGENT_MAX_STEPS
    {
      assert StepInOrder(t, i) && StepShapeOk(t.steps[i].step);
    }
    forall i, j | 0 <= i < j < |t.steps|
      ensures t.steps[i].step.sequence < t.steps[j].step.sequence
    {
      StepsAscend(t, i, j);
    }
    forall i | 0 <= i < |t.evidence|
      ensures t.evidence[i].runId == t.runId && CompletedToolIn(t, t.evidence[i].item.stepId)
    {
      assert EvidenceOfRun(t, i);
    }
  }

  // ---------------------------------------------------------------- the validator's loops

  method CheckSteps(t: Trace) returns (ok: bool, completed: set<StepId>)
    ensures ok <==> forall i :: 0 <= i < |t.steps| ==> StepInOrder(t, i)
    ensures forall id :: id in completed <==> CompletedToolIn(t, id)
  {
    ok, completed := true, {};
    var previousSequence := 0;
    for index := 0 to |t.steps|
      invariant ok <==> forall i :: 0 <= i < index ==> StepInOrder(t, i)
      invariant previousSequence == if index == 0 then 0 else t.steps[index - 1].step.sequence
      invariant forall id :: id in completed <==> CompletedToolIn(t.(steps := t.steps[..index]), id)
    {
      var entry := t.steps[index];
      assert StepInOrder(t, index) <==> entry.runId == t.runId && entry.step.sequence > previousSequence;
      if entry.runId != t.runId || entry.step.sequence <= previousSequence {
        ok := false;
      }
      previousSequence := entry.step.sequence;
      forall id
        ensures CompletedToolIn(t.(steps := t.steps[..index + 1]), id)
           <==> CompletedToolIn(t.(steps := t.steps[..index]), id)
                || (entry.step.id == id && entry.step.kind == ToolCall && entry.step.status == StepCompleted)
      {
        OneMoreStep(t, index, id);
      }
      if entry.step.kind == ToolCall && entry.step.status == StepCompleted {
        completed := completed + {entry.step.id};
      }
    }
    assert t.(steps := t.steps[..|t.steps|]) == t;
  }

  lemma OneMoreStep(t: Trace, index: nat, id: StepId)
    requires index < |t.steps|
    ensures var s := t.steps[index].step;
      CompletedToolIn(t.(steps := t.steps[..index + 1]), id)
      <==> CompletedToolIn(t.(steps := t.steps[..index]), id) || (s.id == id && s.kind == ToolCall && s.status == StepCompleted)
  {
    var shorter, longer := t.steps[..index], t.steps[..index + 1];
    assert longer == shorter + [t.steps[index]];
    if CompletedToolIn(t.(steps := shorter), id) {
      var i :| 0 <= i < index && shorter[i].step.id == id && shorter[i].step.kind == ToolCall && shorter[i].step.status == StepCompleted;
      assert longer[i] == shorter[i];
    }
    assert longer[index] == t.steps[index];
  }

  predicate DistinctOrdinals(ordinals: seq<nat>) {
    forall i, j :: 0 <= i < j < |ordinals| ==> ordinals[i] != ordinals[j]
  }

  /** The ordinals the validator has kept: a repeated one is reported and not kept twice. */
  method CheckEvidence(t: Trace, completed: set<StepId>) returns (ok: bool, finalOrdinals: seq<nat>)
    requires forall id :: id in completed <==> CompletedToolIn(t, id)
    ensures ok <==>
      && (forall i :: 0 <= i < |t.evidence| ==> EvidenceOfRun(t, i))
      && DistinctKeys(t.evidence) && DistinctOrdinals(FinalOrdinals(t.evidence))
    ensures ok ==> finalOrdinals == FinalOrdinals(t.evidence)
  {
    var evidenceIds: set<Text> := {};
    ok, finalOrdinals := true, [];
    NothingSeenYet(t.evidence);
    hide CompletedToolIn, FinalOrdinals, DistinctKeys, DistinctOrdinals, HasKeyBefore;
    for index := 0 to |t.evidence|
      invariant forall key :: key in evidenceIds <==> HasKeyBefore(t.evidence, index, key)
      invariant forall n :: n in finalOrdinals <==> n in FinalOrdinals(t.evidence[..index])
      invariant ok <==>
        && (forall i :: 0 <= i < index ==> EvidenceOfRun(t, i))
        && DistinctKeys(t.evidence[..index]) && DistinctOrdinals(FinalOrdinals(t.evidence[..index]))
      invariant ok ==> finalOrdinals == FinalOrdinals(t.evidence[..index])
    {
      var entry := t.evidence[index];
      OneMoreOrdinal(t.evidence, index);
      OneMoreKey(t.evidence, index);
      assert EvidenceOfRun(t, index) <==> entry.runId == t.runId && entry.item.stepId in completed;
      if entry.runId != t.runId || entry.item.stepId !in completed {
        ok := false;
      }
      if entry.item.key in evidenceIds {
        ok := false;
      }
      evidenceIds := evidenceIds + {entry.item.key};
      if entry.item.finalOrdinal.Some? {
        if entry.item.finalOrdinal.value in finalOrdinals {
          ok := false;
        } else {
          finalOrdinals := finalOrdinals + [entry.item.finalOrdinal.value];
        }
      }
    }
    assert t.evidence[..|t.evidence|] == t.evidence;
  }

  lemma NothingSeenYet(evidence: seq<TraceEvidence>)
    ensures FinalOrdinals(evidence[..0]) == [] && DistinctOrdinals([]) && DistinctKeys(evidence[..0])
    ensures forall key :: !HasKeyBefore(evidence, 0, key)
  {
  }

  predicate HasKeyBefore(evidence: seq<TraceEvidence>, index: nat, key: Text)
    requires index <= |evidence|
  {
    exists i :: 0 <= i < index && evidence[i].item.key == key
  }

  lemma OneMoreKey(evidence: seq<TraceEvidence>, index: nat)
    requires index < |evidence|
    ensures forall key :: HasKeyBefore(evidence, index + 1, key) <==> HasKeyBefore(evidence, index, key) || key == evidence[index].item.key
    ensures DistinctKeys(evidence[..index + 1]) <==>
      DistinctKeys(evidence[..index]) && !HasKeyBefore(evidence, index, evidence[index].item.key)
  {
    var shorter, longer := evidence[..index], evidence[..index + 1];
    assert longer == shorter + [evidence[index]];
    forall key
      ensures HasKeyBefore(evidence, index + 1, key) <==> HasKeyBefore(evidence, index, key) || key == evidence[index].item.key
    {
      if HasKeyBefore(evidence, index, key) {
        var i :| 0 <= i < index && evidence[i].item.key == key;
        assert i < index + 1;
      }
      assert evidence[index].item.key == key ==> HasKeyBefore(evidence, index + 1, key);
    }
    if DistinctKeys(longer) {
      forall i, j | 0 <= i < j < |shorter|
        ensures shorter[i].item.key != shorter[j].item.key
      {
        assert longer[i] == shorter[i] && longer[j] == shorter[j];
      }
      forall i | 0 <= i < index
        ensures evidence[i].item.key != evidence[index].item.key
      {
        assert longer[i].item.key != longer[index].item.key;
      }
    }
  }

  lemma OneMoreOrdinal(evidence: seq<TraceEvidence>, index: nat)
    requires index < |evidence|
    ensures var shorter, longer, last := FinalOrdinals(evidence[..index]), FinalOrdinals(evidence[..index + 1]), evidence[index].item.finalOrdinal;
      && longer == shorter + (if last.Some? then [last.value] else [])
      && (DistinctOrdinals(longer) <==> DistinctOrdinals(shorter) && (last.Some? ==> last.value !in shorter))
  {
    assert evidence[..index + 1][..index] == evidence[..index];
    var shorter, longer, last := FinalOrdinals(evidence[..index]), FinalOrdinals(evidence[..index + 1]), evidence[index].item.finalOrdinal;
    if last.None? {
      assert longer == shorter;
    } else if DistinctOrdinals(longer) {
      forall i, j | 0 <= i < j < |shorter|
        ensures shorter[i] != shorter[j]
      {
        assert longer[i] == shorter[i] && longer[j] == shorter[j];
      }
      forall i | 0 <= i < |shorter|
        ensures shorter[i] != last.value
      {
        assert longer[i] != longer[|shorter|];
      }
    }
  }

  method CheckContiguous(ordered: seq<nat>) returns (ok: bool)
    ensures ok <==> Contiguous(ordered, Identity)
  {
    for index := 0 to |ordered|
      invariant forall i :: 0 <= i < index ==> Identity(ordered[i]) == i + 1
    {
      if ordered[index] != index + 1 {
        assert Identity(ordered[index]) != index + 1;
        return false;
      }
    }
    ok := true;
  }

  /** The validator accepts exactly the traces that are what they must be. */
  method ValidateTrace(t: Trace) returns (ok: bool)
    ensures ok <==> TraceOk(t)
  {
    hide ShapesOk, StepInOrder, EvidenceOfRun, DistinctKeys, Contiguous, CompletedToolIn, FinalOrdinals, SortBy;
    if !ShapesOk(t) {
      return false;
    }
    var stepsOk, completed := CheckSteps(t);
    var evidenceOk, finalOrdinals := CheckEvidence(t, completed);
    var contiguous := CheckContiguous(SortBy(finalOrdinals, Identity));
    ok := stepsOk && evidenceOk && contiguous;
    if ok {
      ContiguousIsOneToN(finalOrdinals, Identity);
    }
    if OneToN(FinalOrdinals(t.evidence), Identity, |FinalOrdinals(t.evidence)|) {
      OneToNAreDistinct(FinalOrdinals(t.evidence));
      SortingOneToN(FinalOrdinals(t.evidence), Identity, |FinalOrdinals(t.evidence)|);
    }
  }

  lemma OneToNAreDistinct(ordinals: seq<nat>)
    requires OneToN(ordinals, Identity, |ordinals|)
    ensures DistinctOrdinals(ordinals)
  {
    forall i, j | 0 <= i < j < |ordinals|
      ensures ordinals[i] != ordinals[j]
    {
      assert Identity(ordinals[i]) != Identity(ordinals[j]);
    }
  }

  // ---------------------------------------------------------------- durable rows pass

  function TraceOf(id: RunId, rows: RunRows): Trace {
    Trace(id,
          seq(|rows.steps|, i requires 0 <= i < |rows.steps| => TraceStep(id, rows.steps[i])),
          seq(|rows.evidence|, i requires 0 <= i < |rows.evidence| => TraceEvidence(id, rows.evidence[i])))
  }

  /** The trace lists the ordinals that the references carry. */
  lemma {:induction false} SameOrdinals(id: RunId, evidence: seq<EvidenceRecord>, listed: seq<TraceEvidence>)
    requires |listed| == |evidence| && forall i :: 0 <= i < |listed| ==> listed[i].item == evidence[i]
    ensures var refs, ordinals := FinalReferences(id, evidence), FinalOrdinals(listed);
      |ordinals| == |refs| && forall i :: 0 <= i < |refs| ==> ordinals[i] == refs[i].ordinal
  {
    if evidence != [] {
      SameOrdinals(id, evidence[..|evidence| - 1], listed[..|listed| - 1]);
    }
  }

  lemma OrdinalsAreOneToN(id: RunId, rows: RunRows)
    requires Consistent(rows)
    ensures var ordinals := FinalOrdinals(TraceOf(id, rows).evidence); OneToN(ordinals, Identity, |ordinals|)
  {
    hide StepsOk, RunRowOk, FinalOrdinals, FinalReferences;
    var ids, refs, ordinals := CitedIds(rows.run), FinalReferences(id, rows.evidence), FinalOrdinals(TraceOf(id, rows).evidence);
    CitedRowsAreOneToN(id, rows.evidence, ids);
    AscendingSize(id, rows, refs);
    SameOrdinals(id, rows.evidence, TraceOf(id, rows).evidence);
    forall k | 1 <= k <= |ids|
      ensures HasKey(ordinals, Identity, k)
    {
      assert HasKey(refs, OrdinalOf, k);
      var i :| 0 <= i < |refs| && OrdinalOf(refs[i]) == k;
      assert Identity(ordinals[i]) == k;
    }
    forall i, j | 0 <= i < j < |ordinals|
      ensures Identity(ordinals[i]) != Identity(ordinals[j])
    {
      assert OrdinalOf(refs[i]) != OrdinalOf(refs[j]);
    }
    forall n | n in ordinals
      ensures 1 <= Identity(n) <= |ids|
    {
      var i :| 0 <= i < |ordinals| && ordinals[i] == n;
      assert refs[i] in refs;
    }
  }

  lemma AscendingSize(id: RunId, rows: RunRows, refs: seq<Reference>)
    requires OneToN(refs, OrdinalOf, |CitedIds(rows.run)|)
    ensures |refs| == |CitedIds(rows.run)|
  {
    SortingOneToN(refs, OrdinalOf, |CitedIds(rows.run)|);
  }

  lemma CompletedToolsAreListed(id: RunId, rows: RunRows, step: StepId)
    requires FromCompletedTool(rows.steps, step)
    ensures CompletedToolIn(TraceOf(id, rows), step)
  {
    var i :| 0 <= i < |rows.steps| && rows.steps[i].id == step && rows.steps[i].kind == ToolCall && rows.steps[i].status == StepCompleted;
    assert TraceOf(id, rows).steps[i].step == rows.steps[i];
  }

  lemma KeysAreDistinct(id: RunId, rows: RunRows)
    requires KeysInOrder(rows.evidence)
    ensures DistinctKeys(TraceOf(id, rows).evidence)
  {
    forall i, j | 0 <= i < j < |rows.evidence|
      ensures rows.evidence[i].key != rows.evidence[j].key
    {
      if rows.evidence[i].key == rows.evidence[j].key {
        EvidenceKeyIsInjective(i + 1, j + 1);
      }
    }
  }

  lemma ShapesAreOk(id: RunId, rows: RunRows)
    requires Consistent(rows)
    ensures ShapesOk(TraceOf(id, rows))
  {
    hide EvidenceKey, UniqueInOrder, FinalReferences;
    var t, ids := TraceOf(id, rows), CitedIds(rows.run);
    forall i | 0 <= i < |rows.steps|
      ensures StepShapeOk(rows.steps[i])
    {
      assert StepRowOk(rows.steps[i]);
    }
    CitedRowsAreOneToN(id, rows.evidence, ids);
    CitationsFit(rows);
    forall i | 0 <= i < |rows.evidence|
      ensures EvidenceShapeOk(rows.evidence[i])
    {
      assert rows.evidence[i].key == EvidenceKey(i + 1);
      EvidenceIdsAreE1ToE32(rows.evidence[i].key);
    }
  }

  /** A stored answer never cites more identifiers than a run may have. */
  lemma CitationsFit(rows: RunRows)
    requires AnswerOk(rows) && RunRowOk(rows.run)
    ensures |CitedIds(rows.run)| <= AGENT_MAX_EVIDENCE
  {
  }

  /** The trace of any consistent run is accepted. */
  lemma ConsistentRunsHaveTraces(id: RunId, rows: RunRows)
    requires Consistent(rows)
    ensures TraceOk(TraceOf(id, rows))
  {
    hide OneToN, FinalOrdinals, ShapesOk, DistinctKeys, CompletedToolIn, FromCompletedTool, RunRowOk, AnswerOk;
    var t := TraceOf(id, rows);
    ShapesAreOk(id, rows);
    OrdinalsAreOneToN(id, rows);
    KeysAreDistinct(id, rows);
    forall i | 0 <= i < |t.evidence|
      ensures EvidenceOfRun(t, i)
    {
      CompletedToolsAreListed(id, rows, rows.evidence[i].stepId);
    }
  }
}
