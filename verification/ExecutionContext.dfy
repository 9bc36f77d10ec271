/** The decision context a provider sees, rebuilt from durable rows or extended by one call (server/modules/agents/execution-context.ts). */
module ExecutionContext {
  import opened Common
  import opened Utf16
  import opened AgentContracts
  import opened AgentRows

  datatype CompletedCall = CompletedCall(
    sequence: nat, toolName: ToolName, safeArguments: Json, observation: Json, evidenceIds: seq<Text>)

  datatype DecisionContext = DecisionContext(taskPrompt: Json, completedToolCalls: seq<CompletedCall>)

  datatype Projection = Projection(
    context: DecisionContext,
    contextBytes: nat,
    evidenceCount: nat,
    persistedStepCount: nat,
    maxEvidence: nat,
    contextMaxBytes: nat
  )

  datatype ToolResult = ToolResult(observation: Json, evidence: seq<EvidenceDraft>)

  // ---------------------------------------------------------------- the serialized context

  function NameText(name: ToolName): string {
    match name
    case SearchArxiv => "search_arxiv"
    case SearchKnowledgeBase => "search_knowledge_base"
    case AskKnowledge => "ask_knowledge"
  }

  /** Stands for text whose size alone matters: opaque JSON, and the ASCII digits and identifiers of this file. */
  function Filler(bytes: nat): (r: string)
    ensures |r| == bytes
  {
    seq(bytes, _ => '.')
  }

  function Quoted(s: string): string {
    "\"" + s + "\""
  }

  function IdsText(ids: seq<Text>): string {
    if ids == [] then ""
    else IdsText(ids[..|ids| - 1]) + (if |ids| > 1 then "," else "") + Quoted(Filler(|ids[|ids| - 1]|))
  }

  function CallText(call: CompletedCall): string {
    "{\"sequence\":" + Filler(|Decimal(call.sequence)|)
    + ",\"toolName\":" + Quoted(NameText(call.toolName))
    + ",\"safeArguments\":" + Filler(call.safeArguments.bytes)
    + ",\"observation\":" + Filler(call.observation.bytes)
    + ",\"evidenceIds\":[" + IdsText(call.evidenceIds) + "]}"
  }

  function CallsText(calls: seq<CompletedCall>): string {
    if calls == [] then ""
    else CallsText(calls[..|calls| - 1]) + (if |calls| > 1 then "," else "") + CallText(calls[|calls| - 1])
  }

  function ContextText(context: DecisionContext): string {
    "{\"taskPrompt\":" + Filler(context.taskPrompt.bytes) + ",\"completedToolCalls\":[" + CallsText(context.completedToolCalls) + "]}"
  }

  // ---------------------------------------------------------------- and its size

  function NameBytes(name: ToolName): nat {
    match name
    case SearchArxiv => 12
    case SearchKnowledgeBase => 21
    case AskKnowledge => 13
  }

  /** The quoted identifiers and the commas between them. */
  function IdsBytes(ids: seq<Text>): nat {
    if ids == [] then 0
    else IdsBytes(ids[..|ids| - 1]) + |ids[|ids| - 1]| + 2 + if |ids| > 1 then 1 else 0
  }

  function CallBytes(call: CompletedCall): nat {
    12 + |Decimal(call.sequence)| + 14 + NameBytes(call.toolName) + 17 + call.safeArguments.bytes
    + 15 + call.observation.bytes + 16 + IdsBytes(call.evidenceIds) + 2
  }

  function CallsBytes(calls: seq<CompletedCall>): nat {
    if calls == [] then 0
    else CallsBytes(calls[..|calls| - 1]) + CallBytes(calls[|calls| - 1]) + if |calls| > 1 then 1 else 0
  }

  function ContextBytes(context: DecisionContext): nat {
    14 + context.taskPrompt.bytes + 23 + CallsBytes(context.completedToolCalls) + 2
  }

  lemma {:induction false} IdsTextLength(ids: seq<Text>)
    ensures |IdsText(ids)| == IdsBytes(ids)
  {
    if ids != [] {
      IdsTextLength(ids[..|ids| - 1]);
    }
  }

  lemma CallTextLength(call: CompletedCall)
    ensures |CallText(call)| == CallBytes(call)
  {
    hide IdsText, IdsBytes, Decimal, Filler;
    IdsTextLength(call.evidenceIds);
  }

  lemma {:induction false} CallsTextLength(calls: seq<CompletedCall>)
    ensures |CallsText(calls)| == CallsBytes(calls)
  {
    hide CallText, CallBytes;
    if calls != [] {
      CallsTextLength(calls[..|calls| - 1]);
      CallTextLength(calls[|calls| - 1]);
    }
  }

  /** The size is that of the serialization: every character but those of opaque JSON is ASCII, so characters count bytes. */
  lemma ContextBytesMeasureTheText(context: DecisionContext)
    ensures |ContextText(context)| == ContextBytes(context)
  {
    hide CallsText, CallsBytes, Filler;
    CallsTextLength(context.completedToolCalls);
  }

  // ---------------------------------------------------------------- validating the rows

  /** The rows are numbered 1..stepCount, the tool calls are counted, and only the last step may run. */
  predicate StepOrderOk(state: RunRows) {
    var run, steps := state.run, state.steps;
    && run.status == Running
    && |steps| == run.stepCount
    && (forall i :: 0 <= i < |steps| ==> steps[i].sequence == i + 1)
    && (forall i :: 0 <= i < |steps| && steps[i].status == StepRunning ==> steps[i].kind == ToolCall && i == |steps| - 1)
    && CountTools(steps) == run.toolCallCount
  }

  type TaskId = nat

  /** What a worker has loaded: the rows, and the identifiers of the run, its task and the rows' runs. */
  datatype LoadedState = LoadedState(
    rows: RunRows, runId: RunId, runTaskId: TaskId, taskId: TaskId, taskSpaceId: SpaceId, stepRunIds: seq<RunId>, evidenceRunIds: seq<RunId>)
  {
    predicate Valid() {
      |stepRunIds| == |rows.steps| && |evidenceRunIds| == |rows.evidence|
    }

    /** The task is the run's own, and so is every step. */
    predicate OwnSteps() {
      && taskId == runTaskId && taskSpaceId == rows.run.spaceId
      && forall i :: 0 <= i < |stepRunIds| ==> stepRunIds[i] == runId
    }

    predicate OwnEvidence() {
      forall i :: 0 <= i < |evidenceRunIds| ==> evidenceRunIds[i] == runId
    }
  }

  /** validateStepOrder, with its two counters. */
  method ValidateStepOrder(state: LoadedState) returns (ok: bool)
    requires state.Valid()
    ensures ok <==> state.OwnSteps() && StepOrderOk(state.rows)
  {
    var run, steps := state.rows.run, state.rows.steps;
    if run.status != Running || state.taskId != state.runTaskId || state.taskSpaceId != run.spaceId || |steps| != run.stepCount {
      return false;
    }
    var toolCallCount, runningCount := 0, 0;
    for index := 0 to |steps|
      invariant toolCallCount == CountTools(steps[..index])
      invariant forall i :: 0 <= i < index ==> steps[i].sequence == i + 1 && state.stepRunIds[i] == state.runId
      invariant forall i :: 0 <= i < index && steps[i].status == StepRunning ==> steps[i].kind == ToolCall && i == |steps| - 1
      invariant runningCount <= 1 && (runningCount == 1 ==> index == |steps|)
    {
      var step := steps[index];
      assert steps[..index + 1][..index] == steps[..index];
      if state.stepRunIds[index] != state.runId || step.sequence != index + 1 {
        return false;
      }
      if step.kind == ToolCall {
        toolCallCount := toolCallCount + 1;
      }
      if step.status == StepRunning {
        runningCount := runningCount + 1;
        if step.kind != ToolCall || index != |steps| - 1 {
          return false;
        }
      }
    }
    assert steps[..|steps|] == steps;
    ok := toolCallCount == run.toolCallCount && runningCount <= 1;
  }

  /** The keys of the rows that belong to one step, in key order. */
  function KeysOf(evidence: seq<EvidenceRecord>, id: StepId): (r: seq<Text>)
    ensures |r| <= |evidence|
    ensures forall key :: key in r ==> exists i :: 0 <= i < |evidence| && evidence[i].stepId == id && evidence[i].key == key
  {
    if evidence == [] then []
    else
      var front, last := evidence[..|evidence| - 1], evidence[|evidence| - 1];
      KeysOf(front, id) + if last.stepId == id then [last.key] else []
  }

  /** Keys E1, E2, … in order, each from a completed tool step. */
  predicate EvidenceOrderOk(state: RunRows) {
    forall i :: 0 <= i < |state.evidence| ==> EvidenceRowOk(state, i)
  }

  /** The key is one of E1 to En. */
  ghost predicate KeyUpTo(key: Text, n: nat) {
    exists m: nat :: m <= n && key == EvidenceKey(m)
  }

  lemma NextKeyIsNew(seen: set<Text>, n: nat)
    requires forall key :: key in seen ==> KeyUpTo(key, n)
    ensures EvidenceKey(n + 1) !in seen
  {
    if EvidenceKey(n + 1) in seen {
      var m: nat :| m <= n && EvidenceKey(n + 1) == EvidenceKey(m);
      EvidenceKeyIsInjective(m, n + 1);
    }
  }

  lemma KeysOfOneMore(evidence: seq<EvidenceRecord>, index: nat, id: StepId)
    requires index < |evidence|
    ensures KeysOf(evidence[..index + 1], id)
         == KeysOf(evidence[..index], id) + if evidence[index].stepId == id then [evidence[index].key] else []
  {
    assert evidence[..index + 1][..index] == evidence[..index];
  }

  predicate EvidenceRowOk(state: RunRows, i: nat)
    requires i < |state.evidence|
  {
    var item := state.evidence[i];
    item.key == EvidenceKey(i + 1) && IsEvidenceId(item.key) && FromCompletedTool(state.steps, item.stepId)
  }

  /** The keys a map holds for one step. */
  function KeysFor(byStep: map<StepId, seq<Text>>, id: StepId): seq<Text> {
    if id in byStep then byStep[id] else []
  }

  /** validateEvidence, with its map from steps to keys. */
  method ValidateEvidence(loaded: LoadedState) returns (r: Result<map<StepId, seq<Text>>, ErrorCode>)
    requires loaded.Valid()
    ensures var state := loaded.rows;
      && (r == Err(EvidenceLimit) <==> |state.evidence| > state.run.limits.maxEvidence)
      && (r.Ok? <==> |state.evidence| <= state.run.limits.maxEvidence && loaded.OwnEvidence() && EvidenceOrderOk(state))
      && (r.Err? ==> r.error in {EvidenceLimit, PersistenceFailed})
      && (r.Ok? ==> forall id :: KeysFor(r.value, id) == KeysOf(state.evidence, id))
  {
    hide KeysOf, KeyUpTo, FromCompletedTool, IsEvidenceId;
    var state := loaded.rows;
    if |state.evidence| > state.run.limits.maxEvidence {
      return Err(EvidenceLimit);
    }
    var byStep: map<StepId, seq<Text>>, seen: set<Text> := map[], {};
    NoKeysAtFirst(state.evidence);
    for index := 0 to |state.evidence|
      invariant forall i :: 0 <= i < index ==> EvidenceRowOk(state, i) && loaded.evidenceRunIds[i] == loaded.runId
      invariant forall key :: key in seen ==> KeyUpTo(key, index)
      invariant forall id :: KeysFor(byStep, id) == KeysOf(state.evidence[..index], id)
    {
      var item := state.evidence[index];
      NextKeyIsNew(seen, index);
      if loaded.evidenceRunIds[index] != loaded.runId {
        return Err(PersistenceFailed);
      }
      if item.key != EvidenceKey(index + 1) || !IsEvidenceId(item.key) || item.key in seen || !FromCompletedTool(state.steps, item.stepId) {
        assert !EvidenceRowOk(state, index);
        return Err(PersistenceFailed);
      }
      forall key | KeyUpTo(key, index) || key == item.key
        ensures KeyUpTo(key, index + 1)
      {
        OneKeyMore(key, index);
      }
      seen := seen + {item.key};
      ghost var before := byStep;
      byStep := byStep[item.stepId := KeysFor(byStep, item.stepId) + [item.key]];
      forall id
        ensures KeysFor(byStep, id) == KeysOf(state.evidence[..index + 1], id)
      {
        KeysOfOneMore(state.evidence, index, id);
        assert KeysFor(before, id) == KeysOf(state.evidence[..index], id);
      }
    }
    assert state.evidence[..|state.evidence|] == state.evidence;
    r := Ok(byStep);
  }

  lemma OneKeyMore(key: Text, n: nat)
    requires KeyUpTo(key, n) || key == EvidenceKey(n + 1)
    ensures KeyUpTo(key, n + 1)
  {
    if KeyUpTo(key, n) {
      var m: nat :| m <= n && key == EvidenceKey(m);
      assert m <= n + 1;
    }
  }

  lemma NoKeysAtFirst(evidence: seq<EvidenceRecord>)
    ensures forall id :: KeysOf(evidence[..0], id) == []
  {
  }

  // ---------------------------------------------------------------- buildAgentDecisionContext

  predicate IsCompletedTool(step: StepRecord) {
    step.kind == ToolCall && step.status == StepCompleted
  }

  predicate CompletedFieldsOk(step: StepRecord) {
    step.toolName.Some? && step.safeArguments.Some? && step.observation.Some?
  }

  predicate FieldsOk(steps: seq<StepRecord>) {
    forall i :: 0 <= i < |steps| && IsCompletedTool(steps[i]) ==> CompletedFieldsOk(steps[i])
  }

  /** The finished calls, in step order, each with its own evidence identifiers. */
  function CompletedCalls(steps: seq<StepRecord>, evidence: seq<EvidenceRecord>): (r: seq<CompletedCall>)
    requires FieldsOk(steps)
    ensures |r| <= CountTools(steps)
  {
    if steps == [] then []
    else
      var front, last := steps[..|steps| - 1], steps[|steps| - 1];
      assert IsCompletedTool(last) ==> CompletedFieldsOk(steps[|steps| - 1]);
      assert FieldsOk(front) by { assert forall i :: 0 <= i < |front| ==> front[i] == steps[i]; }
      CompletedCalls(front, evidence)
      + if IsCompletedTool(last)
        then [CompletedCall(last.sequence, last.toolName.value, last.safeArguments.value, last.observation.value, KeysOf(evidence, last.id))]
        else []
  }

  /** agentDecisionContextSchema accepts the calls. */
  predicate CallsOk(calls: seq<CompletedCall>) {
    && |calls| <= AGENT_MAX_TOOL_CALLS
    && (forall i :: 0 <= i < |calls| ==>
          && 1 <= calls[i].sequence <= AGENT_MAX_STEPS
          && calls[i].observation.bytes <= AGENT_OBSERVATION_MAX_BYTES
          && |calls[i].evidenceIds| <= AGENT_MAX_EVIDENCE
          && NoDuplicates(calls[i].evidenceIds)
          && (forall id :: id in calls[i].evidenceIds ==> IsEvidenceId(id)))
    && (forall i, j :: 0 <= i < j < |calls| ==> calls[i].sequence < calls[j].sequence)
    && (forall i, j, id :: 0 <= i < j < |calls| && id in calls[i].evidenceIds ==> id !in calls[j].evidenceIds)
  }

  function FinalizeProjection(p: Projection): (r: Result<Projection, ErrorCode>)
    ensures r.Ok? ==> r.value.context == p.context && r.value.contextBytes == ContextBytes(p.context) <= p.contextMaxBytes
  {
    if !CallsOk(p.context.completedToolCalls) then Err(PersistenceFailed)
    else if ContextBytes(p.context) > p.contextMaxBytes then Err(ContextLimit)
    else Ok(p.(contextBytes := ContextBytes(p.context)))
  }

  predicate HasTerminalTool(steps: seq<StepRecord>) {
    exists i :: 0 <= i < |steps| && steps[i].kind == ToolCall && steps[i].status != StepRunning
  }

  function ProjectionOf(state: RunRows): Projection
    requires FieldsOk(state.steps)
  {
    Projection(
      DecisionContext(state.run.prompt, CompletedCalls(state.steps, state.evidence)),
      0, |state.evidence|, state.run.stepCount, state.run.limits.maxEvidence, state.run.limits.contextMaxBytes)
  }

  function BuildDecisionContext(state: RunRows): Result<Projection, ErrorCode> {
    if !StepOrderOk(state) then Err(PersistenceFailed)
    else if |state.evidence| > state.run.limits.maxEvidence then Err(EvidenceLimit)
    else if !EvidenceOrderOk(state) then Err(PersistenceFailed)
    else if !FieldsOk(state.steps) then Err(PersistenceFailed)
    else
      match FinalizeProjection(ProjectionOf(state))
      case Err(e) => Err(e)
      case Ok(projection) =>
        if state.run.contextBytes != (if HasTerminalTool(state.steps) then projection.contextBytes else 0)
        then Err(PersistenceFailed)
        else Ok(projection)
  }

  lemma NoCallYet(steps: seq<StepRecord>, evidence: seq<EvidenceRecord>)
    ensures FieldsOk(steps[..0]) && CompletedCalls(steps[..0], evidence) == []
  {
  }

  /** One step more, one call more if it has been completed. */
  lemma CallsOfOneMore(steps: seq<StepRecord>, index: nat, evidence: seq<EvidenceRecord>)
    requires index < |steps| && FieldsOk(steps[..index]) && (IsCompletedTool(steps[index]) ==> CompletedFieldsOk(steps[index]))
    ensures FieldsOk(steps[..index + 1])
    ensures CompletedCalls(steps[..index + 1], evidence)
         == CompletedCalls(steps[..index], evidence)
            + if IsCompletedTool(steps[index])
              then [CompletedCall(steps[index].sequence, steps[index].toolName.value, steps[index].safeArguments.value,
                                  steps[index].observation.value, KeysOf(evidence, steps[index].id))]
              else []
  {
    var next := steps[..index + 1];
    assert next[..index] == steps[..index];
    forall i | 0 <= i < |next| && IsCompletedTool(next[i])
      ensures CompletedFieldsOk(next[i])
    {
      if i < index {
        assert steps[..index][i] == next[i];
      }
    }
  }

  /** The completed calls, read off the steps one by one; a completed step without its fields is corrupt. */
  method CollectCalls(steps: seq<StepRecord>, evidence: seq<EvidenceRecord>, byStep: map<StepId, seq<Text>>)
    returns (r: Option<seq<CompletedCall>>)
    requires forall id :: KeysFor(byStep, id) == KeysOf(evidence, id)
    ensures r.Some? <==> FieldsOk(steps)
    ensures r.Some? ==> r.value == CompletedCalls(steps, evidence)
  {
    hide KeysOf, KeysFor, CompletedCalls;
    var calls: seq<CompletedCall> := [];
    NoCallYet(steps, evidence);
    for index := 0 to |steps|
      invariant FieldsOk(steps[..index]) && calls == CompletedCalls(steps[..index], evidence)
    {
      var step := steps[index];
      if IsCompletedTool(step) {
        if !CompletedFieldsOk(step) {
          return None;
        }
        calls := calls + [CompletedCall(step.sequence, step.toolName.value, step.safeArguments.value, step.observation.value, KeysFor(byStep, step.id))];
      }
      CallsOfOneMore(steps, index, evidence);
    }
    assert steps[..|steps|] == steps;
    r := Some(calls);
  }

  /** The loops and the map compute the projection that the rows define, once the rows are known to be the run's own. */
  method BuildAgentDecisionContext(state: LoadedState) returns (r: Result<Projection, ErrorCode>)
    requires state.Valid()
    ensures r == if state.OwnSteps() && (state.OwnEvidence() || |state.rows.evidence| > state.rows.run.limits.maxEvidence)
                 then BuildDecisionContext(state.rows) else Err(PersistenceFailed)
  {
    hide StepOrderOk, EvidenceOrderOk, KeysOf, KeysFor, CompletedCalls, FieldsOk, FinalizeProjection, HasTerminalTool;
    var run := state.rows.run;
    var ordered := ValidateStepOrder(state);
    if !ordered {
      return Err(PersistenceFailed);
    }
    var byStep := ValidateEvidence(state);
    if byStep.Err? {
      return Err(byStep.error);
    }
    var calls := CollectCalls(state.rows.steps, state.rows.evidence, byStep.value);
    if calls.None? {
      return Err(PersistenceFailed);
    }
    r := FinalizeProjection(
      Projection(DecisionContext(run.prompt, calls.value), 0, |state.rows.evidence|, run.stepCount, run.limits.maxEvidence, run.limits.contextMaxBytes));
    if r.Ok? && run.contextBytes != (if HasTerminalTool(state.rows.steps) then r.value.contextBytes else 0) {
      r := Err(PersistenceFailed);
    }
  }

  // ---------------------------------------------------------------- appendCompletedToolCall

  function PredictedIds(evidenceCount: nat, n: nat): (r: seq<Text>)
    ensures |r| == n
    ensures forall i :: 0 <= i < n ==> r[i] == EvidenceKey(evidenceCount + i + 1)
  {
    seq(n, i requires 0 <= i < n => EvidenceKey(evidenceCount + i + 1))
  }

  function AppendCompletedToolCall(p: Projection, step: StepRecord, result: ToolResult): Result<Projection, ErrorCode> {
    if || result.observation.bytes > AGENT_OBSERVATION_MAX_BYTES || |result.evidence| > AGENT_MAX_EVIDENCE
       || step.kind != ToolCall || step.status !in {StepRunning, StepCompleted} || step.sequence != p.persistedStepCount
       || step.toolName.None? || step.safeArguments.None?
    then Err(PersistenceFailed)
    else if p.evidenceCount + |result.evidence| > p.maxEvidence then Err(EvidenceLimit)
    else
      var call := CompletedCall(step.sequence, step.toolName.value, step.safeArguments.value, result.observation,
                                PredictedIds(p.evidenceCount, |result.evidence|));
      FinalizeProjection(p.(
        context := p.context.(completedToolCalls := p.context.completedToolCalls + [call]),
        evidenceCount := p.evidenceCount + |result.evidence|))
  }

  // ---------------------------------------------------------------- the context the rows stand for

  /** The stored byte count is the size of the context the rows spell out, or 0 before any tool step has ended. */
  predicate ContextExact(state: RunRows) {
    && FieldsOk(state.steps)
    && state.run.contextBytes ==
       if HasTerminalTool(state.steps) then ContextBytes(ProjectionOf(state).context) else 0
  }
}
