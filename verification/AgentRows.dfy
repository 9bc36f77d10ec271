/** The durable rows of one Agent run and the invariant its tables are meant to keep (server/db/schema.ts). */
module AgentRows {
  import opened Common
  import opened Utf16
  import opened AgentContracts

  type RunId = nat
  type SpaceId = nat
  type UserId = nat
  type OwnerId = nat
  type StepId = nat
  type DocumentId = nat

  /** Milliseconds. */
  type Time = int

  /**
   * A JSON value: opaque, but with the byte sizes of its UTF-8 serialization and of the text a jsonb column gives back
   * for it. There is none for a value with U+0000 or a lone surrogate in its text, which such a column refuses.
   */
  datatype Json = Json(id: nat, bytes: nat, storedBytes: Option<nat>)

  datatype RunRecord = RunRecord(
    prompt: Json,
    spaceId: SpaceId,
    actorUserId: Option<UserId>,
    toolNames: seq<ToolName>,
    limits: Limits,
    createdAt: Time,
    status: RunStatus,
    stepCount: nat,
    toolCallCount: nat,
    contextBytes: nat,
    leaseOwnerId: Option<OwnerId>,
    leaseGeneration: nat,
    leaseExpiresAt: Option<Time>,
    cancelRequestedAt: Option<Time>,
    cancelRequestedBy: Option<UserId>,
    startedAt: Option<Time>,
    deadlineAt: Option<Time>,
    finishedAt: Option<Time>,
    errorCode: Option<ErrorCode>,
    finalStatus: Option<AnswerStatus>,
    finalAnswer: Option<Text>
  )

  datatype StepRecord = StepRecord(
    id: StepId,
    sequence: nat,
    kind: StepKind,
    status: StepStatus,
    toolName: Option<ToolName>,
    safeArguments: Option<Json>,
    observation: Option<Json>,
    executionCount: nat,
    errorCode: Option<ErrorCode>,
    startedAt: Time,
    completedAt: Option<Time>
  )

  /** What a tool reports as evidence; the source snapshot is opaque but for whether the schema and the table's checks accept it. */
  datatype EvidenceDraft = EvidenceDraft(snapshot: nat, documentId: Option<DocumentId>, storable: bool)

  datatype EvidenceRecord = EvidenceRecord(
    stepId: StepId,
    key: Text,
    source: EvidenceDraft,
    finalOrdinal: Option<nat>
  )

  /** One run with its step rows in sequence order and its evidence rows in key order. */
  datatype RunRows = RunRows(run: RunRecord, steps: seq<StepRecord>, evidence: seq<EvidenceRecord>)

  // ---------------------------------------------------------------- row-level checks

  predicate IsTool(s: StepRecord) {
    s.kind == ToolCall
  }

  function CountTools(steps: seq<StepRecord>): (n: nat)
    ensures n <= |steps|
  {
    if steps == [] then 0
    else CountTools(steps[..|steps| - 1]) + if IsTool(steps[|steps| - 1]) then 1 else 0
  }

  predicate FromCompletedTool(steps: seq<StepRecord>, id: StepId) {
    exists i :: 0 <= i < |steps| && steps[i].id == id && steps[i].kind == ToolCall && steps[i].status == StepCompleted
  }

  predicate HasId(steps: seq<StepRecord>, id: StepId) {
    exists i :: 0 <= i < |steps| && steps[i].id == id
  }

  predicate JsonFits(value: Json) {
    value.storedBytes.Some?
  }

  predicate ObservationFits(value: Json) {
    JsonFits(value) && value.storedBytes.value <= AGENT_OBSERVATION_MAX_BYTES
  }

  /** A text column holds anything but U+0000. */
  predicate TextFits(text: Text) {
    NUL !in text
  }

  /** The column types, and the kind and status checks, of agent_run_steps. */
  predicate StepRowOk(s: StepRecord) {
    && s.executionCount > 0
    && (s.kind == ToolCall <==> s.toolName.Some?)
    && (s.kind == ToolCall <==> s.safeArguments.Some?)
    && (s.safeArguments.Some? ==> JsonFits(s.safeArguments.value))
    && (s.observation.Some? ==> ObservationFits(s.observation.value))
    && (s.observation.Some? <==> s.kind == ToolCall && s.status == StepCompleted)
    && (s.completedAt.None? <==> s.status == StepRunning)
    && (s.errorCode.Some? <==> s.status == StepFailed)
    && (s.kind == FinalAnswer ==> s.status == StepCompleted)
    && (s.kind == DecisionError ==> s.status == StepFailed)
  }

  /** The lease, timing and status checks of agent_runs, and the fixed deadline. */
  predicate RunRowOk(run: RunRecord) {
    && ValidLimits(run.limits)
    && run.stepCount <= run.limits.maxSteps
    && run.toolCallCount <= run.limits.maxToolCalls
    && run.toolCallCount <= run.stepCount
    && run.contextBytes <= run.limits.contextMaxBytes
    && (run.leaseOwnerId.Some? <==> run.status == Running)
    && (run.leaseExpiresAt.Some? <==> run.status == Running)
    && (run.startedAt.Some? <==> run.deadlineAt.Some?)
    && (run.startedAt.Some? ==> run.deadlineAt.value == run.startedAt.value + run.limits.wallTimeSeconds * 1000)
    && (run.leaseExpiresAt.Some? ==> run.deadlineAt.Some? && run.leaseExpiresAt.value <= run.deadlineAt.value)
    && (run.status == Queued ==> run.startedAt.None?)
    && (run.status in {Running, Completed, Failed} ==> run.startedAt.Some?)
    && (run.finishedAt.Some? <==> run.status in {Completed, Failed, Cancelled})
    && (run.errorCode.Some? <==> run.status == Failed)
    && (run.finalStatus.Some? <==> run.status == Completed)
    && (run.finalAnswer.Some? <==> run.status == Completed)
    && (run.finalAnswer.Some? ==> TextFits(run.finalAnswer.value))
    && (run.finalAnswer.Some? ==> 1 <= |run.finalAnswer.value| <= AGENT_FINAL_ANSWER_MAX_CHARACTERS)
    && (run.cancelRequestedBy.Some? ==> run.cancelRequestedAt.Some?)
    && (run.status in {Queued, Completed, Failed} ==> run.cancelRequestedAt.None?)
    && (run.status == Cancelled ==> run.cancelRequestedAt.Some?)
  }

  // ---------------------------------------------------------------- cross-row invariants

  predicate DistinctIds(steps: seq<StepRecord>) {
    forall i, j :: 0 <= i < j < |steps| ==> steps[i].id != steps[j].id
  }

  /** Stored observations fit the run's own limit. */
  predicate ObservationsFit(steps: seq<StepRecord>, limits: Limits) {
    forall i :: 0 <= i < |steps| && steps[i].observation.Some? ==> steps[i].observation.value.bytes <= limits.observationMaxBytes
  }

  predicate StepsOk(rows: RunRows) {
    var run, steps := rows.run, rows.steps;
    && |steps| == run.stepCount
    && CountTools(steps) == run.toolCallCount
    && DistinctIds(steps)
    && (forall i :: 0 <= i < |steps| ==> steps[i].sequence == i + 1 && StepRowOk(steps[i]))
    && (forall i :: 0 <= i < |steps| && steps[i].status == StepRunning ==> i == |steps| - 1 && run.status == Running)
    && (forall i :: 0 <= i < |steps| && steps[i].kind == FinalAnswer ==> i == |steps| - 1 && run.status == Completed)
    && (forall i :: 0 <= i < |steps| && steps[i].kind == DecisionError ==> i == |steps| - 1 && run.status == Failed)
    && (run.status == Completed ==> steps != [] && steps[|steps| - 1].kind == FinalAnswer)
    && (run.status == Queued ==> steps == [])
    && ObservationsFit(steps, run.limits)
  }

  predicate EvidenceOk(rows: RunRows) {
    && |rows.evidence| <= rows.run.limits.maxEvidence
    && (forall i :: 0 <= i < |rows.evidence| ==>
          && rows.evidence[i].key == EvidenceKey(i + 1)
          && FromCompletedTool(rows.steps, rows.evidence[i].stepId))
  }

  /** Some row with this key carries this final ordinal. */
  predicate HasOrdinal(evidence: seq<EvidenceRecord>, key: Text, ordinal: nat) {
    exists i :: 0 <= i < |evidence| && evidence[i].key == key && evidence[i].finalOrdinal == Some(ordinal)
  }

  /** The ordinals on the evidence rows spell out ids, in order and nothing else. */
  predicate Cites(evidence: seq<EvidenceRecord>, ids: seq<Text>) {
    && (forall k :: 0 <= k < |ids| ==> HasOrdinal(evidence, ids[k], k + 1))
    && (forall i :: 0 <= i < |evidence| && evidence[i].finalOrdinal.Some? ==>
          var ordinal := evidence[i].finalOrdinal.value;
          1 <= ordinal <= |ids| && ids[ordinal - 1] == evidence[i].key)
  }

  /** The identifiers the stored answer cites: its markers, once each, in first-appearance order. */
  function CitedIds(run: RunRecord): seq<Text> {
    if run.finalAnswer.Some? then UniqueInOrder(EvidenceMarkers(run.finalAnswer.value)) else []
  }

  predicate AnswerOk(rows: RunRows) {
    && Cites(rows.evidence, CitedIds(rows.run))
    && (rows.run.status == Completed && rows.run.finalStatus.Some? && rows.run.finalAnswer.Some? ==>
          ParseFinalResult(FinalResult(rows.run.finalStatus.value, rows.run.finalAnswer.value, CitedIds(rows.run)))
          == Some(FinalResult(rows.run.finalStatus.value, rows.run.finalAnswer.value, CitedIds(rows.run))))
  }

  /** Everything the tables promise about one run. */
  predicate Consistent(rows: RunRows) {
    RunRowOk(rows.run) && StepsOk(rows) && EvidenceOk(rows) && AnswerOk(rows)
  }
}
