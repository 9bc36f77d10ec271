/** What passes every check of the application and is refused by the columns it is stored in (server/db/schema.ts). */
module ColumnLimits {
  import opened Common
  import opened Utf16
  import opened AgentContracts
  import opened AgentRows
  import opened AgentTransactions
  import opened AgentInvariant
  import opened AgentStateRules
  import opened AgentDatabase
  import opened ExecutionContext
  import opened ContextRoundTrip
  import opened ExecutorWrites

  // ---------------------------------------------------------------- tool results

  lemma LastStepIsFound(rows: RunRows)
    requires Consistent(rows) && rows.run.status == Running
    requires rows.steps != [] && rows.steps[|rows.steps| - 1].status == StepRunning
    ensures RunningTool(rows.steps, rows.steps[|rows.steps| - 1].id) == Some(|rows.steps| - 1)
  {
    hide EvidenceOk, AnswerOk, RunRowOk;
  }

  /**
   * A result that passed every check of the executor, under a live lease and with its documents in the space, is stored
   * if and only if its drafts are accepted, the jsonb column takes the observation, and the text kept for it fits;
   * otherwise the transaction throws and the step stays running. The application's limit is on the serialization.
   */
  lemma CheckedResultsAreStoredIff(rows: RunRows, member: bool, fence: Fence, p: Projection, result: ToolResult, q: Projection, now: Time)
    requires Consistent(rows) && Appends(rows, p, result, q) && ReadExecutionState(rows, member, fence, now).StateRead?
    requires result.observation.bytes <= rows.run.limits.observationMaxBytes
    ensures var input := CompletionOf(rows, result, q, true);
      var (after, r) := CompleteToolStep(rows, member, fence, input, now);
      && (r.ToolStepCompleted? <==> RowsAccept(input))
      && (!RowsAccept(input) ==> r.CompleteToolThrew? && after == rows)
  {
    hide Consistent, BuildDecisionContext, AppendCompletedToolCall;
    AppendPredicts(rows, p, result, q);
    LastStepIsFound(rows);
  }

  const WORKER := Fence(5, 1)

  /** A run of this request that worker 5 has claimed. */
  function ClaimedRows(request: NewRun): RunRows {
    Apply(FreshRows(request), {request.actor}, Claim(5, 60000), 0)
  }

  /** That run with its first step reserved. */
  function ReservedRows(request: NewRun, arguments: Json): RunRows
    requires request.toolNames != []
  {
    Apply(ClaimedRows(request), {request.actor}, Reserve(WORKER, ReserveInput(1, request.toolNames[0], arguments, None, false)), 0)
  }

  /** Any request the application accepts, with the default limits: prompts and arguments are far smaller than this. */
  predicate Ordinary(request: NewRun, arguments: Json) {
    && request.limits == AGENT_EXECUTION_LIMITS && request.toolNames != []
    && request.prompt.bytes + arguments.bytes <= 98_000 && JsonFits(arguments)
  }

  lemma ReservedShape(request: NewRun, arguments: Json)
    requires Ordinary(request, arguments)
    ensures var rows := ReservedRows(request, arguments);
      && rows.steps == [NewToolStep(ReserveInput(1, request.toolNames[0], arguments, None, false), 1, 0)]
      && rows.evidence == [] && rows.run.contextBytes == 0 && rows.run.stepCount == 1 && rows.run.prompt == request.prompt
      && rows.run.limits == AGENT_EXECUTION_LIMITS
      && ReadExecutionState(rows, true, WORKER, 0).StateRead?
  {
  }

  lemma ReservedIsConsistent(request: NewRun, arguments: Json)
    requires Ordinary(request, arguments)
    ensures Consistent(ReservedRows(request, arguments))
  {
    hide Apply, Consistent;
    FreshRowsAreConsistent(request);
    TransactionsKeepConsistent(FreshRows(request), {request.actor}, Claim(5, 60000), 0);
    TransactionsKeepConsistent(
      ClaimedRows(request), {request.actor}, Reserve(WORKER, ReserveInput(1, request.toolNames[0], arguments, None, false)), 0);
  }

  lemma FreshRowsAreConsistent(request: NewRun)
    requires request.limits == AGENT_EXECUTION_LIMITS
    ensures Consistent(FreshRows(request))
  {
    FreshRowsAreSound(request);
  }

  lemma NothingIsProjected(request: NewRun, arguments: Json)
    requires Ordinary(request, arguments)
    ensures BuildDecisionContext(ReservedRows(request, arguments))
         == Ok(Projection(DecisionContext(request.prompt, []), 39 + request.prompt.bytes, 0, 1, AGENT_MAX_EVIDENCE, AGENT_CONTEXT_MAX_BYTES))
  {
    hide ReservedRows, Consistent, BuildDecisionContext;
    var rows := ReservedRows(request, arguments);
    ReservedShape(request, arguments);
    ReservedIsConsistent(request, arguments);
    assert rows.steps[..0] == [];
    assert CompletedCalls(rows.steps, rows.evidence) == [];
    ProjectionIsNeverCorrupt(rows);
  }

  /** One call without evidence, in a context that has no other. */
  lemma OneCallFits(request: NewRun, arguments: Json, observation: Json)
    requires Ordinary(request, arguments) && observation.bytes <= AGENT_OBSERVATION_MAX_BYTES
    ensures var call := CompletedCall(1, request.toolNames[0], arguments, observation, []);
      CallsOk([call]) && ContextBytes(DecisionContext(request.prompt, [call])) <= AGENT_CONTEXT_MAX_BYTES
  {
    var call := CompletedCall(1, request.toolNames[0], arguments, observation, []);
    assert [call][..0] == [];
    assert CallsBytes([call]) == CallBytes(call);
  }

  /** The first call of such a run can be appended, whatever it observed within the limit. */
  lemma FirstCallIsAppended(request: NewRun, arguments: Json, observation: Json)
    requires Ordinary(request, arguments) && observation.bytes <= AGENT_OBSERVATION_MAX_BYTES
    ensures var rows := ReservedRows(request, arguments);
      && rows.steps != [] && BuildDecisionContext(rows).Ok?
      && AppendCompletedToolCall(BuildDecisionContext(rows).value, rows.steps[0], ToolResult(observation, [])).Ok?
  {
    hide ReservedRows, BuildDecisionContext, CallsOk, ContextBytes;
    ReservedShape(request, arguments);
    NothingIsProjected(request, arguments);
    OneCallFits(request, arguments, observation);
    assert PredictedIds(0, 0) == [];
    assert [] + [CompletedCall(1, request.toolNames[0], arguments, observation, [])]
        == [CompletedCall(1, request.toolNames[0], arguments, observation, [])];
  }

  /**
   * So whatever a first call observed within the application's limit, its completion throws, with nothing changed, if
   * the column does not take it.
   */
  lemma RefusedObservationsThrow(request: NewRun, arguments: Json, observation: Json)
    requires Ordinary(request, arguments) && observation.bytes <= AGENT_OBSERVATION_MAX_BYTES && !ObservationFits(observation)
    ensures var rows, result := ReservedRows(request, arguments), ToolResult(observation, []);
      && rows.steps != [] && BuildDecisionContext(rows).Ok?
      && var p := BuildDecisionContext(rows).value;
         var appended := AppendCompletedToolCall(p, rows.steps[0], result);
         appended.Ok? && CompleteToolStep(rows, true, WORKER, CompletionOf(rows, result, appended.value, true), 0) == (rows, CompleteToolThrew)
  {
    hide ReservedRows, Consistent, BuildDecisionContext, AppendCompletedToolCall, CompleteToolStep;
    var rows, result := ReservedRows(request, arguments), ToolResult(observation, []);
    ReservedShape(request, arguments);
    ReservedIsConsistent(request, arguments);
    FirstCallIsAppended(request, arguments, observation);
    var p := BuildDecisionContext(rows).value;
    var q := AppendCompletedToolCall(p, rows.steps[0], result).value;
    CheckedResultsAreStoredIff(rows, true, WORKER, p, result, q, 0);
  }

  function Request(tool: ToolName): NewRun {
    NewRun(Json(1, 40, Some(40)), 3, 7, [tool], AGENT_EXECUTION_LIMITS, 0)
  }

  function FirstCompletion(tool: ToolName, observation: Json): (RunRows, CompleteToolResult)
    requires observation.bytes <= AGENT_OBSERVATION_MAX_BYTES
  {
    var rows, result := ReservedRows(Request(tool), Json(2, 30, Some(32))), ToolResult(observation, []);
    FirstCallIsAppended(Request(tool), Json(2, 30, Some(32)), observation);
    var q := AppendCompletedToolCall(BuildDecisionContext(rows).value, rows.steps[0], result).value;
    CompleteToolStep(rows, true, WORKER, CompletionOf(rows, result, q, true), 0)
  }

  /** A search result of 32,700 bytes of long multi-byte texts, stored with one space after each of a hundred colons and commas. */
  lemma StoredTextMayBeTooLong()
    ensures FirstCompletion(SearchArxiv, Json(4, 32700, Some(32800))) == (ReservedRows(Request(SearchArxiv), Json(2, 30, Some(32))), CompleteToolThrew)
  {
    hide ReservedRows, BuildDecisionContext, AppendCompletedToolCall, CompleteToolStep;
    RefusedObservationsThrow(Request(SearchArxiv), Json(2, 30, Some(32)), Json(4, 32700, Some(32800)));
  }

  /** A short answer with U+0000 between two letters: the jsonb column refuses it. */
  lemma ObservationMayBeRefused()
    ensures FirstCompletion(AskKnowledge, Json(4, 120, None)) == (ReservedRows(Request(AskKnowledge), Json(2, 30, Some(32))), CompleteToolThrew)
  {
    hide ReservedRows, BuildDecisionContext, AppendCompletedToolCall, CompleteToolStep;
    RefusedObservationsThrow(Request(AskKnowledge), Json(2, 30, Some(32)), Json(4, 120, None));
  }

  // ---------------------------------------------------------------- final answers

  /** The table takes the answer's step, and the text column its answer. */
  predicate AnswerFits(rows: RunRows, input: CompleteRunInput, answer: Text) {
    !HasId(rows.steps, input.finalStepId) && !input.idTaken && TextFits(answer)
  }

  lemma ReadersPassTheGate(rows: RunRows, member: bool, fence: Fence, now: Time)
    requires ReadExecutionState(rows, member, fence, now).StateRead?
    ensures EndingGate(rows.run, member, fence, now) == Open && rows.run.status == Running
  {
  }

  lemma NoFinalAnswerYet(rows: RunRows)
    requires Consistent(rows) && rows.run.status == Running
    ensures !HasFinalAnswer(rows.steps)
  {
  }

  lemma ParsedAnswersAreStoredIff(rows: RunRows, member: bool, fence: Fence, input: CompleteRunInput, result: FinalResult, now: Time)
    requires EndingGate(rows.run, member, fence, now) == Open && rows.run.stepCount < rows.run.limits.maxSteps
    requires LastRunning(rows.steps).None? && !HasFinalAnswer(rows.steps) && AllCitable(rows, result.evidenceIds)
    ensures PublishParsed(rows, member, fence, input.finalStepId, input.idTaken, result, now)
         == if AnswerFits(rows, input, result.answer) then (Published(rows, input.finalStepId, result, now), RunCompleted) else (rows, CompleteRunThrew)
  {
    hide AllCitable, HasId, HasFinalAnswer, LastRunning, Published, EndingGate, TextFits;
  }

  /**
   * An answer that parses and cites nothing foreign, under a live lease, with no step running and a step left, is
   * published if and only if it has no U+0000 and its step's identifier is new; otherwise the transaction throws.
   */
  lemma CheckedAnswersAreStoredIff(rows: RunRows, member: bool, fence: Fence, input: CompleteRunInput, now: Time)
    requires Consistent(rows) && rows.run.stepCount < rows.run.limits.maxSteps && ReadExecutionState(rows, member, fence, now).StateRead?
    requires LastRunning(rows.steps).None? && ParseFinalResult(input.finalResult).Some?
    requires AllCitable(rows, ParseFinalResult(input.finalResult).value.evidenceIds)
    ensures var fits := AnswerFits(rows, input, ParseFinalResult(input.finalResult).value.answer);
      var (after, r) := CompleteRun(rows, member, fence, input, now);
      && (r.RunCompleted? <==> fits)
      && (!fits ==> r.CompleteRunThrew? && after == rows)
  {
    hide ParseFinalResult, Trim, AllCitable, LastRunning, Consistent, ReadExecutionState, PublishParsed, AnswerFits;
    ReadersPassTheGate(rows, member, fence, now);
    NoFinalAnswerYet(rows);
    ParsedAnswersAreStoredIff(rows, member, fence, input, ParseFinalResult(input.finalResult).value, now);
  }

  lemma NulParses()
    ensures var raw := FinalResult(InsufficientContext, [0x61, NUL, 0x62], []); ParseFinalResult(raw) == Some(raw)
  {
    var answer: Text := [0x61, NUL, 0x62];
    assert Trim(answer) == answer;
    assert EvidenceMarkers(answer, 2) == [];
    assert EvidenceMarkers(answer, 1) == [];
  }

  lemma ClaimedShape(request: NewRun)
    requires request.limits == AGENT_EXECUTION_LIMITS
    ensures var rows := ClaimedRows(request);
      && rows.steps == [] && rows.evidence == [] && Consistent(rows) && rows.run.stepCount == 0 && rows.run.limits == AGENT_EXECUTION_LIMITS
      && ReadExecutionState(rows, true, WORKER, 0).StateRead?
  {
    FreshRowsAreConsistent(request);
    TransactionsKeepConsistent(FreshRows(request), {request.actor}, Claim(5, 60000), 0);
  }

  /** Such an answer: U+0000 between two letters, as an insufficient-context answer to a run that has just been claimed. */
  lemma AnswerMayBeRefused()
    ensures var rows := ClaimedRows(Request(AskKnowledge));
      var raw := FinalResult(InsufficientContext, [0x61, NUL, 0x62], []);
      ParseFinalResult(raw) == Some(raw) && CompleteRun(rows, true, WORKER, CompleteRunInput(1, raw, false), 0) == (rows, CompleteRunThrew)
  {
    hide ParseFinalResult, Trim, ClaimedRows, Consistent, CompleteRun, ReadExecutionState;
    var raw := FinalResult(InsufficientContext, [0x61, NUL, 0x62], []);
    NulParses();
    ClaimedShape(Request(AskKnowledge));
    assert raw.answer[1] == NUL;
    CheckedAnswersAreStoredIff(ClaimedRows(Request(AskKnowledge)), true, WORKER, CompleteRunInput(1, raw, false), 0);
  }
}
