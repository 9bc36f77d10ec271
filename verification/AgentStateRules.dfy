/** The repository's transactions obey the pure rules of server/modules/agents/state.ts. */
module AgentStateRules {
  import opened Common
  import opened Utf16
  import opened AgentContracts
  import opened AgentState
  import opened AgentRows
  import opened AgentTransactions
  import opened AgentDatabase
  import opened AgentInvariant

  // ---------------------------------------------------------------- the rules

  datatype Counters = Counters(stepCount: nat, toolCallCount: nat)

  /** reserveAgentStep: the next counters, or nothing when a limit is reached. */
  function NextCounters(c: Counters, kind: StepKind, limits: Limits): Option<Counters> {
    if c.stepCount >= limits.maxSteps then None
    else if kind == ToolCall && c.toolCallCount >= limits.maxToolCalls then None
    else Some(Counters(c.stepCount + 1, c.toolCallCount + if kind == ToolCall then 1 else 0))
  }

  /** initializeAgentRunTiming: kept once set; nothing when the two times contradict each other. */
  function InitialTiming(startedAt: Option<Time>, deadlineAt: Option<Time>, now: Time, wallTimeSeconds: nat): Option<(Time, Time)> {
    if wallTimeSeconds == 0 || startedAt.Some? != deadlineAt.Some? then None
    else if startedAt.Some? then
      if deadlineAt.value <= startedAt.value then None else Some((startedAt.value, deadlineAt.value))
    else Some((now, now + wallTimeSeconds * 1000))
  }

  // ---------------------------------------------------------------- the transactions obey them

  function CountersOf(run: RunRecord): Counters {
    Counters(run.stepCount, run.toolCallCount)
  }

  /**
   * reserveStep inserts a step exactly when the counters allow it and the table takes the row, and moves them as the rule
   * says; a row the table refuses throws, and only once the counters have been checked.
   */
  lemma ReservingFollowsTheCounters(rows: RunRows, input: ReserveInput, now: Time)
    requires Consistent(rows) && LastRunning(rows.steps).None?
    ensures var (after, r) := ReserveAllowed(rows, input, now);
      var next := NextCounters(CountersOf(rows.run), ToolCall, rows.run.limits);
      && (r.Reserved? <==> next.Some? && InsertFits(rows.steps, input))
      && (r.Reserved? ==> CountersOf(after.run) == next.value)
      && (r.ReserveThrew? <==> next.Some? && !InsertFits(rows.steps, input))
      && (r.ReserveThrew? ==> after == rows)
      && (next.None? ==> after == rows && r in {ReserveStepLimit, ReserveToolCallLimit})
  {
  }

  /** Claiming starts a run, or keeps its timing, as the rule says; the rule never throws on durable rows. */
  lemma ClaimingFollowsTheTiming(rows: RunRows, member: bool, owner: OwnerId, duration: Duration, now: Time)
    requires Consistent(rows) && Claimable(rows.run, now)
    ensures var after := ClaimCandidate(rows, member, owner, duration, now).run;
      after.startedAt.Some? && after.deadlineAt.Some?
      && InitialTiming(rows.run.startedAt, rows.run.deadlineAt, now, rows.run.limits.wallTimeSeconds)
         == Some((after.startedAt.value, after.deadlineAt.value))
  {
  }

  // ---------------------------------------------------------------- the transition table

  predicate FollowsTheTable(from: RunStatus, to: RunStatus) {
    from == to || to in AllowedTransitions(from)
  }

  lemma PublishingFollowsTheTable(rows: RunRows, member: bool, fence: Fence, id: StepId, idTaken: bool, result: FinalResult, now: Time)
    ensures FollowsTheTable(rows.run.status, PublishParsed(rows, member, fence, id, idTaken, result, now).0.run.status)
  {
    hide AllCitable, SettleRunning, CiteAll, HasId, HasFinalAnswer, LastRunning;
  }

  /**
   * The status after one transaction is the status before it or one edge of the table away, with one exception:
   * claiming a queued run whose actor has lost access takes it from queued straight to failed.
   */
  lemma TransactionsFollowTheTable(rows: RunRows, members: set<UserId>, action: RunAction, now: Time)
    requires Consistent(rows)
    ensures FollowsTheTable(rows.run.status, Apply(rows, members, action, now).run.status)
       <==> !(action.Claim? && rows.run.status == Queued && !IsMember(rows.run, members))
  {
    hide SettleRunning, HasId, LastRunning, RunningTool, ParseFinalResult, Trim, PublishParsed, StepsOk, EvidenceOk, AnswerOk;
    if action.Publish? && ParseFinalResult(action.answer.finalResult).Some? {
      PublishingFollowsTheTable(rows, IsMember(rows.run, members), action.fence, action.answer.finalStepId, action.answer.idTaken,
                                ParseFinalResult(action.answer.finalResult).value, now);
    }
  }

  /** The limits every definition has by default. */
  const AGENT_EXECUTION_LIMITS := Limits(
    AGENT_MAX_STEPS, AGENT_MAX_TOOL_CALLS, 180, 2, AGENT_OBSERVATION_MAX_BYTES, AGENT_CONTEXT_MAX_BYTES,
    AGENT_FINAL_ANSWER_MAX_CHARACTERS, AGENT_MAX_EVIDENCE)

  /** That exception happens: a run created with the default limits whose actor has left before the first claim. */
  lemma QueuedRunsMayFail(request: NewRun, members: set<UserId>, owner: OwnerId, duration: Duration, now: Time)
    requires request.limits == AGENT_EXECUTION_LIMITS && request.actor !in members
    ensures var rows := FreshRows(request);
      var after := Apply(rows, members, Claim(owner, duration), now);
      && Consistent(rows) && rows.run.status == Queued
      && after.run.status == Failed && after.run.errorCode == Some(SpaceAccessRevoked)
      && Failed !in AllowedTransitions(Queued)
  {
    FreshRowsAreSound(request);
    TransactionsFollowTheTable(FreshRows(request), members, Claim(owner, duration), now);
  }

  // ---------------------------------------------------------------- the terminal-state rule

  predicate IsFinal(s: StepRecord) {
    s.kind == FinalAnswer && s.status == StepCompleted
  }

  function CountFinal(steps: seq<StepRecord>): nat {
    if steps == [] then 0
    else CountFinal(steps[..|steps| - 1]) + if IsFinal(steps[|steps| - 1]) then 1 else 0
  }

  function CompletionStateOf(rows: RunRows): CompletionState {
    CompletionState(
      rows.run.finalAnswer, rows.run.errorCode, rows.run.finishedAt.Some?,
      rows.run.leaseOwnerId.Some? || rows.run.leaseExpiresAt.Some?,
      CountFinal(rows.steps),
      exists i :: 0 <= i < |rows.steps| - 1 && IsFinal(rows.steps[i]))
  }

  lemma {:induction false} NoFinalStepCountsNone(steps: seq<StepRecord>)
    requires forall i :: 0 <= i < |steps| ==> !IsFinal(steps[i])
    ensures CountFinal(steps) == 0
  {
    if steps != [] {
      NoFinalStepCountsNone(steps[..|steps| - 1]);
    }
  }

  /** Every run that has ended satisfies the rule for its status. */
  lemma EndedRunsAreValid(rows: RunRows)
    requires Consistent(rows) && IsTerminal(rows.run.status)
    ensures ValidTerminalState(rows.run.status, CompletionStateOf(rows))
  {
    if rows.run.status == Completed {
      var front := rows.steps[..|rows.steps| - 1];
      NoFinalStepCountsNone(front);
      AnswersAreNotBlank(rows);
      assert StepRowOk(rows.steps[|rows.steps| - 1]);
    } else {
      NoFinalStepCountsNone(rows.steps);
    }
  }

  lemma AnswersAreNotBlank(rows: RunRows)
    requires Consistent(rows) && rows.run.status == Completed
    ensures Trim(rows.run.finalAnswer.value) != []
  {
  }
}
