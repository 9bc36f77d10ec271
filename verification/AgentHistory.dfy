/** Whole histories of one run: what any interleaving of transactions keeps, fences off and leaves frozen. */
module AgentHistory {
  import opened Common
  import opened Utf16
  import opened AgentContracts
  import opened AgentState
  import opened AgentRows
  import opened AgentTransactions
  import opened AgentInvariant

  // ---------------------------------------------------------------- how rows may evolve

  /** Two units for every step still allowed, one for a step in progress. */
  function Measure(rows: RunRows): int {
    2 * (rows.run.limits.maxSteps - rows.run.stepCount) + if LastRunning(rows.steps).Some? then 1 else 0
  }

  predicate SameConfiguration(a: RunRecord, b: RunRecord) {
    a.prompt == b.prompt && a.spaceId == b.spaceId && a.toolNames == b.toolNames && a.limits == b.limits && a.createdAt == b.createdAt
  }

  /** A settled step never changes; a running one keeps its identity and its arguments. */
  predicate StepExtends(a: StepRecord, b: StepRecord) {
    && a.id == b.id && a.sequence == b.sequence && a.kind == b.kind && a.toolName == b.toolName && a.safeArguments == b.safeArguments
    && (a.status != StepRunning ==> a == b)
  }

  predicate EvidenceExtends(a: EvidenceRecord, b: EvidenceRecord) {
    a.stepId == b.stepId && a.key == b.key && a.source == b.source
  }

  /** Nothing but deleted user accounts may touch the rows. */
  predicate Frozen(a: RunRows, b: RunRows) {
    && a.steps == b.steps && a.evidence == b.evidence
    && b.run == a.run.(actorUserId := b.run.actorUserId, cancelRequestedBy := b.run.cancelRequestedBy)
  }

  predicate StepsExtend(a: seq<StepRecord>, b: seq<StepRecord>) {
    |a| <= |b| && forall i :: 0 <= i < |a| ==> StepExtends(a[i], b[i])
  }

  predicate EvidenceGrows(a: seq<EvidenceRecord>, b: seq<EvidenceRecord>) {
    |a| <= |b| && forall i :: 0 <= i < |a| ==> EvidenceExtends(a[i], b[i])
  }

  /** One generation has one owner, and generations only grow. */
  predicate LeaseAdvances(a: RunRecord, b: RunRecord) {
    && a.leaseGeneration <= b.leaseGeneration
    && (b.status == Running && b.leaseGeneration == a.leaseGeneration ==> a.status == Running && b.leaseOwnerId == a.leaseOwnerId)
  }

  /** Start and deadline are fixed once set, and a cancellation request is never withdrawn. */
  predicate TimingFixed(a: RunRecord, b: RunRecord) {
    && (a.startedAt.Some? ==> b.startedAt == a.startedAt && b.deadlineAt == a.deadlineAt)
    && (a.cancelRequestedAt.Some? ==> b.cancelRequestedAt == a.cancelRequestedAt)
  }

  /** b can follow a in the history of one run. */
  ghost predicate Later(a: RunRows, b: RunRows) {
    && SameConfiguration(a.run, b.run)
    && LeaseAdvances(a.run, b.run)
    && TimingFixed(a.run, b.run)
    && Reaches(a.run.status, b.run.status)
    && (IsTerminal(a.run.status) ==> Frozen(a, b))
    && StepsExtend(a.steps, b.steps)
    && EvidenceGrows(a.evidence, b.evidence)
    && a.run.toolCallCount <= b.run.toolCallCount
    && Measure(b) <= Measure(a)
  }

  lemma LaterIsReflexive(a: RunRows)
    ensures Later(a, a)
  {
    ReachesItself(a.run.status);
  }

  lemma LaterIsTransitive(a: RunRows, b: RunRows, c: RunRows)
    requires Later(a, b) && Later(b, c)
    ensures Later(a, c)
  {
    ReachesIsTransitive(a.run.status, b.run.status, c.run.status);
    if IsTerminal(a.run.status) {
      TerminalReachesOnlyItself(a.run.status, b.run.status);
    }
    forall i | 0 <= i < |a.steps|
      ensures StepExtends(a.steps[i], c.steps[i])
    {
      assert StepExtends(a.steps[i], b.steps[i]) && StepExtends(b.steps[i], c.steps[i]);
    }
    forall i | 0 <= i < |a.evidence|
      ensures EvidenceExtends(a.evidence[i], c.evidence[i])
    {
      assert EvidenceExtends(a.evidence[i], b.evidence[i]) && EvidenceExtends(b.evidence[i], c.evidence[i]);
    }
  }

  // ---------------------------------------------------------------- every transaction moves forward

  lemma SettlingExtends(steps: seq<StepRecord>, ending: Ending, now: Time)
    ensures StepsExtend(steps, SettleRunning(steps, ending, now)) && LastRunning(SettleRunning(steps, ending, now)).None?
  {
    hide LastRunning;
    assert LastRunning(SettleRunning(steps, ending, now)).None?;
  }

  lemma EndingMovesForward(rows: RunRows, run: RunRecord, ending: Ending, now: Time)
    requires Consistent(rows) && rows.run.status in {Queued, Running}
    requires run == rows.run || (rows.run.status == Queued && run == WithTiming(rows.run, now))
    requires rows.run.status == Queued ==> ending.EndFailed?
    ensures Later(rows, EndRun(rows.(run := run), ending, now))
    ensures LastRunning(EndRun(rows.(run := run), ending, now).steps).None?
  {
    hide StepsOk, EvidenceOk, AnswerOk, LastRunning, SettleRunning, StepsExtend;
    var after := EndRun(rows.(run := run), ending, now);
    SettlingExtends(rows.steps, ending, now);
    if rows.run.status == Queued {
      ReachesThroughRunning(after.run.status);
    } else {
      ReachesDirectly(Running, after.run.status);
    }
  }

  lemma EndMovesForward(rows: RunRows, ending: Ending, now: Time)
    requires Consistent(rows) && rows.run.status == Running
    ensures Later(rows, EndRun(rows, ending, now))
    ensures LastRunning(EndRun(rows, ending, now).steps).None?
  {
    EndingMovesForward(rows, rows.run, ending, now);
    assert rows.(run := rows.run) == rows;
  }

  lemma ClaimMovesForward(rows: RunRows, member: bool, owner: OwnerId, duration: Duration, now: Time)
    requires Consistent(rows) && Claimable(rows.run, now)
    ensures Later(rows, ClaimCandidate(rows, member, owner, duration, now))
  {
    var after := ClaimCandidate(rows, member, owner, duration, now);
    match ClaimEnding(rows.run, member, now)
    case Some(ending) =>
      assert rows.run.status == Running ==> WithTiming(rows.run, now) == rows.run;
      EndingMovesForward(rows, WithTiming(rows.run, now), ending, now);
    case None =>
      if rows.run.status == Queued {
        ReachesDirectly(Queued, Running);
      } else {
        ReachesItself(Running);
      }
  }

  lemma HeartbeatMovesForward(rows: RunRows, member: bool, fence: Fence, duration: Duration, now: Time)
    requires Consistent(rows)
    ensures Later(rows, HeartbeatLease(rows, member, fence, duration, now).0)
  {
    LaterIsReflexive(rows);
    if EndingGate(rows.run, member, fence, now).Ends? {
      EndMovesForward(rows, EndingGate(rows.run, member, fence, now).ending, now);
    }
  }

  lemma CancelMovesForward(rows: RunRows, actorIsMember: bool, actor: UserId, now: Time)
    requires Consistent(rows)
    ensures Later(rows, CancelRun(rows, actorIsMember, actor, now).0)
  {
    LaterIsReflexive(rows);
    if rows.run.status == Queued {
      ReachesDirectly(Queued, Cancelled);
    }
  }

  /** Work inside a running run: only its counters, its last step and new rows change. */
  lemma WorkMovesForward(rows: RunRows, run: RunRecord, steps: seq<StepRecord>, added: seq<EvidenceRecord>)
    requires rows.run.status == Running
    requires run == rows.run.(stepCount := run.stepCount, toolCallCount := run.toolCallCount, contextBytes := run.contextBytes)
    requires rows.run.toolCallCount <= run.toolCallCount && StepsExtend(rows.steps, steps)
    requires Measure(RunRows(run, steps, rows.evidence)) <= Measure(rows)
    ensures Later(rows, RunRows(run, steps, rows.evidence + added))
  {
    ReachesItself(Running);
  }

  lemma ResumedMovesForward(rows: RunRows, i: nat, step: StepRecord)
    requires rows.run.status == Running && i < |rows.steps| && rows.steps[i].status == StepRunning && step.status == StepRunning
    requires StepExtends(rows.steps[i], step) && i == |rows.steps| - 1
    ensures Later(rows, WithStep(rows, i, step))
  {
    var after := WithStep(rows, i, step);
    WorkMovesForward(rows, rows.run, after.steps, []);
    assert rows.evidence + [] == rows.evidence;
  }

  lemma ReservedMovesForward(rows: RunRows, step: StepRecord)
    requires rows.run.status == Running && LastRunning(rows.steps).None?
    ensures Later(rows, WithNewTool(rows, step))
  {
    var after := WithNewTool(rows, step);
    WorkMovesForward(rows, after.run, after.steps, []);
    assert rows.evidence + [] == rows.evidence;
  }

  lemma ReserveAllowedMovesForward(rows: RunRows, input: ReserveInput, now: Time)
    requires Consistent(rows) && rows.run.status == Running
    ensures Later(rows, ReserveAllowed(rows, input, now).0)
  {
    hide Later, EvidenceOk, AnswerOk, RunRowOk, HasId;
    LaterIsReflexive(rows);
    match LastRunning(rows.steps)
    case Some(i) =>
      var step := rows.steps[i];
      ResumedMovesForward(rows, i, step.(executionCount := step.executionCount + 1, startedAt := now));
    case None => ReservedMovesForward(rows, NewToolStep(input, rows.run.stepCount + 1, now));
  }

  lemma ReserveMovesForward(rows: RunRows, member: bool, fence: Fence, input: ReserveInput, now: Time)
    requires Consistent(rows)
    ensures Later(rows, ReserveStep(rows, member, fence, input, now).0)
  {
    hide Later, StepsOk, EvidenceOk, AnswerOk, ReserveAllowed, EndRun;
    LaterIsReflexive(rows);
    if Holds(rows.run, fence) {
      if ClassifyWorkerWrite(rows.run, member, now) == Allowed {
        ReserveAllowedMovesForward(rows, input, now);
      } else {
        EndMovesForward(rows, EndFailed(RefusalCode(member)), now);
      }
    }
  }

  /** Settling the running last step frees its unit of the measure. */
  lemma SettlingLowersTheMeasure(rows: RunRows, i: nat, step: StepRecord)
    requires StepsOk(rows) && i < |rows.steps| && rows.steps[i].status == StepRunning && step.status != StepRunning
    ensures LastRunning(rows.steps).Some? && LastRunning(rows.steps[i := step]).None?
  {
    assert i == |rows.steps| - 1;
  }

  lemma CompleteToolMovesForward(rows: RunRows, member: bool, fence: Fence, input: CompleteToolInput, now: Time)
    requires Consistent(rows)
    ensures var (after, result) := CompleteToolStep(rows, member, fence, input, now);
      Later(rows, after) && (result.ToolStepCompleted? ==> Measure(after) < Measure(rows))
  {
    LaterIsReflexive(rows);
    var (after, result) := CompleteToolStep(rows, member, fence, input, now);
    match result
    case ToolStepCompleted(step, added) =>
      SettlingLowersTheMeasure(rows, RunningTool(rows.steps, input.stepId).value, step);
      WorkMovesForward(rows, after.run, after.steps, added);
    case _ =>
  }

  lemma FailStepMovesForward(rows: RunRows, member: bool, fence: Fence, input: FailStepInput, now: Time)
    requires Consistent(rows)
    ensures var (after, result) := FailStep(rows, member, fence, input, now);
      Later(rows, after) && (result.StepFailedResult? ==> Measure(after) < Measure(rows))
  {
    LaterIsReflexive(rows);
    if EndingGate(rows.run, member, fence, now).Ends? {
      EndMovesForward(rows, EndingGate(rows.run, member, fence, now).ending, now);
    } else {
      var (after, result) := FailStep(rows, member, fence, input, now);
      if result.StepFailedResult? {
        SettlingLowersTheMeasure(rows, RunningTool(rows.steps, input.stepId).value, result.step);
        WorkMovesForward(rows, after.run, after.steps, []);
        assert rows.evidence + [] == rows.evidence;
      }
    }
  }

  lemma PublishedMovesForward(rows: RunRows, id: StepId, result: FinalResult, now: Time)
    requires Consistent(rows) && rows.run.status == Running && LastRunning(rows.steps).None?
    ensures Later(rows, Published(rows, id, result, now))
  {
    var after := Published(rows, id, result, now);
    ReachesDirectly(Running, Completed);
    assert LastRunning(after.steps).None?;
  }

  lemma PublishMovesForward(rows: RunRows, member: bool, fence: Fence, id: StepId, idTaken: bool, result: FinalResult, now: Time)
    requires Consistent(rows)
    ensures Later(rows, PublishParsed(rows, member, fence, id, idTaken, result, now).0)
  {
    LaterIsReflexive(rows);
    if EndingGate(rows.run, member, fence, now).Ends? {
      EndMovesForward(rows, EndingGate(rows.run, member, fence, now).ending, now);
    } else if PublishParsed(rows, member, fence, id, idTaken, result, now).1.RunCompleted? {
      PublishedMovesForward(rows, id, result, now);
    }
  }

  lemma DecisionErrorMovesForward(rows: RunRows, ended: RunRows, id: StepId, code: ErrorCode, now: Time)
    requires Later(rows, ended) && rows.run.status == Running && ended.run.status == Failed && LastRunning(ended.steps).None?
    ensures Later(rows, WithDecisionError(ended, id, code, now))
  {
    var after := WithDecisionError(ended, id, code, now);
    assert LastRunning(after.steps).None?;
  }

  lemma AbandonMovesForward(rows: RunRows, member: bool, fence: Fence, input: FailRunInput, now: Time)
    requires Consistent(rows)
    ensures Later(rows, FailRun(rows, member, fence, input, now).0)
  {
    hide Later, StepsOk, EvidenceOk, AnswerOk, SettleRunning, WithDecisionError, HasId;
    LaterIsReflexive(rows);
    if EndingGate(rows.run, member, fence, now).Ends? {
      EndMovesForward(rows, EndingGate(rows.run, member, fence, now).ending, now);
    } else if EndingGate(rows.run, member, fence, now).Open? {
      var ended := EndRun(rows, EndFailed(input.errorCode), now);
      EndMovesForward(rows, EndFailed(input.errorCode), now);
      if input.decisionErrorStepId.Some? {
        DecisionErrorMovesForward(rows, ended, input.decisionErrorStepId.value, input.errorCode, now);
      }
    }
  }

  lemma SettleMovesForward(rows: RunRows, fence: Fence, now: Time)
    requires Consistent(rows)
    ensures Later(rows, MarkCancelled(rows, fence, now).0)
  {
    LaterIsReflexive(rows);
    if Holds(rows.run, fence) {
      EndMovesForward(rows, EndCancelled, now);
    }
  }

  lemma ForgettingMovesForward(rows: RunRows, user: UserId)
    ensures Later(rows, rows.(run := ForgetUserIn(rows.run, user)))
  {
    LaterIsReflexive(rows);
  }

  /** Every transaction, whoever calls it, moves the run forward. */
  lemma TransactionsMoveForward(rows: RunRows, members: set<UserId>, action: RunAction, now: Time)
    requires Consistent(rows)
    ensures Later(rows, Apply(rows, members, action, now))
  {
    hide Consistent, Later, ClaimCandidate, HeartbeatLease, CancelRun, ReserveStep, CompleteToolStep, FailStep, PublishParsed, FailRun,
      MarkCancelled, ParseFinalResult, ForgetUserIn;
    var member := IsMember(rows.run, members);
    match action
    case Claim(owner, duration) =>
      if Claimable(rows.run, now) { ClaimMovesForward(rows, member, owner, duration, now); } else { LaterIsReflexive(rows); }
    case Heartbeat(fence, duration) => HeartbeatMovesForward(rows, member, fence, duration, now);
    case Cancel(actor) => CancelMovesForward(rows, actor in members, actor, now);
    case Reserve(fence, input) => ReserveMovesForward(rows, member, fence, input, now);
    case CompleteTool(fence, input) => CompleteToolMovesForward(rows, member, fence, input, now);
    case Fail(fence, input) => FailStepMovesForward(rows, member, fence, input, now);
    case Publish(fence, input) =>
      if ParseFinalResult(input.finalResult).Some? {
        PublishMovesForward(rows, member, fence, input.finalStepId, input.idTaken, ParseFinalResult(input.finalResult).value, now);
      } else {
        LaterIsReflexive(rows);
      }
    case Abandon(fence, input) => AbandonMovesForward(rows, member, fence, input, now);
    case Settle(fence) => SettleMovesForward(rows, fence, now);
    case ForgetUser(user) => ForgettingMovesForward(rows, user);
  }

  // ---------------------------------------------------------------- histories

  /** One transaction with the memberships and the clock it saw. */
  datatype Event = Event(members: set<UserId>, action: RunAction, now: Time)

  function Replay(rows: RunRows, events: seq<Event>): RunRows {
    if events == [] then rows
    else
      var e := events[|events| - 1];
      Apply(Replay(rows, events[..|events| - 1]), e.members, e.action, e.now)
  }

  /** Any history of a consistent run ends consistent and later. */
  lemma {:induction false} HistoriesMoveForward(rows: RunRows, events: seq<Event>)
    requires Consistent(rows)
    ensures Consistent(Replay(rows, events)) && Later(rows, Replay(rows, events))
  {
    if events == [] {
      LaterIsReflexive(rows);
    } else {
      var e, before := events[|events| - 1], Replay(rows, events[..|events| - 1]);
      HistoriesMoveForward(rows, events[..|events| - 1]);
      TransactionsKeepConsistent(before, e.members, e.action, e.now);
      TransactionsMoveForward(before, e.members, e.action, e.now);
      LaterIsTransitive(rows, before, Replay(rows, events));
    }
  }

  lemma {:induction false} ReplayConcat(rows: RunRows, a: seq<Event>, b: seq<Event>)
    ensures Replay(rows, a + b) == Replay(Replay(rows, a), b)
  {
    if b == [] {
      assert a + b == a;
    } else {
      ReplayConcat(rows, a, b[..|b| - 1]);
      assert (a + b)[..|a + b| - 1] == a + b[..|b| - 1];
    }
  }

  /** A terminal run keeps its status, steps, evidence, answer and error for ever. */
  lemma TerminalRunsStayFrozen(rows: RunRows, events: seq<Event>)
    requires Consistent(rows) && IsTerminal(rows.run.status)
    ensures Frozen(rows, Replay(rows, events))
  {
    HistoriesMoveForward(rows, events);
  }

  // ---------------------------------------------------------------- leases

  /** The deadline and the generation stand; so does the lease, unless the run ended. */
  predicate LeaseStands(run: RunRecord, after: RunRecord) {
    && after.deadlineAt == run.deadlineAt && after.leaseGeneration == run.leaseGeneration
    && (after.status == Running ==>
          run.status == Running && after.leaseExpiresAt == run.leaseExpiresAt && after.leaseOwnerId == run.leaseOwnerId)
  }

  lemma PublishingKeepsTheLease(rows: RunRows, member: bool, fence: Fence, id: StepId, idTaken: bool, result: FinalResult, now: Time)
    ensures LeaseStands(rows.run, PublishParsed(rows, member, fence, id, idTaken, result, now).0.run)
  {
    hide AllCitable, SettleRunning, CiteAll, HasId, HasFinalAnswer, LastRunning;
  }

  /** No transaction but a claim or a heartbeat moves a lease. */
  lemma OtherWritesKeepTheLease(rows: RunRows, members: set<UserId>, action: RunAction, now: Time)
    requires !action.Claim? && !action.Heartbeat?
    ensures LeaseStands(rows.run, Apply(rows, members, action, now).run)
  {
    hide SettleRunning, HasId, LastRunning, RunningTool, ParseFinalResult, Trim, PublishParsed;
    if action.Publish? && ParseFinalResult(action.answer.finalResult).Some? {
      PublishingKeepsTheLease(rows, IsMember(rows.run, members), action.fence, action.answer.finalStepId, action.answer.idTaken,
                              ParseFinalResult(action.answer.finalResult).value, now);
    }
  }

  // ---------------------------------------------------------------- fencing

  /** The fence a worker write carries. */
  function FenceOf(action: RunAction): Option<Fence> {
    match action
    case Heartbeat(fence, _) => Some(fence)
    case Reserve(fence, _) => Some(fence)
    case CompleteTool(fence, _) => Some(fence)
    case Fail(fence, _) => Some(fence)
    case Publish(fence, _) => Some(fence)
    case Abandon(fence, _) => Some(fence)
    case Settle(fence) => Some(fence)
    case _ => None
  }

  /** A worker write that a superseded fence carries, or that meets a terminal run, changes nothing. */
  lemma UnheldFenceChangesNothing(rows: RunRows, members: set<UserId>, action: RunAction, now: Time)
    requires FenceOf(action).Some? && !Holds(rows.run, FenceOf(action).value)
    ensures Apply(rows, members, action, now) == rows
  {
  }

  /** How a late worker may still end the run. */
  function LateEnding(run: RunRecord, member: bool, now: Time): Option<Ending> {
    if run.cancelRequestedAt.Some? then Some(EndCancelled)
    else if !member then Some(EndFailed(SpaceAccessRevoked))
    else if PastDeadline(run, now) then Some(EndFailed(WallTimeExceeded))
    else None
  }

  /** At or past lease expiry a worker can only end the run, and only for cancellation, lost access or the deadline. */
  lemma ExpiredFenceOnlyEndsTheRun(rows: RunRows, members: set<UserId>, action: RunAction, now: Time)
    requires Consistent(rows)
    requires FenceOf(action).Some? && LeaseExpired(rows.run, now)
    ensures var after, ending := Apply(rows, members, action, now), LateEnding(rows.run, IsMember(rows.run, members), now);
      after == rows || (ending.Some? && after == EndRun(rows, ending.value, now))
  {
    hide SettleRunning, StepsOk, EvidenceOk, AnswerOk, LastRunning, RunningTool, HasId, HasFinalAnswer, AllCitable, CiteAll, ParseFinalResult, Trim,
      RowsAccept, NewEvidence;
    if !Holds(rows.run, FenceOf(action).value) {
      UnheldFenceChangesNothing(rows, members, action, now);
    }
  }

  /** Event i was a worker write that took effect. */
  predicate Accepted(rows: RunRows, events: seq<Event>, i: nat)
    requires i < |events|
  {
    FenceOf(events[i].action).Some? && Replay(rows, events[..i + 1]) != Replay(rows, events[..i])
  }

  lemma AcceptedWritesHoldTheLease(rows: RunRows, events: seq<Event>, i: nat)
    requires i < |events| && Accepted(rows, events, i)
    ensures Holds(Replay(rows, events[..i]).run, FenceOf(events[i].action).value)
  {
    var e, before := events[i], Replay(rows, events[..i]);
    assert events[..i + 1][..i] == events[..i];
    if !Holds(before.run, FenceOf(e.action).value) {
      UnheldFenceChangesNothing(before, e.members, e.action, e.now);
    }
  }

  /**
   * In any history the generations of accepted worker writes never decrease, one generation has one owner,
   * and the run was running, held by exactly that fence.
   */
  lemma AcceptedWritesAreFenced(rows: RunRows, events: seq<Event>, i: nat, j: nat)
    requires Consistent(rows) && i <= j < |events| && Accepted(rows, events, i) && Accepted(rows, events, j)
    ensures Holds(Replay(rows, events[..i]).run, FenceOf(events[i].action).value)
    ensures var f, g := FenceOf(events[i].action).value, FenceOf(events[j].action).value;
      f.generation <= g.generation && (f.generation == g.generation ==> f.owner == g.owner)
  {
    hide Consistent, Apply, StepsExtend, EvidenceGrows, Measure, TimingFixed, SameConfiguration, Frozen, Reaches;
    AcceptedWritesHoldTheLease(rows, events, i);
    AcceptedWritesHoldTheLease(rows, events, j);
    HistoriesMoveForward(rows, events[..i]);
    assert events[..j] == events[..i] + events[i..j];
    ReplayConcat(rows, events[..i], events[i..j]);
    HistoriesMoveForward(Replay(rows, events[..i]), events[i..j]);
  }
}
