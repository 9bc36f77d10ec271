/** One ladder of checks for every write under a fence, whatever transaction it opens (server/modules/agents/repository.ts). */
module AgentLadder {
  import opened Common
  import opened Utf16
  import opened AgentContracts
  import opened AgentRows
  import opened AgentTransactions
  import opened AgentInvariant
  import opened AgentHistory

  // ---------------------------------------------------------------- how a worker stands

  /** In the order in which every transaction asks. */
  datatype Standing = NotHeld | CancelAsked | AccessLost | TimeUp | LeaseOver | Good

  /** How a fence stands on a run, read off its columns. */
  function StandingOf(run: RunRecord, member: bool, fence: Fence, now: Time): Standing {
    if run.status != Running || run.leaseOwnerId != Some(fence.owner) || run.leaseGeneration != fence.generation then NotHeld
    else if run.cancelRequestedAt.Some? then CancelAsked
    else if !member then AccessLost
    else if run.deadlineAt.Some? && now >= run.deadlineAt.value then TimeUp
    else if run.leaseExpiresAt.Some? && now >= run.leaseExpiresAt.value then LeaseOver
    else Good
  }

  /** What a transaction does about it. */
  datatype Reaction = LeavesAlone | EndsWith(ending: Ending) | GoesOn

  /**
   * A tool's completion ends nothing, and a reservation leaves cancellation to be settled; everything else ends the run on
   * the rung it fails. Settling looks at the cancellation alone.
   */
  function ReactionTo(standing: Standing, action: RunAction): Reaction {
    match standing
    case NotHeld => LeavesAlone
    case CancelAsked => if action.Reserve? || action.CompleteTool? then LeavesAlone else EndsWith(EndCancelled)
    case AccessLost => if action.CompleteTool? || action.Settle? then LeavesAlone else EndsWith(EndFailed(SpaceAccessRevoked))
    case TimeUp => if action.CompleteTool? || action.Settle? then LeavesAlone else EndsWith(EndFailed(WallTimeExceeded))
    case LeaseOver => LeavesAlone
    case Good => if action.Settle? then LeavesAlone else GoesOn
  }

  /** The run is over now: its row says how, its running step went with it, and nothing else has changed. */
  predicate IsOver(rows: RunRows, after: RunRows, ending: Ending, now: Time) {
    var run, ended := rows.run, after.run;
    && ended.status == (if ending == EndCancelled then Cancelled else Failed)
    && ended.errorCode == (if ending == EndCancelled then run.errorCode else Some(ending.code))
    && ended.finishedAt == Some(now) && ended.leaseOwnerId == None && ended.leaseExpiresAt == None
    && run == ended.(status := run.status, errorCode := run.errorCode, finishedAt := run.finishedAt,
                     leaseOwnerId := run.leaseOwnerId, leaseExpiresAt := run.leaseExpiresAt)
    && after.evidence == rows.evidence
    && |after.steps| == |rows.steps|
    && forall i :: 0 <= i < |rows.steps| ==> StepIsOver(rows.steps[i], after.steps[i], ending, now)
  }

  predicate StepIsOver(step: StepRecord, after: StepRecord, ending: Ending, now: Time) {
    if step.status != StepRunning then after == step
    else
      && after.status == (if ending == EndCancelled then StepCancelled else StepFailed)
      && after.errorCode == (if ending == EndCancelled then step.errorCode else Some(ending.code))
      && after.completedAt == Some(now)
      && step == after.(status := step.status, errorCode := step.errorCode, completedAt := step.completedAt)
  }

  lemma EndedRunsAreOver(rows: RunRows, ending: Ending, now: Time)
    ensures IsOver(rows, EndRun(rows, ending, now), ending, now)
  {
  }

  /** A publication whose result does not parse never reaches the database. */
  predicate Reaches(action: RunAction) {
    action.Publish? ==> ParseFinalResult(action.answer.finalResult).Some?
  }

  /** The rows after a transaction that reacts so: unless it goes on. */
  predicate Reacted(rows: RunRows, after: RunRows, reaction: Reaction, now: Time) {
    match reaction
    case LeavesAlone => after == rows
    case EndsWith(ending) => after == EndRun(rows, ending, now)
    case GoesOn => true
  }

  /** The opening checks of four transactions are the ladder. */
  lemma GateOfStanding(rows: RunRows, member: bool, fence: Fence, now: Time)
    requires Consistent(rows)
    ensures EndingGate(rows.run, member, fence, now) ==
      match StandingOf(rows.run, member, fence, now)
      case Good => Open
      case CancelAsked => Ends(EndCancelled)
      case AccessLost => Ends(EndFailed(SpaceAccessRevoked))
      case TimeUp => Ends(EndFailed(WallTimeExceeded))
      case NotHeld => Shut
      case LeaseOver => Shut
    ensures StandingOf(rows.run, member, fence, now) == AccessLost ==> !member
    ensures StandingOf(rows.run, member, fence, now) == TimeUp ==> member
    ensures StandingOf(rows.run, member, fence, now) == Good ==> rows.run.status == Running
  {
    hide StepsOk, EvidenceOk, AnswerOk;
  }

  lemma HeartbeatClimbs(rows: RunRows, member: bool, fence: Fence, duration: Duration, now: Time)
    requires Consistent(rows)
    ensures Reacted(rows, HeartbeatLease(rows, member, fence, duration, now).0, ReactionTo(StandingOf(rows.run, member, fence, now), Heartbeat(fence, duration)), now)
  {
    hide Consistent, EndRun, EndingGate, StandingOf;
    GateOfStanding(rows, member, fence, now);
  }

  lemma ReserveClimbs(rows: RunRows, member: bool, fence: Fence, input: ReserveInput, now: Time)
    requires Consistent(rows)
    ensures Reacted(rows, ReserveStep(rows, member, fence, input, now).0, ReactionTo(StandingOf(rows.run, member, fence, now), Reserve(fence, input)), now)
  {
    hide StepsOk, EvidenceOk, AnswerOk, EndRun, ReserveAllowed;
  }

  lemma CompleteToolClimbs(rows: RunRows, member: bool, fence: Fence, input: CompleteToolInput, now: Time)
    requires Consistent(rows)
    ensures Reacted(rows, CompleteToolStep(rows, member, fence, input, now).0, ReactionTo(StandingOf(rows.run, member, fence, now), CompleteTool(fence, input)), now)
  {
    hide StepsOk, EvidenceOk, AnswerOk, EndRun, RunningTool, NewEvidence, RowsAccept;
  }

  lemma FailClimbs(rows: RunRows, member: bool, fence: Fence, input: FailStepInput, now: Time)
    requires Consistent(rows)
    ensures Reacted(rows, FailStep(rows, member, fence, input, now).0, ReactionTo(StandingOf(rows.run, member, fence, now), Fail(fence, input)), now)
  {
    hide Consistent, EndRun, EndingGate, StandingOf, RunningTool;
    GateOfStanding(rows, member, fence, now);
  }

  lemma PublishClimbs(rows: RunRows, member: bool, fence: Fence, input: CompleteRunInput, now: Time)
    requires Consistent(rows) && ParseFinalResult(input.finalResult).Some?
    ensures Reacted(rows, CompleteRun(rows, member, fence, input, now).0, ReactionTo(StandingOf(rows.run, member, fence, now), Publish(fence, input)), now)
  {
    hide Consistent, EndRun, EndingGate, StandingOf, ParseFinalResult, Trim, CompleteRun, PublishParsed;
    GateOfStanding(rows, member, fence, now);
    CompleteRunPublishes(rows, member, fence, input, now);
    ParsedReacts(rows, member, fence, input.finalStepId, input.idTaken, ParseFinalResult(input.finalResult).value, now);
  }

  lemma CompleteRunPublishes(rows: RunRows, member: bool, fence: Fence, input: CompleteRunInput, now: Time)
    requires ParseFinalResult(input.finalResult).Some?
    ensures CompleteRun(rows, member, fence, input, now)
         == PublishParsed(rows, member, fence, input.finalStepId, input.idTaken, ParseFinalResult(input.finalResult).value, now)
  {
    hide ParseFinalResult, Trim, PublishParsed;
  }

  lemma ParsedReacts(rows: RunRows, member: bool, fence: Fence, id: StepId, idTaken: bool, result: FinalResult, now: Time)
    ensures var gate, after := EndingGate(rows.run, member, fence, now), PublishParsed(rows, member, fence, id, idTaken, result, now).0;
      (gate == Shut ==> after == rows) && (gate.Ends? ==> after == EndRun(rows, gate.ending, now))
  {
    hide EndRun, EndingGate, LastRunning, HasFinalAnswer, AllCitable, HasId, Published, TextFits;
  }

  lemma AbandonClimbs(rows: RunRows, member: bool, fence: Fence, input: FailRunInput, now: Time)
    requires Consistent(rows)
    ensures Reacted(rows, FailRun(rows, member, fence, input, now).0, ReactionTo(StandingOf(rows.run, member, fence, now), Abandon(fence, input)), now)
  {
    hide Consistent, EndRun, EndingGate, StandingOf, HasId, WithDecisionError;
    GateOfStanding(rows, member, fence, now);
  }

  lemma SettleClimbs(rows: RunRows, member: bool, fence: Fence, now: Time)
    requires Consistent(rows)
    ensures Reacted(rows, MarkCancelled(rows, fence, now).0, ReactionTo(StandingOf(rows.run, member, fence, now), Settle(fence)), now)
  {
    hide StepsOk, EvidenceOk, AnswerOk, EndRun;
  }

  /**
   * Every write under a fence climbs the same ladder: it changes nothing where its transaction leaves the run alone, ends
   * the run with the reason of the first rung it fails, and otherwise goes on under a live, permitted lease.
   */
  lemma FencedWritesClimbOneLadder(rows: RunRows, members: set<UserId>, action: RunAction, now: Time)
    requires Consistent(rows) && FenceOf(action).Some? && Reaches(action)
    ensures var after := Apply(rows, members, action, now);
      var standing := StandingOf(rows.run, IsMember(rows.run, members), FenceOf(action).value, now);
      match ReactionTo(standing, action)
      case LeavesAlone => after == rows
      case EndsWith(ending) => IsOver(rows, after, ending, now)
      case GoesOn => standing == Good
  {
    hide Consistent, IsOver, EndRun, ParseFinalResult, Trim, HeartbeatLease, ReserveStep, CompleteToolStep, FailStep,
      PublishParsed, FailRun, MarkCancelled;
    var member := IsMember(rows.run, members);
    var standing := StandingOf(rows.run, member, FenceOf(action).value, now);
    if ReactionTo(standing, action).EndsWith? {
      EndedRunsAreOver(rows, ReactionTo(standing, action).ending, now);
    }
    match action
    case Heartbeat(fence, duration) => HeartbeatClimbs(rows, member, fence, duration, now);
    case Reserve(fence, input) => ReserveClimbs(rows, member, fence, input, now);
    case CompleteTool(fence, input) => CompleteToolClimbs(rows, member, fence, input, now);
    case Fail(fence, input) => FailClimbs(rows, member, fence, input, now);
    case Publish(fence, input) => PublishClimbs(rows, member, fence, input, now);
    case Abandon(fence, input) => AbandonClimbs(rows, member, fence, input, now);
    case Settle(fence) => SettleClimbs(rows, member, fence, now);
  }

  lemma UnparsedAnswersChangeNothing(rows: RunRows, members: set<UserId>, action: RunAction, now: Time)
    requires !Reaches(action)
    ensures Apply(rows, members, action, now) == rows
  {
  }

  /**
   * Without access a worker changes nothing, or ends the run as cancelled or for the lost access; and a run that is held
   * and not cancelled ends that way under every write but a tool's completion and a settlement.
   */
  lemma LostAccessEndsTheRun(rows: RunRows, members: set<UserId>, action: RunAction, now: Time)
    requires Consistent(rows) && FenceOf(action).Some? && !IsMember(rows.run, members)
    ensures var after := Apply(rows, members, action, now);
      && (after == rows || IsOver(rows, after, EndCancelled, now) || IsOver(rows, after, EndFailed(SpaceAccessRevoked), now))
      && (Reaches(action) && !action.CompleteTool? && !action.Settle? && rows.run.cancelRequestedAt.None?
          && rows.run.status == Running && rows.run.leaseOwnerId == Some(FenceOf(action).value.owner)
          && rows.run.leaseGeneration == FenceOf(action).value.generation ==>
            IsOver(rows, after, EndFailed(SpaceAccessRevoked), now))
  {
    hide Apply, IsOver, Consistent, ParseFinalResult, Trim;
    if Reaches(action) {
      FencedWritesClimbOneLadder(rows, members, action, now);
    } else {
      UnparsedAnswersChangeNothing(rows, members, action, now);
    }
  }

  // ---------------------------------------------------------------- what each answer means

  lemma HeartbeatDecides(rows: RunRows, member: bool, fence: Fence, duration: Duration, now: Time)
    requires Consistent(rows)
    ensures var (after, r) := HeartbeatLease(rows, member, fence, duration, now);
      match StandingOf(rows.run, member, fence, now)
      case Good =>
        && rows.run.deadlineAt.Some?
        && var expiry := if now + duration <= rows.run.deadlineAt.value then now + duration else rows.run.deadlineAt.value;
           r == LeaseUpdated(expiry) && after == rows.(run := rows.run.(leaseExpiresAt := Some(expiry)))
      case CancelAsked => r == HeartbeatCancelRequested
      case _ => r == HeartbeatStale
  {
    hide StepsOk, EvidenceOk, AnswerOk, EndRun;
  }

  lemma ReadDecides(rows: RunRows, member: bool, fence: Fence, now: Time)
    requires Consistent(rows)
    ensures ReadExecutionState(rows, member, fence, now) ==
      match StandingOf(rows.run, member, fence, now)
      case Good => StateRead(rows)
      case CancelAsked => ReadRefused(GuardCancelRequested)
      case AccessLost => ReadRefused(GuardAccessRevoked)
      case TimeUp => ReadRefused(GuardDeadlineExceeded)
      case NotHeld => ReadStale
      case LeaseOver => ReadStale
  {
    hide StepsOk, EvidenceOk, AnswerOk;
  }

  lemma SettleDecides(rows: RunRows, fence: Fence, now: Time)
    ensures MarkCancelled(rows, fence, now).1 ==
      if StandingOf(rows.run, true, fence, now) == NotHeld then MarkCancelledStale
      else if rows.run.cancelRequestedAt.Some? then MarkedCancelled
      else MarkNotRequested
  {
    hide EndRun;
  }

  /** The one running step with this identifier, if it is the tool call in progress. */
  predicate InProgress(rows: RunRows, id: StepId) {
    rows.steps != [] && rows.steps[|rows.steps| - 1].status == StepRunning && rows.steps[|rows.steps| - 1].id == id
  }

  /** A step in progress is the run's last, and a tool call. */
  lemma OnlyTheLastRuns(rows: RunRows, id: StepId)
    requires Consistent(rows)
    ensures LastRunning(rows.steps) ==
      if rows.steps != [] && rows.steps[|rows.steps| - 1].status == StepRunning then Some(|rows.steps| - 1) else None
    ensures RunningTool(rows.steps, id) == if InProgress(rows, id) then Some(|rows.steps| - 1) else None
  {
    hide EvidenceOk, AnswerOk, RunRowOk, ObservationsFit, CountTools;
    assert rows.steps != [] ==> StepRowOk(rows.steps[|rows.steps| - 1]);
  }

  predicate Taken(steps: seq<StepRecord>, id: StepId, elsewhere: bool) {
    elsewhere || exists i :: 0 <= i < |steps| && steps[i].id == id
  }

  /** The reserved row, column by column. */
  predicate IsNewTool(step: StepRecord, input: ReserveInput, sequence: nat, now: Time) {
    && step.id == input.stepId && step.sequence == sequence && step.kind == ToolCall && step.status == StepRunning
    && step.toolName == Some(input.toolName) && step.safeArguments == Some(input.safeArguments)
    && step.executionCount == 1 && step.startedAt == now
    && step.observation.None? && step.errorCode.None? && step.completedAt.None?
  }

  /** The tool call in progress is the one that the input resumes. */
  predicate Resumes(rows: RunRows, input: ReserveInput)
    requires rows.steps != []
  {
    var last := rows.steps[|rows.steps| - 1];
    input.resumeStepId == Some(last.id) && last.toolName == Some(input.toolName) && last.safeArguments == Some(input.safeArguments)
  }

  lemma ReserveAllowedDecides(rows: RunRows, input: ReserveInput, now: Time)
    requires Consistent(rows)
    ensures var (after, r) := ReserveAllowed(rows, input, now);
      var n := |rows.steps|;
      if n > 0 && rows.steps[n - 1].status == StepRunning then
        if Resumes(rows, input) then
          var last := rows.steps[n - 1];
          r == Resumed(last.(executionCount := last.executionCount + 1, startedAt := now)) && after == rows.(steps := rows.steps[n - 1 := r.step])
        else r == IncompleteStep && after == rows
      else if n >= rows.run.limits.maxSteps then r == ReserveStepLimit && after == rows
      else if rows.run.toolCallCount >= rows.run.limits.maxToolCalls then r == ReserveToolCallLimit && after == rows
      else if Taken(rows.steps, input.stepId, input.idTaken) || input.safeArguments.storedBytes.None? then r == ReserveThrew && after == rows
      else
        && r.Reserved? && IsNewTool(r.step, input, n + 1, now) && after.steps == rows.steps + [r.step] && after.evidence == rows.evidence
        && after.run == rows.run.(stepCount := n + 1, toolCallCount := rows.run.toolCallCount + 1)
  {
    OnlyTheLastRuns(rows, input.stepId);
    hide LastRunning, EvidenceOk, AnswerOk, RunRowOk, ObservationsFit, CountTools, FromCompletedTool;
    assert rows.steps != [] ==> StepRowOk(rows.steps[|rows.steps| - 1]);
  }

  lemma ReserveDecides(rows: RunRows, member: bool, fence: Fence, input: ReserveInput, now: Time)
    requires Consistent(rows)
    ensures var (after, r) := ReserveStep(rows, member, fence, input, now);
      match StandingOf(rows.run, member, fence, now)
      case Good => (after, r) == ReserveAllowed(rows, input, now)
      case CancelAsked => r == ReserveRefused(GuardCancelRequested)
      case AccessLost => r == ReserveRefused(GuardAccessRevoked)
      case TimeUp => r == ReserveRefused(GuardDeadlineExceeded)
      case NotHeld => r == ReserveStale
      case LeaseOver => r == ReserveStale
  {
    hide StepsOk, EvidenceOk, AnswerOk, EndRun, ReserveAllowed;
  }

  /** Nothing is stored unless every check passes, and the first that fails gives the answer. */
  lemma CompleteToolDecides(rows: RunRows, member: bool, fence: Fence, input: CompleteToolInput, now: Time)
    requires Consistent(rows)
    ensures var (after, r) := CompleteToolStep(rows, member, fence, input, now);
      && (!r.ToolStepCompleted? ==> after == rows)
      && (if input.observation.bytes > AGENT_OBSERVATION_MAX_BYTES then r == ObservationTooLarge
          else match StandingOf(rows.run, member, fence, now)
            case Good => CompleteAllowedAnswers(rows, after, input, r, now)
            case CancelAsked => r == CompleteToolRefused(GuardCancelRequested)
            case AccessLost => r == CompleteToolRefused(GuardAccessRevoked)
            case TimeUp => r == CompleteToolRefused(GuardDeadlineExceeded)
            case NotHeld => r == CompleteToolStale
            case LeaseOver => r == CompleteToolStale)
  {
    hide StepsOk, EvidenceOk, AnswerOk, LastRunning, RunningTool;
    OnlyTheLastRuns(rows, input.stepId);
  }

  /** The step in progress, now completed with this observation. */
  predicate IsCompleted(step: StepRecord, after: StepRecord, observation: Json, now: Time) {
    && after.status == StepCompleted && after.observation == Some(observation) && after.completedAt == Some(now)
    && step == after.(status := step.status, observation := step.observation, completedAt := step.completedAt)
  }

  /** One new row for every draft, under the step and the next keys, cited by nothing. */
  predicate AreNewRows(added: seq<EvidenceRecord>, drafts: seq<EvidenceDraft>, stepId: StepId, existing: nat) {
    && |added| == |drafts|
    && forall i :: 0 <= i < |added| ==>
         && added[i].stepId == stepId && added[i].key == EvidenceKey(existing + i + 1)
         && added[i].source == drafts[i] && added[i].finalOrdinal.None?
  }

  predicate CompleteAllowedAnswers(rows: RunRows, after: RunRows, input: CompleteToolInput, r: CompleteToolResult, now: Time) {
    var run, last := rows.run, |rows.steps| - 1;
    if input.observation.bytes > run.limits.observationMaxBytes then r == ObservationTooLarge
    else if input.contextBytes < 0 || input.contextBytes > run.limits.contextMaxBytes then r == CompleteToolContextLimit
    else if !InProgress(rows, input.stepId) then r == CompleteToolStale
    else if |rows.evidence| + |input.evidence| > run.limits.maxEvidence then r == EvidenceLimitExceeded
    else if !input.documentsAuthorized then r == InvalidEvidence
    else if (exists i :: 0 <= i < |input.evidence| && !input.evidence[i].storable)
            || input.observation.storedBytes.None? || input.observation.storedBytes.value > AGENT_OBSERVATION_MAX_BYTES
    then r == CompleteToolThrew
    else
      && r.ToolStepCompleted? && IsCompleted(rows.steps[last], r.step, input.observation, now)
      && AreNewRows(r.evidence, input.evidence, input.stepId, |rows.evidence|)
      && after == RunRows(run.(contextBytes := input.contextBytes), rows.steps[last := r.step], rows.evidence + r.evidence)
  }

  /** The step in progress, now failed with this code. */
  predicate HasFailed(step: StepRecord, after: StepRecord, code: ErrorCode, now: Time) {
    && after.status == StepFailed && after.errorCode == Some(code) && after.completedAt == Some(now)
    && step == after.(status := step.status, errorCode := step.errorCode, completedAt := step.completedAt)
  }

  lemma FailStepDecides(rows: RunRows, member: bool, fence: Fence, input: FailStepInput, now: Time)
    requires Consistent(rows)
    ensures var (after, r) := FailStep(rows, member, fence, input, now);
      match StandingOf(rows.run, member, fence, now)
      case Good =>
        if input.contextBytes < 0 || input.contextBytes > rows.run.limits.contextMaxBytes then r == FailStepContextLimit && after == rows
        else if !InProgress(rows, input.stepId) then r == FailStepStale && after == rows
        else
          && r.StepFailedResult? && HasFailed(rows.steps[|rows.steps| - 1], r.step, input.errorCode, now)
          && after == RunRows(rows.run.(contextBytes := input.contextBytes), rows.steps[|rows.steps| - 1 := r.step], rows.evidence)
      case CancelAsked => r == FailStepCancelRequested
      case AccessLost => r == FailStepAccessRevoked
      case TimeUp => r == FailStepDeadlineExceeded
      case NotHeld => r == FailStepStale
      case LeaseOver => r == FailStepStale
  {
    hide StepsOk, EvidenceOk, AnswerOk, LastRunning, RunningTool, EndRun;
    OnlyTheLastRuns(rows, input.stepId);
  }

  /** A row of the run's own completed tool steps carries the key. */
  predicate CitesOwnTool(rows: RunRows, key: Text) {
    exists i, j :: 0 <= i < |rows.evidence| && 0 <= j < |rows.steps| && rows.evidence[i].key == key && rows.steps[j].id == rows.evidence[i].stepId
      && rows.steps[j].kind == ToolCall && rows.steps[j].status == StepCompleted
  }

  /** The evidence with its cited rows numbered by their place among the identifiers, and nothing else changed. */
  predicate IsNumbered(evidence: seq<EvidenceRecord>, after: seq<EvidenceRecord>, ids: seq<Text>) {
    && |after| == |evidence|
    && forall i :: 0 <= i < |evidence| ==>
         && evidence[i] == after[i].(finalOrdinal := evidence[i].finalOrdinal)
         && (after[i].finalOrdinal.Some? <==> evidence[i].key in ids)
         && (after[i].finalOrdinal.Some? ==> 1 <= after[i].finalOrdinal.value <= |ids| && ids[after[i].finalOrdinal.value - 1] == evidence[i].key)
  }

  /** The run with its answer, column by column. */
  predicate IsPublished(run: RunRecord, after: RunRecord, result: FinalResult, now: Time) {
    && after.status == Completed && after.stepCount == run.stepCount + 1
    && after.finalStatus == Some(result.status) && after.finalAnswer == Some(result.answer)
    && after.finishedAt == Some(now) && after.leaseOwnerId.None? && after.leaseExpiresAt.None?
    && run == after.(status := run.status, stepCount := run.stepCount, finalStatus := run.finalStatus, finalAnswer := run.finalAnswer,
                     finishedAt := run.finishedAt, leaseOwnerId := run.leaseOwnerId, leaseExpiresAt := run.leaseExpiresAt)
  }

  /** A step that records an answer or a failed decision, column by column. */
  predicate IsMarker(step: StepRecord, id: StepId, sequence: nat, kind: StepKind, code: Option<ErrorCode>, now: Time) {
    && step.id == id && step.sequence == sequence && step.kind == kind
    && step.status == (if code.Some? then StepFailed else StepCompleted) && step.errorCode == code
    && step.toolName.None? && step.safeArguments.None? && step.observation.None?
    && step.executionCount == 1 && step.startedAt == now && step.completedAt == Some(now)
  }

  lemma PublishDecides(rows: RunRows, member: bool, fence: Fence, input: CompleteRunInput, now: Time)
    requires Consistent(rows) && ParseFinalResult(input.finalResult).Some?
    ensures var (after, r) := CompleteRun(rows, member, fence, input, now);
      match StandingOf(rows.run, member, fence, now)
      case Good => PublishAllowed(rows, after, input, ParseFinalResult(input.finalResult).value, r, now)
      case CancelAsked => r == CompleteRunCancelRequested
      case AccessLost => r == CompleteRunAccessRevoked
      case TimeUp => r == CompleteRunDeadlineExceeded
      case NotHeld => r == CompleteRunStale
      case LeaseOver => r == CompleteRunStale
  {
    hide ParseFinalResult, Trim, Consistent, EndRun, EndingGate, PublishParsed, PublishAllowed, StandingOf, CompleteRun;
    var result := ParseFinalResult(input.finalResult).value;
    GateOfStanding(rows, member, fence, now);
    CompleteRunPublishes(rows, member, fence, input, now);
    PublishWithoutAnswer(rows, member, fence, input, result, now);
    if StandingOf(rows.run, member, fence, now) == Good {
      PublishInGoodStanding(rows, member, fence, input, result, now);
    }
  }

  lemma PublishWithoutAnswer(rows: RunRows, member: bool, fence: Fence, input: CompleteRunInput, result: FinalResult, now: Time)
    ensures var gate, r := EndingGate(rows.run, member, fence, now), PublishParsed(rows, member, fence, input.finalStepId, input.idTaken, result, now).1;
      && (gate == Shut ==> r == CompleteRunStale)
      && (gate == Ends(EndCancelled) ==> r == CompleteRunCancelRequested)
      && (gate.Ends? && gate.ending.EndFailed? ==> r == if member then CompleteRunDeadlineExceeded else CompleteRunAccessRevoked)
  {
    hide EndingGate, EndRun, LastRunning, HasFinalAnswer, AllCitable, HasId, Published, TextFits;
  }

  lemma PublishInGoodStanding(rows: RunRows, member: bool, fence: Fence, input: CompleteRunInput, result: FinalResult, now: Time)
    requires Consistent(rows) && rows.run.status == Running && EndingGate(rows.run, member, fence, now) == Open
    ensures var (after, r) := PublishParsed(rows, member, fence, input.finalStepId, input.idTaken, result, now);
      PublishAllowed(rows, after, input, result, r, now)
  {
    hide Consistent, EndingGate, EndRun, LastRunning, HasFinalAnswer, AllCitable, HasId, Published, Taken, IsPublished,
      IsNumbered, IsMarker, CitesOwnTool;
    OnlyTheLastRuns(rows, 0);
    NoAnswerWhileRunning(rows);
    CitableMeansOwn(rows, result.evidenceIds);
    RunningCountsSteps(rows);
    PublishedColumns(rows, input.finalStepId, result, now);
    TakenMeansHasId(rows.steps, input.finalStepId, input.idTaken);
  }

  predicate PublishAllowed(rows: RunRows, after: RunRows, input: CompleteRunInput, result: FinalResult, r: CompleteRunResult, now: Time) {
    var n := |rows.steps|;
    if n >= rows.run.limits.maxSteps then r == CompleteRunStepLimit && after == rows
    else if n > 0 && rows.steps[n - 1].status == StepRunning then r == CompleteRunStale && after == rows
    else if exists key :: key in result.evidenceIds && !CitesOwnTool(rows, key) then r == CompleteRunInvalidEvidence && after == rows
    else if Taken(rows.steps, input.finalStepId, input.idTaken) || NUL in result.answer then r == CompleteRunThrew && after == rows
    else
      && r == RunCompleted && IsPublished(rows.run, after.run, result, now) && IsNumbered(rows.evidence, after.evidence, result.evidenceIds)
      && |after.steps| == n + 1 && after.steps[..n] == rows.steps && IsMarker(after.steps[n], input.finalStepId, n + 1, FinalAnswer, None, now)
  }

  lemma NoAnswerWhileRunning(rows: RunRows)
    requires Consistent(rows) && rows.run.status == Running
    ensures !HasFinalAnswer(rows.steps)
  {
  }

  lemma RunningCountsSteps(rows: RunRows)
    requires Consistent(rows)
    ensures |rows.steps| == rows.run.stepCount
  {
  }

  lemma CitableMeansOwn(rows: RunRows, ids: seq<Text>)
    ensures AllCitable(rows, ids) <==> !exists key :: key in ids && !CitesOwnTool(rows, key)
  {
    forall key
      ensures Citable(rows, key) <==> CitesOwnTool(rows, key)
    {
      if Citable(rows, key) {
        var i :| 0 <= i < |rows.evidence| && rows.evidence[i].key == key && FromCompletedTool(rows.steps, rows.evidence[i].stepId);
      }
      if CitesOwnTool(rows, key) {
        var i, j :| 0 <= i < |rows.evidence| && 0 <= j < |rows.steps| && rows.evidence[i].key == key && rows.steps[j].id == rows.evidence[i].stepId
          && rows.steps[j].kind == ToolCall && rows.steps[j].status == StepCompleted;
        assert FromCompletedTool(rows.steps, rows.evidence[i].stepId);
      }
    }
  }

  lemma TakenMeansHasId(steps: seq<StepRecord>, id: StepId, elsewhere: bool)
    ensures Taken(steps, id, elsewhere) <==> elsewhere || HasId(steps, id)
  {
  }

  lemma PublishedColumns(rows: RunRows, id: StepId, result: FinalResult, now: Time)
    requires |rows.steps| == rows.run.stepCount
    ensures var after, n := Published(rows, id, result, now), |rows.steps|;
      && IsPublished(rows.run, after.run, result, now) && IsNumbered(rows.evidence, after.evidence, result.evidenceIds)
      && |after.steps| == n + 1 && after.steps[..n] == rows.steps && IsMarker(after.steps[n], id, n + 1, FinalAnswer, None, now)
  {
  }

  lemma AbandonDecides(rows: RunRows, member: bool, fence: Fence, input: FailRunInput, now: Time)
    requires Consistent(rows)
    ensures var (after, r) := FailRun(rows, member, fence, input, now);
      match StandingOf(rows.run, member, fence, now)
      case Good => AbandonAllowed(rows, after, input, r, now)
      case CancelAsked => r == FailRunCancelRequested
      case AccessLost => r == FailRunAccessRevoked
      case TimeUp => r == FailRunDeadlineExceeded
      case NotHeld => r == FailRunStale
      case LeaseOver => r == FailRunStale
  {
    hide EvidenceOk, AnswerOk, StepsOk, EndRun, HasId, Taken, IsOver;
    RunningCountsSteps(rows);
    EndedRunsAreOver(rows, EndFailed(input.errorCode), now);
    EndKeepsCounting(rows, EndFailed(input.errorCode), now);
    if input.decisionErrorStepId.Some? {
      TakenMeansHasId(rows.steps, input.decisionErrorStepId.value, input.idTaken);
    }
    var ended := EndRun(rows, EndFailed(input.errorCode), now);
    assert ended == RunRows(ended.run.(stepCount := rows.run.stepCount), ended.steps, ended.evidence);
  }

  lemma EndKeepsCounting(rows: RunRows, ending: Ending, now: Time)
    ensures EndRun(rows, ending, now).run.stepCount == rows.run.stepCount && |EndRun(rows, ending, now).steps| == |rows.steps|
  {
  }

  predicate AbandonAllowed(rows: RunRows, after: RunRows, input: FailRunInput, r: FailRunResult, now: Time) {
    var n, ending := |rows.steps|, EndFailed(input.errorCode);
    match input.decisionErrorStepId
    case None => r == RunFailed && IsOver(rows, after, ending, now)
    case Some(id) =>
      if n >= rows.run.limits.maxSteps then r == FailRunStepLimit && after == rows
      else if Taken(rows.steps, id, input.idTaken) then r == FailRunThrew && after == rows
      else
        && r == RunFailed && |after.steps| == n + 1 && after.run.stepCount == n + 1
        && IsMarker(after.steps[n], id, n + 1, DecisionError, Some(input.errorCode), now)
        && IsOver(rows, RunRows(after.run.(stepCount := n), after.steps[..n], after.evidence), ending, now)
  }

  lemma UnparsedAnswersThrow(rows: RunRows, member: bool, fence: Fence, input: CompleteRunInput, now: Time)
    requires ParseFinalResult(input.finalResult).None?
    ensures CompleteRun(rows, member, fence, input, now) == (rows, CompleteRunThrew)
  {
  }

  // ---------------------------------------------------------------- claims, and the two writes without a fence

  /** Nobody holds the run: it waits, or its lease is over. */
  predicate IsFree(run: RunRecord, now: Time) {
    || run.status == Queued
    || (run.status == Running && run.leaseExpiresAt.Some? && now >= run.leaseExpiresAt.value)
  }

  /** The rows with start and deadline set, the first time the run is claimed. */
  function Clocked(rows: RunRows, now: Time): RunRows {
    if rows.run.startedAt.Some? then rows
    else rows.(run := rows.run.(startedAt := Some(now), deadlineAt := Some(now + 1000 * rows.run.limits.wallTimeSeconds)))
  }

  /** The run as it is handed out: a new generation under a lease of the asked length, or to the deadline. */
  predicate IsHandedOut(run: RunRecord, after: RunRecord, owner: OwnerId, duration: Duration, now: Time) {
    && after.status == Running && after.leaseOwnerId == Some(owner) && after.leaseGeneration == run.leaseGeneration + 1
    && run.deadlineAt.Some?
    && after.leaseExpiresAt == Some(if now + duration <= run.deadlineAt.value then now + duration else run.deadlineAt.value)
    && run == after.(status := run.status, leaseOwnerId := run.leaseOwnerId, leaseGeneration := run.leaseGeneration, leaseExpiresAt := run.leaseExpiresAt)
  }

  /** Only a free run is claimed: ended for cancellation, its deadline or lost access, in that order, or handed out. */
  lemma ClaimDecides(rows: RunRows, members: set<UserId>, owner: OwnerId, duration: Duration, now: Time)
    requires Consistent(rows)
    ensures var after, clocked := Apply(rows, members, Claim(owner, duration), now), Clocked(rows, now);
      if !IsFree(rows.run, now) then after == rows
      else if rows.run.cancelRequestedAt.Some? then IsOver(clocked, after, EndCancelled, now)
      else if clocked.run.deadlineAt.Some? && now >= clocked.run.deadlineAt.value then IsOver(clocked, after, EndFailed(WallTimeExceeded), now)
      else if !IsMember(rows.run, members) then IsOver(clocked, after, EndFailed(SpaceAccessRevoked), now)
      else IsHandedOut(clocked.run, after.run, owner, duration, now) && after.steps == rows.steps && after.evidence == rows.evidence
  {
    hide StepsOk, EvidenceOk, AnswerOk, EndRun, IsOver;
    var clocked := Clocked(rows, now);
    assert Claimable(rows.run, now) ==> clocked == rows.(run := WithTiming(rows.run, now));
    if ClaimEnding(rows.run, IsMember(rows.run, members), now).Some? {
      EndedRunsAreOver(clocked, ClaimEnding(rows.run, IsMember(rows.run, members), now).value, now);
    }
  }

  /** Deleting a user account takes the user out of the two columns that name one, and touches nothing else. */
  lemma ForgettingDecides(rows: RunRows, members: set<UserId>, user: UserId, now: Time)
    ensures var after := Apply(rows, members, ForgetUser(user), now);
      && after.steps == rows.steps && after.evidence == rows.evidence
      && rows.run == after.run.(actorUserId := rows.run.actorUserId, cancelRequestedBy := rows.run.cancelRequestedBy)
      && after.run.actorUserId != Some(user) && after.run.cancelRequestedBy != Some(user)
      && (rows.run.actorUserId != Some(user) ==> after.run.actorUserId == rows.run.actorUserId)
      && (rows.run.cancelRequestedBy != Some(user) ==> after.run.cancelRequestedBy == rows.run.cancelRequestedBy)
  {
  }
}
