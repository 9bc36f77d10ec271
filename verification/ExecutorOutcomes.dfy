/** What an execution owes its caller: the ending it wrote itself, and otherwise the reason it stopped (server/modules/agents/run-executor.ts). */
module ExecutorOutcomes {
  import opened Common
  import opened Utf16
  import opened AgentContracts
  import opened AgentRows
  import opened AgentTransactions
  import opened AgentInvariant
  import opened AgentHistory
  import opened AgentDatabase
  import opened AgentLadder
  import opened ExecutionContext
  import opened ExecutorRely
  import opened ExecutorWrites

  datatype Outcome =
    | OutcomeCompleted
    | OutcomeCancelled
    | OutcomeStale
    | OutcomeInterrupted(cause: Option<ErrorCode>)
    | OutcomeFailed(code: ErrorCode)

  /** How an awaited provider or tool call ends. */
  datatype External<T> =
    | Returned(value: T)
    | CallerInterrupted
    | RunDeadline
    | OperationTimeout
    | KnownError(code: ErrorCode)
    | UnknownError

  datatype Decision = Answer(result: FinalResult) | UseTool(toolName: ToolName, arguments: Json)

  /** The last bad news an execution had from outside. */
  datatype News =
    | NoNews
    | SignalAborted
    | StopRequested
    | CallThrew
    | ContextRejected(code: ErrorCode)
    | OtherModel
    | NoOffer
    | CallRejected(known: Option<ErrorCode>, resuming: bool)
    | DecisionFailed(how: External<()>)
    | AnswerRejected
    | ToolFailed(how: External<()>)
    | ObservationRejected
    | EvidenceRejected
    | Refused(guard: WriteGuard)
    | StepDiffers

  /** The code a run is failed with on such news, and whether a decision-error step records it. */
  function FailureOn(news: News): Option<(ErrorCode, bool)> {
    match news
    case ContextRejected(code) => Some((code, true))
    case OtherModel => Some((ProviderUnavailable, true))
    case NoOffer => Some((PersistenceFailed, true))
    case CallRejected(known, resuming) =>
      Some((if known.Some? then known.value else if resuming then PersistenceFailed else ToolInvalidResponse, true))
    case DecisionFailed(how) =>
      if how.RunDeadline? then Some((WallTimeExceeded, false))
      else if how.CallerInterrupted? then None
      else Some((if how.KnownError? then how.code else ProviderUnavailable, true))
    case AnswerRejected => Some((InvalidFinalAnswer, true))
    case ToolFailed(how) =>
      if how.RunDeadline? then Some((WallTimeExceeded, false))
      else if how == KnownError(SpaceAccessRevoked) then Some((SpaceAccessRevoked, false))
      else None
    case ObservationRejected => Some((ObservationLimit, false))
    case EvidenceRejected => Some((ToolInvalidResponse, false))
    case Refused(guard) =>
      if guard == GuardDeadlineExceeded then Some((WallTimeExceeded, false))
      else if guard == GuardAccessRevoked then Some((SpaceAccessRevoked, false))
      else None
    case _ => None
  }

  /** The code a tool's step is failed with, where the run goes on. */
  function StepFailureOn(news: News): Option<ErrorCode> {
    if !news.ToolFailed? then None
    else match news.how
      case OperationTimeout => Some(ToolTimeout)
      case KnownError(code) => if code == SpaceAccessRevoked then None else Some(code)
      case UnknownError => Some(ToolInvalidResponse)
      case _ => None
  }

  /** News on which an execution stops without writing. */
  predicate Interrupts(news: News, cause: Option<ErrorCode>) {
    if cause.Some? then cause == Some(PersistenceFailed) && (news.CallThrew? || news.ContextRejected?)
    else news.SignalAborted? || news.StopRequested? || (news.DecisionFailed? && news.how.CallerInterrupted?) || (news.ToolFailed? && news.how.CallerInterrupted?)
  }

  // ---------------------------------------------------------------- the endings of one's own

  /** How a transaction ended the run, if it did. */
  function EndingOf(before: RunRows, after: RunRows): Option<Outcome> {
    if before.run.status != Running then None
    else match after.run.status
      case Completed => Some(OutcomeCompleted)
      case Cancelled => Some(OutcomeCancelled)
      case Failed => if after.run.errorCode.Some? then Some(OutcomeFailed(after.run.errorCode.value)) else None
      case _ => None
  }

  function EndingAt(db: Database, next: Database, id: RunId): Option<Outcome> {
    if id in db.runs && id in next.runs then EndingOf(db.runs[id], next.runs[id]) else None
  }

  /** The run row says exactly what the outcome claims. */
  predicate OutcomeIsDurable(db: Database, id: RunId, o: Outcome) {
    match o
    case OutcomeCompleted => id in db.runs && db.runs[id].run.status == Completed
    case OutcomeCancelled => id in db.runs && EndedAs(db.runs[id], EndCancelled)
    case OutcomeFailed(code) => id in db.runs && EndedAs(db.runs[id], EndFailed(code))
    case _ => true
  }

  lemma EndingsAreDurable(db: Database, next: Database, id: RunId)
    ensures EndingAt(db, next, id).Some? ==> OutcomeIsDurable(next, id, EndingAt(db, next, id).value)
  {
  }

  /** A write of the executor that holds this fence; its worker's heartbeats are not. */
  predicate IsOwn(action: DbAction, id: RunId, fence: Fence) {
    action.OnRun? && action.id == id && !Foreign(action.action, fence)
  }

  /** How the last of the script's own writes that ended the run ended it. */
  function Owed(start: Database, script: seq<DbAction>, id: RunId, fence: Fence): Option<Outcome> {
    if script == [] then None
    else
      var front := script[..|script| - 1];
      var db, next := ReplayDb(start, front), ReplayDb(start, script);
      if IsOwn(script[|script| - 1], id, fence) && EndingAt(db, next, id).Some? then EndingAt(db, next, id)
      else Owed(start, front, id, fence)
  }

  lemma OthersOweNothing(start: Database, script: seq<DbAction>, id: RunId, fence: Fence, action: DbAction)
    requires ForeignDb(action, id, fence)
    ensures Owed(start, script + [action], id, fence) == Owed(start, script, id, fence)
  {
    hide ReplayDb;
    assert (script + [action])[..|script|] == script;
  }

  lemma OwnWritesOwe(start: Database, script: seq<DbAction>, db: Database, next: Database, id: RunId, fence: Fence, action: RunAction, now: Time)
    requires ReplayDb(start, script) == db && ReplayDb(start, script + [OnRun(id, action, now)]) == next
    requires FenceOf(action) == Some(fence) && !action.Heartbeat?
    ensures Owed(start, script + [OnRun(id, action, now)], id, fence) ==
      if EndingAt(db, next, id).Some? then EndingAt(db, next, id) else Owed(start, script, id, fence)
  {
    hide ReplayDb, EndingAt;
    assert (script + [OnRun(id, action, now)])[..|script|] == script;
  }

  // ---------------------------------------------------------------- what each answer owes

  /** The fence is not held any more, or its lease is over. */
  predicate Superseded(run: RunRecord, fence: Fence, now: Time) {
    || run.status != Running || run.leaseOwnerId != Some(fence.owner) || run.leaseGeneration != fence.generation
    || (run.leaseExpiresAt.Some? && now >= run.leaseExpiresAt.value)
  }

  function EndingOfPublish(r: CompleteRunResult): Option<Outcome> {
    match r
    case RunCompleted => Some(OutcomeCompleted)
    case CompleteRunCancelRequested => Some(OutcomeCancelled)
    case CompleteRunDeadlineExceeded => Some(OutcomeFailed(WallTimeExceeded))
    case CompleteRunAccessRevoked => Some(OutcomeFailed(SpaceAccessRevoked))
    case _ => None
  }

  function EndingOfAbandon(r: FailRunResult, code: ErrorCode): Option<Outcome> {
    match r
    case RunFailed => Some(OutcomeFailed(code))
    case FailRunCancelRequested => Some(OutcomeCancelled)
    case FailRunDeadlineExceeded => Some(OutcomeFailed(WallTimeExceeded))
    case FailRunAccessRevoked => Some(OutcomeFailed(SpaceAccessRevoked))
    case _ => None
  }

  function EndingOfFail(r: FailStepResult): Option<Outcome> {
    match r
    case FailStepCancelRequested => Some(OutcomeCancelled)
    case FailStepDeadlineExceeded => Some(OutcomeFailed(WallTimeExceeded))
    case FailStepAccessRevoked => Some(OutcomeFailed(SpaceAccessRevoked))
    case _ => None
  }

  function EndingOfReserve(r: ReserveResult): Option<Outcome> {
    match r
    case ReserveRefused(guard) =>
      if guard == GuardDeadlineExceeded then Some(OutcomeFailed(WallTimeExceeded))
      else if guard == GuardAccessRevoked then Some(OutcomeFailed(SpaceAccessRevoked))
      else None
    case _ => None
  }

  lemma OverMeansEnding(rows: RunRows, after: RunRows, ending: Ending, now: Time)
    requires rows.run.status == Running && IsOver(rows, after, ending, now)
    ensures EndingOf(rows, after) == Some(if ending == EndCancelled then OutcomeCancelled else OutcomeFailed(ending.code))
  {
  }

  /** The standing, and what the ladder does about it, without how. */
  lemma LadderEnds(rows: RunRows, members: set<UserId>, action: RunAction, now: Time)
    requires Consistent(rows) && FenceOf(action).Some? && AgentLadder.Reaches(action)
    ensures var standing := StandingOf(rows.run, IsMember(rows.run, members), FenceOf(action).value, now);
      var after := Apply(rows, members, action, now);
      match ReactionTo(standing, action)
      case LeavesAlone => after == rows
      case EndsWith(ending) => EndingOf(rows, after) == Some(if ending == EndCancelled then OutcomeCancelled else OutcomeFailed(ending.code))
      case GoesOn => true
    ensures StandingOf(rows.run, IsMember(rows.run, members), FenceOf(action).value, now) in {NotHeld, LeaseOver} <==>
      StandingOf(rows.run, IsMember(rows.run, members), FenceOf(action).value, now) !in {CancelAsked, AccessLost, TimeUp, Good}
    ensures StandingOf(rows.run, IsMember(rows.run, members), FenceOf(action).value, now) in {NotHeld, LeaseOver} ==>
      Superseded(rows.run, FenceOf(action).value, now)
  {
    hide Apply, IsOver, Consistent, ParseFinalResult, Trim;
    FencedWritesClimbOneLadder(rows, members, action, now);
    var standing := StandingOf(rows.run, IsMember(rows.run, members), FenceOf(action).value, now);
    if ReactionTo(standing, action).EndsWith? {
      OverMeansEnding(rows, Apply(rows, members, action, now), ReactionTo(standing, action).ending, now);
    }
  }

  /** What a publication owes under a live, permitted lease. */
  lemma GoodPublishOwes(rows: RunRows, member: bool, fence: Fence, input: CompleteRunInput, now: Time)
    requires Consistent(rows) && ParseFinalResult(input.finalResult).Some? && StandingOf(rows.run, member, fence, now) == Good
    ensures var (after, r) := CompleteRun(rows, member, fence, input, now);
      && EndingOf(rows, after) == EndingOfPublish(r)
      && (r == CompleteRunStale ==> Holds(rows.run, fence) && LastRunning(rows.steps).Some?)
  {
    hide Trim, Consistent, ParseFinalResult, CompleteRun, IsPublished, IsNumbered, IsMarker, Taken, CitesOwnTool, LastRunning, EndingOf;
    PublishDecides(rows, member, fence, input, now);
    GoodStandingHolds(rows.run, member, fence, now);
    hide StandingOf, Holds;
    PublicationsEnd(rows, CompleteRun(rows, member, fence, input, now).0, ParseFinalResult(input.finalResult).value, now);
    OnlyTheLastRuns(rows, 0);
  }

  lemma GoodStandingHolds(run: RunRecord, member: bool, fence: Fence, now: Time)
    requires StandingOf(run, member, fence, now) == Good
    ensures Holds(run, fence) && run.status == Running
  {
  }

  /** And where the ladder ends or leaves the run. */
  lemma OtherPublishOwes(rows: RunRows, members: set<UserId>, fence: Fence, input: CompleteRunInput, now: Time)
    requires Consistent(rows) && ParseFinalResult(input.finalResult).Some?
    requires StandingOf(rows.run, IsMember(rows.run, members), fence, now) != Good
    ensures var (after, r) := CompleteRun(rows, IsMember(rows.run, members), fence, input, now);
      && EndingOf(rows, after) == EndingOfPublish(r)
      && (r == CompleteRunStale ==> Superseded(after.run, fence, now))
  {
    hide Trim, Consistent, ParseFinalResult, CompleteRun, StandingOf, EndingOf, PublishAllowed, Superseded, ReactionTo, IsMember;
    var member := IsMember(rows.run, members);
    LadderEnds(rows, members, Publish(fence, input), now);
    PublishDecides(rows, member, fence, input, now);
    PublishReactions(StandingOf(rows.run, member, fence, now), Publish(fence, input));
    PublicationsEnd(rows, CompleteRun(rows, member, fence, input, now).0, ParseFinalResult(input.finalResult).value, now);
  }

  lemma PublishOwes(rows: RunRows, members: set<UserId>, fence: Fence, input: CompleteRunInput, now: Time)
    requires Consistent(rows) && ParseFinalResult(input.finalResult).Some?
    ensures var (after, r) := CompleteRun(rows, IsMember(rows.run, members), fence, input, now);
      && EndingOf(rows, after) == EndingOfPublish(r)
      && (r == CompleteRunStale ==> Superseded(after.run, fence, now) || (Holds(rows.run, fence) && LastRunning(rows.steps).Some?))
  {
    hide Trim, Consistent, ParseFinalResult, CompleteRun, StandingOf, EndingOf, Superseded, IsMember, Holds, LastRunning, EndingOfPublish;
    if StandingOf(rows.run, IsMember(rows.run, members), fence, now) == Good {
      GoodPublishOwes(rows, IsMember(rows.run, members), fence, input, now);
    } else {
      OtherPublishOwes(rows, members, fence, input, now);
    }
  }

  lemma PublishReactions(standing: Standing, action: RunAction)
    requires action.Publish? || action.Abandon? || action.Fail?
    ensures ReactionTo(standing, action) == match standing
      case NotHeld => LeavesAlone
      case CancelAsked => EndsWith(EndCancelled)
      case AccessLost => EndsWith(EndFailed(SpaceAccessRevoked))
      case TimeUp => EndsWith(EndFailed(WallTimeExceeded))
      case LeaseOver => LeavesAlone
      case Good => GoesOn
  {
  }

  lemma PublicationsEnd(rows: RunRows, after: RunRows, result: FinalResult, now: Time)
    ensures rows.run.status == Running && IsPublished(rows.run, after.run, result, now) ==> EndingOf(rows, after) == Some(OutcomeCompleted)
    ensures after == rows ==> EndingOf(rows, after) == None
  {
  }

  lemma AbandonOwes(rows: RunRows, members: set<UserId>, fence: Fence, input: FailRunInput, now: Time)
    requires Consistent(rows)
    ensures var (after, r) := FailRun(rows, IsMember(rows.run, members), fence, input, now);
      && EndingOf(rows, after) == EndingOfAbandon(r, input.errorCode)
      && (r == FailRunStale ==> Superseded(after.run, fence, now))
  {
    hide Consistent, FailRun, IsMarker, Taken, ReactionTo, StepIsOver;
    var member := IsMember(rows.run, members);
    LadderEnds(rows, members, Abandon(fence, input), now);
    AbandonDecides(rows, member, fence, input, now);
    PublishReactions(StandingOf(rows.run, member, fence, now), Abandon(fence, input));
    GateOfStanding(rows, member, fence, now);
  }

  lemma FailOwes(rows: RunRows, members: set<UserId>, fence: Fence, input: FailStepInput, now: Time)
    requires Consistent(rows)
    ensures var (after, r) := FailStep(rows, IsMember(rows.run, members), fence, input, now);
      && EndingOf(rows, after) == EndingOfFail(r)
      && (r == FailStepStale ==> Superseded(after.run, fence, now) || (Holds(rows.run, fence) && !InProgress(rows, input.stepId)))
  {
    hide Consistent, FailStep, HasFailed, ReactionTo;
    var member := IsMember(rows.run, members);
    LadderEnds(rows, members, Fail(fence, input), now);
    FailStepDecides(rows, member, fence, input, now);
    PublishReactions(StandingOf(rows.run, member, fence, now), Fail(fence, input));
    GateOfStanding(rows, member, fence, now);
  }

  lemma ReserveOwes(rows: RunRows, members: set<UserId>, fence: Fence, input: ReserveInput, now: Time)
    requires Consistent(rows)
    ensures var (after, r) := ReserveStep(rows, IsMember(rows.run, members), fence, input, now);
      && EndingOf(rows, after) == EndingOfReserve(r)
      && (r == ReserveStale ==> Superseded(after.run, fence, now))
      && (r == IncompleteStep ==> Holds(rows.run, fence) && LastRunning(rows.steps).Some?)
      && (r == ReserveRefused(GuardCancelRequested) ==> after.run.cancelRequestedAt.Some?)
      && (r.Reserved? || r.Resumed? ==> Holds(rows.run, fence) && after.run.spaceId == rows.run.spaceId)
  {
    hide Consistent, ReserveStep, ReserveAllowed, IsNewTool, Taken, LastRunning, Resumes;
    var member := IsMember(rows.run, members);
    LadderEnds(rows, members, Reserve(fence, input), now);
    ReserveDecides(rows, member, fence, input, now);
    ReserveAllowedDecides(rows, input, now);
    OnlyTheLastRuns(rows, 0);
    GateOfStanding(rows, member, fence, now);
  }

  lemma CompleteToolOwes(rows: RunRows, members: set<UserId>, fence: Fence, input: CompleteToolInput, now: Time)
    requires Consistent(rows)
    ensures var (after, r) := CompleteToolStep(rows, IsMember(rows.run, members), fence, input, now);
      && EndingOf(rows, after) == None
      && (r == CompleteToolStale ==> Superseded(after.run, fence, now) || (Holds(rows.run, fence) && !InProgress(rows, input.stepId)))
      && (r == CompleteToolRefused(GuardCancelRequested) ==> after.run.cancelRequestedAt.Some?)
  {
    hide Consistent, CompleteToolStep, IsCompleted, AreNewRows;
    var member := IsMember(rows.run, members);
    CompleteToolDecides(rows, member, fence, input, now);
    GateOfStanding(rows, member, fence, now);
  }

  lemma SettleOwes(rows: RunRows, members: set<UserId>, fence: Fence, now: Time)
    requires Consistent(rows)
    ensures var (after, r) := MarkCancelled(rows, fence, now);
      && EndingOf(rows, after) == (if r.MarkedCancelled? then Some(OutcomeCancelled) else None)
      && (r == MarkCancelledStale ==> Superseded(after.run, fence, now))
      && (r == MarkNotRequested ==> after.run.cancelRequestedAt.None?)
  {
    hide StepsOk, EvidenceOk, AnswerOk;
  }

  lemma ReadsTell(rows: RunRows, member: bool, fence: Fence, now: Time)
    requires Consistent(rows)
    ensures ReadExecutionState(rows, member, fence, now) == ReadStale ==> Superseded(rows.run, fence, now)
    ensures ReadExecutionState(rows, member, fence, now) == ReadRefused(GuardCancelRequested) ==> rows.run.cancelRequestedAt.Some?
  {
    hide StepsOk, EvidenceOk, AnswerOk;
    ReadDecides(rows, member, fence, now);
  }

  // ---------------------------------------------------------------- what the executor knows of rows it holds

  lemma TrackedIsConsistent(start: Database, script: seq<DbAction>, db: Database, id: RunId, fence: Fence)
    requires OnTrack(start, script, db, id, fence) && id in db.runs
    ensures Consistent(db.runs[id])
  {
    hide ReplayDb, DisciplinedScript, Consistent;
    SoundIsConsistent(db);
  }

  /** The same work runs the same step. */
  lemma SameWorkRuns(rows: RunRows, seen: RunRows, fence: Fence)
    requires Holds(rows.run, fence) ==> SameWork(seen, rows)
    ensures Holds(rows.run, fence) ==> LastRunning(rows.steps) == LastRunning(seen.steps) && forall id :: InProgress(rows, id) == InProgress(seen, id)
  {
  }

  // ---------------------------------------------------------------- cancellation is not withdrawn

  predicate CancelStands(db: Database, id: RunId) {
    id in db.runs ==> db.runs[id].run.cancelRequestedAt.Some?
  }

  lemma CancelsStayRequested(db: Database, action: DbAction, id: RunId)
    requires ConsistentDb(db) && id in db.issued && CancelStands(db, id)
    ensures CancelStands(ApplyDb(db, action), id)
  {
    hide ApplyDb;
    DbActionsMoveForward(db, action);
    var after := ApplyDb(db, action);
    if id in after.runs {
      assert Later(db.runs[id], after.runs[id]);
    }
  }

  lemma TrackedCancelsStay(start: Database, script: seq<DbAction>, db: Database, action: DbAction, id: RunId, fence: Fence)
    requires OnTrack(start, script, db, id, fence) && CancelStands(db, id)
    ensures CancelStands(ApplyDb(db, action), id)
  {
    hide ApplyDb, CancelStands, ReplayDb, DisciplinedScript;
    SoundIsConsistent(db);
    CancelsStayRequested(db, action, id);
  }

  lemma OneMoreTransaction(start: Database, script: seq<DbAction>, action: DbAction)
    ensures ReplayDb(start, script + [action]) == ApplyDb(ReplayDb(start, script), action)
  {
    hide ApplyDb;
    assert (script + [action])[..|script|] == script;
  }

  lemma LicensedWritesAreOwn(seen: RunRows, fence: Fence, action: RunAction)
    requires Licensed(seen, fence, action)
    ensures FenceOf(action) == Some(fence)
  {
  }

  // ---------------------------------------------------------------- each write, with what it owes

  /** The run is gone, or the fence is superseded on it. */
  predicate IsBehind(db: Database, id: RunId, fence: Fence, now: Time) {
    id in db.runs ==> Superseded(db.runs[id].run, fence, now)
  }

  /** The write keeps the database on track and the measure from rising. */
  ghost predicate Kept(start: Database, script: seq<DbAction>, db: Database, next: Database, id: RunId, fence: Fence, action: RunAction, now: Time) {
    OnTrack(start, script + [OnRun(id, action, now)], next, id, fence) && 0 <= Progress(next, id) <= Progress(db, id)
  }

  /** The run's last step is this one, running under our lease as the call that was asked for. */
  predicate RunsItsStep(rows: RunRows, fence: Fence, seen: RunRows, input: ReserveInput, step: StepRecord) {
    && Holds(rows.run, fence) && rows.run.spaceId == seen.run.spaceId
    && rows.steps != [] && rows.steps[|rows.steps| - 1] == step && step.status == StepRunning
    && step.toolName == Some(input.toolName) && step.safeArguments == Some(input.safeArguments)
  }

  lemma ReserveWrites(
      start: Database, script: seq<DbAction>, db: Database, next: Database, id: RunId, fence: Fence, seen: RunRows,
      input: ReserveInput, now: Time, r: ReserveResult)
    requires Ready(start, script, db, id, fence, seen)
    requires LastRunning(seen.steps).None? ==> MayReserve(seen, input.toolName)
    requires input.resumeStepId.None? ==> LastRunning(seen.steps).None?
    requires id in db.runs ==>
      var t := ReserveStep(db.runs[id], Actor(db, id), fence, input, now); Rewrites(db, next, id, t.0) && r == t.1
    requires id !in db.runs ==> next == db && r == ReserveStale
    ensures Kept(start, script, db, next, id, fence, Reserve(fence, input), now) && Licensed(seen, fence, Reserve(fence, input))
    ensures EndingAt(db, next, id) == EndingOfReserve(r)
    ensures r != ReserveStepLimit && r != ReserveToolCallLimit && r != ReserveRefused(Allowed)
    ensures r == ReserveRefused(GuardCancelRequested) ==> CancelStands(next, id)
    ensures r == ReserveStale ==> IsBehind(next, id, fence, now)
    ensures r == IncompleteStep ==> input.resumeStepId.Some?
    ensures r.Reserved? || r.Resumed? ==> id in next.runs && RunsItsStep(next.runs[id], fence, seen, input, r.step)
  {
    hide ReserveStep, Progress, WasClaimed, MayReserve, Measure, Apply, EndingOf, Superseded, Licensed, LastRunning,
      DisciplinedScript, ReplayDb, SoundDb, EndingOfReserve;
    ReserveStaysOnTrack(start, script, db, next, id, fence, seen, input, now);
    ReservingIsLicensed(seen, fence, input);
    if id in db.runs {
      TrackedIsConsistent(start, script, db, id, fence);
      ReserveOwes(db.runs[id], MembersOf(db.members, db.runs[id].run.spaceId), fence, input, now);
      SameWorkRuns(db.runs[id], seen, fence);
    } else {
      assert EndingOfReserve(ReserveStale) == None by { EndingOfStale(); }
    }
  }

  lemma EndingOfStale()
    ensures EndingOfReserve(ReserveStale) == None
  {
  }

  lemma CompleteToolWrites(
      start: Database, script: seq<DbAction>, db: Database, next: Database, id: RunId, fence: Fence, seen: RunRows,
      p: Projection, result: ToolResult, q: Projection, authorized: bool, now: Time, r: CompleteToolResult)
    requires Ready(start, script, db, id, fence, seen) && Appends(seen, p, result, q)
    requires id in db.runs ==>
      var t := CompleteToolStep(db.runs[id], Actor(db, id), fence, CompletionOf(seen, result, q, authorized), now);
      Rewrites(db, next, id, t.0) && r == t.1
    requires id !in db.runs ==> next == db && r in {CompleteToolStale, ObservationTooLarge}
    ensures Kept(start, script, db, next, id, fence, CompleteTool(fence, CompletionOf(seen, result, q, authorized)), now)
    ensures Licensed(seen, fence, CompleteTool(fence, CompletionOf(seen, result, q, authorized)))
    ensures EndingAt(db, next, id) == None
    ensures r != EvidenceLimitExceeded && r != CompleteToolContextLimit && r != CompleteToolRefused(Allowed)
    ensures r == CompleteToolRefused(GuardCancelRequested) ==> CancelStands(next, id)
    ensures r == CompleteToolStale ==> IsBehind(next, id, fence, now)
    ensures r.ToolStepCompleted? ==>
      && r.step.id == seen.steps[|seen.steps| - 1].id && r.step.status == StepCompleted && KeysIn(r.evidence) == Predicted(q)
      && Progress(next, id) < Progress(db, id)
  {
    hide CompleteToolStep, WasClaimed, Measure, Apply, EndingOf, Superseded, Licensed, LastRunning, DisciplinedScript, ReplayDb, SoundDb,
      BuildDecisionContext, AppendCompletedToolCall, KeysIn, Predicted;
    CompleteToolStaysOnTrack(start, script, db, next, id, fence, seen, p, result, q, authorized, now);
    CompletingIsLicensed(seen, fence, p, result, q, authorized);
    if id in db.runs {
      TrackedIsConsistent(start, script, db, id, fence);
      CompleteToolOwes(db.runs[id], MembersOf(db.members, db.runs[id].run.spaceId), fence, CompletionOf(seen, result, q, authorized), now);
      SameWorkRuns(db.runs[id], seen, fence);
      AppendsInProgress(seen, p, result, q);
    }
  }

  lemma AppendsInProgress(seen: RunRows, p: Projection, result: ToolResult, q: Projection)
    requires Appends(seen, p, result, q)
    ensures InProgress(seen, seen.steps[|seen.steps| - 1].id)
  {
  }

  lemma FailStepWrites(
      start: Database, script: seq<DbAction>, db: Database, next: Database, id: RunId, fence: Fence, seen: RunRows,
      p: Projection, input: FailStepInput, now: Time, r: FailStepResult)
    requires Ready(start, script, db, id, fence, seen) && seen.run.status == Running && InProgress(seen, input.stepId)
    requires BuildDecisionContext(seen) == Ok(p) && input.contextBytes == p.contextBytes
    requires id in db.runs ==> var t := FailStep(db.runs[id], Actor(db, id), fence, input, now); Rewrites(db, next, id, t.0) && r == t.1
    requires id !in db.runs ==> next == db && r == FailStepStale
    ensures Kept(start, script, db, next, id, fence, Fail(fence, input), now) && Licensed(seen, fence, Fail(fence, input))
    ensures EndingAt(db, next, id) == EndingOfFail(r)
    ensures !r.FailStepContextLimit?
    ensures r == FailStepStale ==> IsBehind(next, id, fence, now)
    ensures r.StepFailedResult? ==> Progress(next, id) < Progress(db, id)
  {
    hide FailStep, WasClaimed, Measure, Apply, EndingOf, Superseded, Licensed, LastRunning, DisciplinedScript, ReplayDb, SoundDb, BuildDecisionContext,
      InProgress;
    FailStepStaysOnTrack(start, script, db, next, id, fence, seen, p, input, now);
    FailingIsLicensed(seen, fence, p, input);
    if id in db.runs {
      TrackedIsConsistent(start, script, db, id, fence);
      FailOwes(db.runs[id], MembersOf(db.members, db.runs[id].run.spaceId), fence, input, now);
      SameWorkRuns(db.runs[id], seen, fence);
    }
  }

  lemma PublishWrites(
      start: Database, script: seq<DbAction>, db: Database, next: Database, id: RunId, fence: Fence, seen: RunRows,
      input: CompleteRunInput, now: Time, r: CompleteRunResult)
    requires Ready(start, script, db, id, fence, seen) && LastRunning(seen.steps).None? && ParseFinalResult(input.finalResult).Some?
    requires id in db.runs ==> var t := CompleteRun(db.runs[id], Actor(db, id), fence, input, now); Rewrites(db, next, id, t.0) && r == t.1
    requires id !in db.runs ==> next == db && r in {CompleteRunStale, CompleteRunThrew}
    ensures Kept(start, script, db, next, id, fence, Publish(fence, input), now) && Licensed(seen, fence, Publish(fence, input))
    ensures EndingAt(db, next, id) == EndingOfPublish(r)
    ensures !r.CompleteRunStepLimit?
    ensures r == CompleteRunStale ==> IsBehind(next, id, fence, now)
  {
    hide CompleteRun, Progress, WasClaimed, Measure, Apply, EndingOf, Superseded, Licensed, LastRunning, DisciplinedScript,
      ReplayDb, SoundDb, ParseFinalResult, Trim;
    CompleteRunStaysOnTrack(start, script, db, next, id, fence, seen, input, now);
    EndingsAreLicensed(seen, fence, Publish(fence, input));
    if id in db.runs {
      TrackedIsConsistent(start, script, db, id, fence);
      PublishOwes(db.runs[id], MembersOf(db.members, db.runs[id].run.spaceId), fence, input, now);
      SameWorkRuns(db.runs[id], seen, fence);
    }
  }

  lemma AbandonWrites(
      start: Database, script: seq<DbAction>, db: Database, next: Database, id: RunId, fence: Fence, seen: RunRows,
      input: FailRunInput, now: Time, r: FailRunResult)
    requires Ready(start, script, db, id, fence, seen)
    requires id in db.runs ==> var t := FailRun(db.runs[id], Actor(db, id), fence, input, now); Rewrites(db, next, id, t.0) && r == t.1
    requires id !in db.runs ==> next == db && r == FailRunStale
    ensures Kept(start, script, db, next, id, fence, Abandon(fence, input), now) && Licensed(seen, fence, Abandon(fence, input))
    ensures EndingAt(db, next, id) == EndingOfAbandon(r, input.errorCode)
    ensures !r.FailRunStepLimit?
    ensures r == FailRunStale ==> IsBehind(next, id, fence, now)
  {
    hide FailRun, Progress, WasClaimed, Measure, Apply, EndingOf, Superseded, Licensed, LastRunning, DisciplinedScript, ReplayDb, SoundDb;
    FailRunStaysOnTrack(start, script, db, next, id, fence, seen, input, now);
    EndingsAreLicensed(seen, fence, Abandon(fence, input));
    if id in db.runs {
      TrackedIsConsistent(start, script, db, id, fence);
      AbandonOwes(db.runs[id], MembersOf(db.members, db.runs[id].run.spaceId), fence, input, now);
    }
  }

  lemma SettleWrites(
      start: Database, script: seq<DbAction>, db: Database, next: Database, id: RunId, fence: Fence, seen: RunRows, now: Time, r: MarkCancelledResult)
    requires Ready(start, script, db, id, fence, seen) && CancelStands(db, id)
    requires id in db.runs ==> var t := MarkCancelled(db.runs[id], fence, now); Rewrites(db, next, id, t.0) && r == t.1
    requires id !in db.runs ==> next == db && r == MarkCancelledStale
    ensures Kept(start, script, db, next, id, fence, Settle(fence), now) && Licensed(seen, fence, Settle(fence))
    ensures EndingAt(db, next, id) == if r.MarkedCancelled? then Some(OutcomeCancelled) else None
    ensures !r.MarkedCancelled? ==> r.MarkCancelledStale? && IsBehind(next, id, fence, now)
  {
    hide Progress, WasClaimed, Measure, Apply, EndingOf, Superseded, Licensed, LastRunning, DisciplinedScript, ReplayDb, SoundDb;
    MarkCancelledStaysOnTrack(start, script, db, next, id, fence, seen, now);
    EndingsAreLicensed(seen, fence, Settle(fence));
    if id in db.runs {
      TrackedIsConsistent(start, script, db, id, fence);
      SettleOwes(db.runs[id], MembersOf(db.members, db.runs[id].run.spaceId), fence, now);
    }
  }
}
