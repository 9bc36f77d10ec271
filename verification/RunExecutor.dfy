/** One execution of a claimed run, with every other actor interleaved (server/modules/agents/run-executor.ts). */
module RunExecutor {
  import opened Common
  import opened Utf16
  import opened AgentContracts
  import opened AgentRows
  import opened AgentTransactions
  import opened AgentInvariant
  import opened AgentHistory
  import opened AgentDiscipline
  import opened AgentDatabase
  import opened ExecutionContext
  import opened ExecutorRely
  import opened ExecutorWrites
  import opened ExecutorOutcomes
  import opened AgentLadder
  import Repo = AgentRepository

  /** What the outermost catch answers. */
  const THREW := OutcomeInterrupted(Some(PersistenceFailed))

  datatype PreparedCall = PreparedCall(toolName: ToolName, safeArguments: Json)

  datatype CheckpointAnswer = Continue | Stop | CheckpointThrew

  /** How a call ended, without what it returned. */
  function How<T>(e: External<T>): External<()> {
    match e
    case Returned(_) => Returned(())
    case CallerInterrupted => CallerInterrupted
    case RunDeadline => RunDeadline
    case OperationTimeout => OperationTimeout
    case KnownError(code) => KnownError(code)
    case UnknownError => UnknownError
  }

  /** The fields two reads must agree on before a decision may be acted on. */
  datatype Snapshot = Snapshot(
    stepCount: nat, toolCallCount: nat, contextBytes: nat, generation: nat, cancelRequestedAt: Option<Time>,
    steps: seq<(StepId, nat, StepStatus, nat)>, evidence: seq<(StepId, Text)>)

  function SnapshotKey(rows: RunRows): Snapshot {
    Snapshot(
      rows.run.stepCount, rows.run.toolCallCount, rows.run.contextBytes, rows.run.leaseGeneration, rows.run.cancelRequestedAt,
      seq(|rows.steps|, i requires 0 <= i < |rows.steps| =>
        (rows.steps[i].id, rows.steps[i].sequence, rows.steps[i].status, rows.steps[i].executionCount)),
      seq(|rows.evidence|, i requires 0 <= i < |rows.evidence| => (rows.evidence[i].stepId, rows.evidence[i].key)))
  }

  /** Reads under one lease always agree, so a decision is never thrown away for a changed snapshot. */
  lemma SameWorkSameSnapshot(a: RunRows, b: RunRows)
    requires SameWork(a, b) && a.run.cancelRequestedAt == b.run.cancelRequestedAt
    ensures SnapshotKey(a) == SnapshotKey(b)
  {
    assert SnapshotKey(a).steps == SnapshotKey(b).steps && SnapshotKey(a).evidence == SnapshotKey(b).evidence;
  }

  /** A durable outcome stays true for as long as the run is not deleted, whatever happens next. */
  lemma DurableOutcomesStay(db: Database, actions: seq<DbAction>, id: RunId, o: Outcome)
    requires ConsistentDb(db) && OutcomeIsDurable(db, id, o)
    ensures id in ReplayDb(db, actions).runs ==> OutcomeIsDurable(ReplayDb(db, actions), id, o)
  {
    hide ReplayDb, Consistent, Measure, StepsExtend, EvidenceGrows;
    ScriptsKeepConsistent(db, actions);
    var after := ReplayDb(db, actions);
    assert id in after.runs && id in db.issued ==> id in db.runs && Later(db.runs[id], after.runs[id]);
  }

  /** The rows are what a successful read hands to the executor. */
  predicate Readable(rows: RunRows, fence: Fence) {
    && Sound(rows) && Holds(rows.run, fence)
    && rows.run.cancelRequestedAt.None? && rows.run.actorUserId.Some? && rows.run.deadlineAt.Some?
  }

  /** No further tool call leaves room for an answer, or is allowed. */
  predicate AnswerOnly(rows: RunRows) {
    rows.run.stepCount + 1 >= rows.run.limits.maxSteps || rows.run.toolCallCount >= rows.run.limits.maxToolCalls
  }

  /** What a read tells an executor that knows the work of the run as long as it holds it. */
  lemma ReadsInform(
      start: Database, script: seq<DbAction>, db: Database, id: RunId, fence: Fence, seen: RunRows, now: Time, r: ReadStateResult)
    requires Ready(start, script, db, id, fence, seen)
    requires id in db.runs ==> r == AgentTransactions.ReadExecutionState(db.runs[id], Actor(db, id), fence, now)
    requires id !in db.runs ==> r == ReadStale
    ensures r != ReadRefused(Allowed)
    ensures r.StateRead? ==>
      && id in db.runs && r.state == db.runs[id] && Readable(db.runs[id], fence) && SameWork(seen, db.runs[id])
      && Ready(start, script, db, id, fence, db.runs[id])
    ensures r.ReadStale? ==> IsBehind(db, id, fence, now)
    ensures r == ReadRefused(GuardCancelRequested) ==> CancelStands(db, id)
  {
    hide StepsOk, EvidenceOk, AnswerOk, ToolsAllowed, ContextExact, DisciplinedScript, ReplayDb, WasClaimed, Superseded;
    if id in db.runs {
      TrackedIsConsistent(start, script, db, id, fence);
      ReadsTell(db.runs[id], Actor(db, id), fence, now);
    }
  }

  /** What the schema makes of a provider's answer. */
  predicate IsParsed(raw: FinalResult, result: FinalResult) {
    ParseFinalResult(raw) == Some(result)
  }

  lemma ParsedAnswersParse(raw: FinalResult, result: FinalResult)
    requires IsParsed(raw, result)
    ensures ParseFinalResult(result).Some?
  {
    hide ParseFinalResult, Trim;
    ParsedResultsStayParsed(raw);
  }

  /** The rows end in this tool call, still running. */
  predicate CallRuns(rows: RunRows, prepared: PreparedCall) {
    && rows.steps != []
    && var last := rows.steps[|rows.steps| - 1];
       last.status == StepRunning && last.toolName == Some(prepared.toolName) && last.safeArguments == Some(prepared.safeArguments)
  }

  class Execution {
    const repo: Repo.AgentRepository
    const id: RunId
    const fence: Fence

    ghost var start: Database
    /** Every transaction since the execution began, ours and everyone else's. */
    ghost var script: seq<DbAction>
    /** The rows as this executor last read or wrote them. */
    ghost var seen: RunRows
    /** The clock reading of our last call. */
    ghost var asked: Time
    /** The last bad news from outside. */
    ghost var news: News
    /** What the registry last offered, the provider last decided, and the tool last returned. */
    ghost var offer: Option<seq<ToolName>>
    ghost var decided: Option<Decision>
    ghost var returned: Option<ToolResult>
    /** How often the run has been read; whether it has been since an awaited answer; whether the checkpoint has let our last write pass. */
    ghost var looks: nat
    ghost var lookedAgain: bool
    ghost var cleared: bool
    /** The signal has been looked at since the run was read: by whoever read it, and by whoever acts on it. */
    ghost var calm: bool
    ghost var heeded: bool
    /** The provider has been found to serve the run's model. */
    ghost var served: bool

    ghost predicate Valid()
      reads this, repo
    {
      && Ready(start, script, repo.Db(), id, fence, seen)
      && (news == Refused(GuardCancelRequested) ==> CancelStands(repo.Db(), id))
    }

    ghost function Left(): int
      reads this, repo
    {
      Progress(repo.Db(), id)
    }

    /** How our own writes have ended the run, if they have. */
    ghost function Ours(): Option<Outcome>
      reads this
    {
      Owed(start, script, id, fence)
    }

    /** Nothing we wrote has ended the run. */
    ghost predicate Going()
      reads this, repo
    {
      Valid() && Ours() == None
    }

    ghost predicate Durable(o: Outcome)
      reads this, repo
    {
      OutcomeIsDurable(repo.Db(), id, o)
    }

    /** The run is gone, or its lease was not ours any more at our last call. */
    ghost predicate Behind()
      reads this, repo
    {
      IsBehind(repo.Db(), id, fence, asked)
    }

    /**
     * An ending is answered exactly when a write of our own ended the run that way; a stale lease and an interruption
     * have their reasons; and a failure of our choosing has the code that the news asks for.
     */
    ghost predicate Justified(o: Outcome)
      reads this, repo
    {
      match o
      case OutcomeStale => Ours() == None && (Behind() || news == StepDiffers)
      case OutcomeInterrupted(cause) => Ours() == None && Interrupts(news, cause)
      case OutcomeFailed(code) =>
        Ours() == Some(o) && (code in {WallTimeExceeded, SpaceAccessRevoked} || (FailureOn(news).Some? && FailureOn(news).value.0 == code))
      case _ => Ours() == Some(o)
    }

    ghost predicate Owes(o: Outcome)
      reads this, repo
    {
      Valid() && Durable(o) && Justified(o)
    }

    constructor (repo: Repo.AgentRepository, id: RunId, fence: Fence)
      requires SoundDb(repo.Db()) && WasClaimed(repo.Db(), id, fence)
      requires id in repo.runs
      ensures Going() && cleared
      ensures this.repo == repo && this.id == id && this.fence == fence && start == repo.Db() && script == []
    {
      this.repo := repo;
      this.id := id;
      this.fence := fence;
      start := repo.Db();
      script := [];
      seen := repo.runs[id];
      asked, news := 0, NoNews;
      offer, decided, returned := None, None, None;
      looks, lookedAgain, cleared, calm, heeded, served := 0, false, true, false, false, false;
    }

    /** Any number of disciplined transactions of everyone else, and heartbeats of our own worker. */
    method Interfere()
      requires Valid()
      modifies this`script, repo
      ensures Valid() && 0 <= Left() <= old(Left()) && Ours() == old(Ours())
    {
      hide ApplyDb, Disciplined, SoundDb, Progress, WasClaimed, Measure, Foreign, Owed, CancelStands;
      ProgressIsBounded(repo.Db(), id, fence, start, script);
      var actions: seq<DbAction> := Anything();
      repo.documents := Anything();
      for i := 0 to |actions|
        invariant Valid() && 0 <= Left() <= old(Left()) && Ours() == old(Ours())
      {
        var db := repo.Db();
        if ForeignDb(actions[i], id, fence) && DisciplinedDb(db, actions[i]) {
          var next := ApplyDb(db, actions[i]);
          StaysOnTrack(start, script, db, id, fence, actions[i]);
          OthersOweNothing(start, script, id, fence, actions[i]);
          if StillHolds(next, id, fence) {
            ForeignDbActionsKeepWork(db, actions[i], id, fence);
          }
          if CancelStands(db, id) {
            TrackedCancelsStay(start, script, db, actions[i], id, fence);
          }
          repo.runs, repo.members, repo.issued := next.runs, next.members, next.issued;
          script := script + [actions[i]];
        }
      }
    }

    /**
     * Records one of our own transactions: licensed by the rows as we knew them, and known to keep the database on track.
     * It settles what we owe if it ended the run.
     */
    ghost method Own(before: Database, action: RunAction, now: Time)
      requires Ready(start, script, before, id, fence, seen) && Licensed(seen, fence, action) && !action.Heartbeat?
      requires Kept(start, script, before, repo.Db(), id, fence, action, now)
      requires news == Refused(GuardCancelRequested) ==> CancelStands(before, id)
      modifies this`script, this`seen
      ensures Valid() && 0 <= Left() <= Progress(before, id)
      ensures id in repo.runs ==> seen == repo.runs[id]
      ensures id !in repo.runs ==> seen == old(seen)
      ensures Ours() == if EndingAt(before, repo.Db(), id).Some? then EndingAt(before, repo.Db(), id) else old(Ours())
    {
      hide DisciplinedScript, SoundDb, WasClaimed, Owed, EndingAt, CancelStands, ReplayDb, ApplyDb, Licensed;
      LicensedWritesAreOwn(seen, fence, action);
      OneMoreTransaction(start, script, OnRun(id, action, now));
      if news == Refused(GuardCancelRequested) {
        TrackedCancelsStay(start, script, before, OnRun(id, action, now), id, fence);
      }
      OwnWritesOwe(start, script, before, repo.Db(), id, fence, action, now);
      script := script + [OnRun(id, action, now)];
      if id in repo.runs {
        seen := repo.runs[id];
      }
    }

    // ------------------------------------------------------------ the seven repository calls

    method Read() returns (r: ReadStateResult)
      requires Going()
      modifies this`script, this`seen, this`asked, this`news, this`looks, this`lookedAgain, this`calm, this`heeded, repo
      ensures Going() && 0 <= Left() <= old(Left())
      ensures r != ReadRefused(Allowed)
      ensures r.StateRead? ==> r.state == seen && Readable(seen, fence) && SameWork(old(seen), seen) && news == old(news)
      ensures r.ReadStale? ==> Behind()
      ensures r.ReadRefused? ==> news == Refused(r.guard)
      ensures lookedAgain && looks == old(looks) + 1 && !calm && !heeded
    {
      hide Ready, Progress, Readable, SameWork, Owed, IsBehind, CancelStands, AgentTransactions.ReadExecutionState;
      Interfere();
      var now := Anything();
      asked := now;
      r := repo.ReadExecutionState(id, fence, now);
      ReadsInform(start, script, repo.Db(), id, fence, seen, now, r);
      lookedAgain, looks, calm, heeded := true, looks + 1, false, false;
      if r.StateRead? {
        seen := repo.runs[id];
      } else if r.ReadRefused? {
        news := Refused(r.guard);
      }
    }

    /** The transaction itself, at some moment of the await, and what it owes. */
    method CallReserveStep(input: ReserveInput) returns (r: ReserveResult)
      requires Going()
      requires LastRunning(seen.steps).None? ==> MayReserve(seen, input.toolName)
      requires input.resumeStepId.None? ==> LastRunning(seen.steps).None?
      modifies this`script, this`seen, this`asked, repo
      ensures Valid() && 0 <= Left() <= old(Left())
      ensures r != ReserveStepLimit && r != ReserveToolCallLimit && r != ReserveRefused(Allowed)
      ensures Ours() == EndingOfReserve(r) && (Ours().Some? ==> Durable(Ours().value))
      ensures r == ReserveRefused(GuardCancelRequested) ==> CancelStands(repo.Db(), id)
      ensures r.ReserveStale? ==> Behind()
      ensures r.IncompleteStep? ==> input.resumeStepId.Some?
      ensures r.Reserved? || r.Resumed? ==>
        && Holds(seen.run, fence) && seen.run.spaceId == old(seen).run.spaceId
        && CallRuns(seen, PreparedCall(input.toolName, input.safeArguments)) && seen.steps[|seen.steps| - 1] == r.step
    {
      hide Ready, Kept, Licensed, IdElsewhere, DisciplinedScript, ReplayDb, ApplyDb, SoundDb, WasClaimed, Measure, SameWork, Progress, Owed, EndingAt, IsBehind,
        CancelStands, OutcomeIsDurable, AgentTransactions.ReserveStep, LastRunning, MayReserve, EndingOfReserve;
      Interfere();
      var now := Anything();
      asked := now;
      ghost var db := repo.Db();
      ghost var checked := repo.ReserveChecked(id, input);
      r := repo.ReserveStep(id, fence, input, now);
      ReserveWrites(start, script, db, repo.Db(), id, fence, seen, checked, now, r);
      EndingsAreDurable(db, repo.Db(), id);
      Own(db, RunAction.Reserve(fence, checked), now);
    }

    /** A call is reserved or resumed only on rows just read, with the signal heeded and our last write let pass. */
    method ReserveStep(input: ReserveInput) returns (r: ReserveResult)
      requires Going() && lookedAgain && heeded && cleared
      requires LastRunning(seen.steps).None? ==> MayReserve(seen, input.toolName)
      requires input.resumeStepId.None? ==> LastRunning(seen.steps).None?
      modifies this`script, this`seen, this`asked, this`news, this`looks, this`lookedAgain, this`cleared, repo
      ensures Valid() && 0 <= Left() <= old(Left())
      ensures r != ReserveStepLimit && r != ReserveToolCallLimit && r != ReserveRefused(Allowed)
      ensures Ours() == EndingOfReserve(r) && (Ours().Some? ==> Durable(Ours().value))
      ensures r.ReserveRefused? ==> news == Refused(r.guard)
      ensures r.ReserveThrew? ==> news == CallThrew
      ensures lookedAgain && looks == old(looks) && !cleared
      ensures r.ReserveStale? ==> Behind()
      ensures r.IncompleteStep? ==> news == StepDiffers && input.resumeStepId.Some?
      ensures r.Reserved? || r.Resumed? ==>
        && Holds(seen.run, fence) && seen.run.spaceId == old(seen).run.spaceId
        && CallRuns(seen, PreparedCall(input.toolName, input.safeArguments)) && seen.steps[|seen.steps| - 1] == r.step
    {
      hide Ready, Owed, Progress, IsBehind, CancelStands, OutcomeIsDurable, LastRunning, MayReserve, EndingOfReserve, CallRuns;
      r := CallReserveStep(input);
      cleared := false;
      match r {
        case ReserveRefused(guard) => news := Refused(guard);
        case ReserveThrew => news := CallThrew;
        case IncompleteStep => news := StepDiffers;
        case _ =>
      }
    }

    /** The transaction itself; it never ends the run. */
    method CallCompleteToolStep(result: ToolResult, stepId: StepId, contextBytes: nat, ghost p: Projection, ghost q: Projection)
      returns (r: CompleteToolResult)
      requires Going() && Appends(seen, p, result, q) && stepId == seen.steps[|seen.steps| - 1].id && contextBytes == q.contextBytes
      modifies this`script, this`seen, this`asked, repo
      ensures Going() && 0 <= Left() <= old(Left())
      ensures r != EvidenceLimitExceeded && r != CompleteToolContextLimit && r != CompleteToolRefused(Allowed)
      ensures r == CompleteToolRefused(GuardCancelRequested) ==> CancelStands(repo.Db(), id)
      ensures r.CompleteToolStale? ==> Behind()
      ensures r.ToolStepCompleted? ==>
        r.step.id == stepId && r.step.status == StepCompleted && KeysIn(r.evidence) == Predicted(q) && Left() < old(Left())
    {
      hide Ready, Kept, Licensed, IdElsewhere, DisciplinedScript, ReplayDb, ApplyDb, SoundDb, WasClaimed, Measure, SameWork, Progress, Owed, EndingAt, IsBehind,
        CancelStands, OutcomeIsDurable, AgentTransactions.CompleteToolStep, Predicted, KeysIn, BuildDecisionContext, AppendCompletedToolCall;
      Interfere();
      var now := Anything();
      asked := now;
      var input := CompleteToolInput(stepId, result.observation, result.evidence, contextBytes, false);
      ghost var db := repo.Db();
      ghost var authorized := id in repo.runs && repo.CompletionChecked(repo.runs[id].run, input).documentsAuthorized;
      r := repo.CompleteToolStepWithEvidence(id, fence, input, now);
      CompleteToolWrites(start, script, db, repo.Db(), id, fence, seen, p, result, q, authorized, now, r);
      Own(db, CompleteTool(fence, CompletionOf(seen, result, q, authorized)), now);
    }

    /** What the tool returned is stored as the call that the rows end in. */
    method CompleteToolStep(result: ToolResult, stepId: StepId, contextBytes: nat, ghost p: Projection, ghost q: Projection)
      returns (r: CompleteToolResult)
      requires Going() && lookedAgain && calm && Appends(seen, p, result, q) && returned == Some(result)
      requires stepId == seen.steps[|seen.steps| - 1].id && contextBytes == q.contextBytes
      modifies this`script, this`seen, this`asked, this`news, this`looks, this`lookedAgain, this`cleared, repo
      ensures Going() && 0 <= Left() <= old(Left())
      ensures r != EvidenceLimitExceeded && r != CompleteToolContextLimit && r != CompleteToolRefused(Allowed)
      ensures r.CompleteToolRefused? ==> news == Refused(r.guard)
      ensures r.ObservationTooLarge? ==> news == ObservationRejected
      ensures r.InvalidEvidence? ==> news == EvidenceRejected
      ensures r.CompleteToolThrew? ==> news == CallThrew
      ensures r.CompleteToolStale? ==> Behind()
      ensures lookedAgain && looks == old(looks) && !cleared
      ensures r.ToolStepCompleted? ==>
        r.step.id == stepId && r.step.status == StepCompleted && KeysIn(r.evidence) == Predicted(q) && Left() < old(Left())
    {
      hide Ready, Owed, Progress, IsBehind, CancelStands, Predicted, KeysIn, BuildDecisionContext, AppendCompletedToolCall;
      r := CallCompleteToolStep(result, stepId, contextBytes, p, q);
      cleared := false;
      match r {
        case CompleteToolRefused(guard) => news := Refused(guard);
        case ObservationTooLarge => news := ObservationRejected;
        case InvalidEvidence => news := EvidenceRejected;
        case CompleteToolThrew => news := CallThrew;
        case _ =>
      }
    }

    /** The step in progress is failed with the code the tool's error asks for. */
    method FailStep(stepId: StepId, code: ErrorCode, p: Projection) returns (r: FailStepResult)
      requires Going() && lookedAgain && calm && seen.run.status == Running && BuildDecisionContext(seen) == Ok(p)
      requires InProgress(seen, stepId) && StepFailureOn(news) == Some(code)
      modifies this`script, this`seen, this`asked, this`news, this`looks, this`lookedAgain, this`cleared, repo
      ensures Valid() && 0 <= Left() <= old(Left())
      ensures !r.FailStepContextLimit?
      ensures Ours() == EndingOfFail(r) && (Ours().Some? ==> Durable(Ours().value))
      ensures r.StepFailedResult? ==> Left() < old(Left())
      ensures r.FailStepStale? ==> Behind()
      ensures looks == old(looks) && !cleared
    {
      hide Ready, Kept, Licensed, IdElsewhere, DisciplinedScript, ReplayDb, ApplyDb, SoundDb, WasClaimed, Measure, SameWork, Progress, Owed, EndingAt, IsBehind,
        CancelStands, OutcomeIsDurable, AgentTransactions.FailStep, BuildDecisionContext, InProgress, StepFailureOn, EndingOfFail;
      Interfere();
      var now := Anything();
      asked := now;
      ghost var db := repo.Db();
      var input := FailStepInput(stepId, code, p.contextBytes);
      r := repo.FailStep(id, fence, input, now);
      FailStepWrites(start, script, db, repo.Db(), id, fence, seen, p, input, now, r);
      EndingsAreDurable(db, repo.Db(), id);
      Own(db, Fail(fence, input), now);
      cleared := false;
    }

    /** The transaction itself, and what it owes. */
    method CallCompleteRun(result: FinalResult) returns (r: CompleteRunResult)
      requires Going() && LastRunning(seen.steps).None? && ParseFinalResult(result).Some?
      modifies this`script, this`seen, this`asked, repo
      ensures Valid() && 0 <= Left() <= old(Left())
      ensures !r.CompleteRunStepLimit?
      ensures Ours() == EndingOfPublish(r) && (Ours().Some? ==> Durable(Ours().value))
      ensures r.CompleteRunStale? ==> Behind()
    {
      hide Ready, Kept, Licensed, IdElsewhere, DisciplinedScript, ReplayDb, ApplyDb, SoundDb, WasClaimed, Measure, SameWork, Progress, Owed, EndingAt, IsBehind,
        CancelStands, OutcomeIsDurable, AgentTransactions.CompleteRun, LastRunning, ParseFinalResult, Trim, EndingOfPublish;
      Interfere();
      var now := Anything();
      asked := now;
      var finalStepId: StepId := Anything();
      ghost var db := repo.Db();
      var input := CompleteRunInput(finalStepId, result, false);
      ghost var checked := repo.AnswerChecked(id, input);
      r := repo.CompleteRun(id, fence, input, now);
      PublishWrites(start, script, db, repo.Db(), id, fence, seen, checked, now, r);
      EndingsAreDurable(db, repo.Db(), id);
      Own(db, Publish(fence, checked), now);
    }

    /** Only what the provider answered is published. */
    method CompleteRun(result: FinalResult) returns (r: CompleteRunResult)
      requires Going() && lookedAgain && heeded && LastRunning(seen.steps).None?
      requires decided.Some? && decided.value.Answer? && IsParsed(decided.value.result, result)
      modifies this`script, this`seen, this`asked, this`news, this`looks, this`lookedAgain, this`cleared, repo
      ensures Valid() && 0 <= Left() <= old(Left())
      ensures !r.CompleteRunStepLimit?
      ensures Ours() == EndingOfPublish(r) && (Ours().Some? ==> Durable(Ours().value))
      ensures r.CompleteRunInvalidEvidence? ==> news == AnswerRejected
      ensures r.CompleteRunThrew? ==> news == CallThrew
      ensures r.CompleteRunStale? ==> Behind()
      ensures lookedAgain && looks == old(looks)
    {
      hide Ready, Owed, Progress, IsBehind, CancelStands, OutcomeIsDurable, LastRunning, ParseFinalResult, Trim, EndingOfPublish, IsParsed;
      ParsedAnswersParse(decided.value.result, result);
      r := CallCompleteRun(result);
      if r.CompleteRunInvalidEvidence? {
        news := AnswerRejected;
      } else if r.CompleteRunThrew? {
        news := CallThrew;
      }
    }

    /** The run is failed only with the code that the last news asks for. */
    method FailRun(code: ErrorCode, withDecisionError: bool) returns (r: FailRunResult)
      requires Going() && lookedAgain && FailureOn(news) == Some((code, withDecisionError))
      modifies this`script, this`seen, this`asked, this`news, this`looks, this`lookedAgain, this`cleared, repo
      ensures Valid() && 0 <= Left() <= old(Left())
      ensures !r.FailRunStepLimit?
      ensures Ours() == EndingOfAbandon(r, code) && (Ours().Some? ==> Durable(Ours().value))
      ensures news == if r.FailRunThrew? then CallThrew else old(news)
      ensures r.FailRunStale? ==> Behind()
      ensures looks == old(looks)
    {
      hide Ready, Kept, Licensed, IdElsewhere, DisciplinedScript, ReplayDb, ApplyDb, SoundDb, WasClaimed, Measure, SameWork, Progress, Owed, EndingAt, IsBehind,
        CancelStands, OutcomeIsDurable, AgentTransactions.FailRun, FailureOn, EndingOfAbandon;
      Interfere();
      var now := Anything();
      asked := now;
      var stepId: StepId := Anything();
      ghost var db := repo.Db();
      var input := FailRunInput(code, if withDecisionError then Some(stepId) else None, false);
      ghost var checked := repo.FailureChecked(id, input);
      r := repo.FailRun(id, fence, input, now);
      AbandonWrites(start, script, db, repo.Db(), id, fence, seen, checked, now, r);
      EndingsAreDurable(db, repo.Db(), id);
      Own(db, Abandon(fence, checked), now);
      if r.FailRunThrew? {
        news := CallThrew;
      }
    }

    /** Cancellation is settled only once it has been reported. */
    method MarkCancelled() returns (r: MarkCancelledResult)
      requires Going() && news == Refused(GuardCancelRequested)
      modifies this`script, this`seen, this`asked, this`news, this`looks, this`lookedAgain, this`cleared, repo
      ensures Valid() && 0 <= Left() <= old(Left())
      ensures Ours() == (if r.MarkedCancelled? then Some(OutcomeCancelled) else None) && (Ours().Some? ==> Durable(Ours().value))
      ensures !r.MarkedCancelled? ==> r.MarkCancelledStale? && Behind()
      ensures looks == old(looks)
    {
      hide Ready, Kept, Licensed, IdElsewhere, DisciplinedScript, ReplayDb, ApplyDb, SoundDb, WasClaimed, Measure, SameWork, Progress, Owed, EndingAt, IsBehind,
        CancelStands, OutcomeIsDurable, AgentTransactions.MarkCancelled;
      Interfere();
      var now := Anything();
      asked := now;
      ghost var db := repo.Db();
      r := repo.MarkCancelled(id, fence, now);
      SettleWrites(start, script, db, repo.Db(), id, fence, seen, now, r);
      EndingsAreDurable(db, repo.Db(), id);
      Own(db, Settle(fence), now);
    }

    // ------------------------------------------------------------ what the outside world answers

    /** Whether the caller's signal is aborted. */
    method Aborted() returns (aborted: bool)
      requires Going()
      modifies this`news, this`calm, this`heeded
      ensures Going() && news == if aborted then SignalAborted else old(news)
      ensures !aborted ==> calm && heeded
    {
      hide Ready, Owed;
      aborted := Anything();
      if aborted {
        news := SignalAborted;
      } else {
        calm, heeded := true, true;
      }
    }

    /** The registry's prepareCall: throws for any name outside the offered ones, and whenever it does not like the arguments. */
    method PrepareCall(names: seq<ToolName>, name: ToolName, arguments: Json, ghost resuming: bool) returns (r: Result<PreparedCall, Option<ErrorCode>>)
      requires Going()
      requires if resuming then CallRuns(seen, PreparedCall(name, arguments)) && names == seen.run.toolNames
               else decided == Some(UseTool(name, arguments)) && (if AnswerOnly(seen) then names == [] else offer == Some(names))
      modifies this`news
      ensures Going()
      ensures r.Ok? ==> r.value.toolName == name && name in names && news == old(news)
      ensures r.Err? ==> news == CallRejected(r.error, resuming)
    {
      hide Ready, Owed;
      var rejected := Anything();
      var code := Anything();
      var normalized: Json := Anything();
      if rejected || name !in names {
        news := CallRejected(code, resuming);
        return Err(code);
      }
      r := Ok(PreparedCall(name, normalized));
    }

    /** The registry's descriptorsFor: each available tool of the configured names once, or it throws. */
    method DescriptorsFor(names: seq<ToolName>) returns (r: Result<seq<ToolName>, ()>)
      requires Going() && names == seen.run.toolNames
      modifies this`news, this`offer
      ensures Going()
      ensures r.Ok? ==> NoDuplicates(r.value) && (forall name :: name in r.value ==> name in names) && offer == Some(r.value) && news == old(news)
      ensures r.Err? ==> news == NoOffer
    {
      hide Ready, Owed;
      var listed: set<ToolName>, descriptors: seq<ToolName> := {}, [];
      for i := 0 to |names|
        invariant Going() && news == old(news)
        invariant NoDuplicates(descriptors) && forall name :: name in descriptors ==> name in listed && name in names
      {
        if names[i] !in listed {
          var throws := Anything();
          var available := Anything();
          if throws {
            news := NoOffer;
            return Err(());
          }
          listed := listed + {names[i]};
          if available {
            descriptors := descriptors + [names[i]];
          }
        }
      }
      offer := Some(descriptors);
      r := Ok(descriptors);
    }

    /** The provider decides on the context the rows spell, with every tool on offer as long as a tool call leaves room for an answer. */
    method AskProvider(context: DecisionContext, offered: seq<ToolName>) returns (answer: External<Decision>)
      requires Going() && heeded && served && BuildDecisionContext(seen).Ok? && context == BuildDecisionContext(seen).value.context
      requires if AnswerOnly(seen) then offered == [] else offer == Some(offered)
      modifies this`news, this`decided, this`lookedAgain
      ensures Going() && !lookedAgain
      ensures answer.Returned? ==> decided == Some(answer.value) && news == old(news)
      ensures !answer.Returned? ==> news == DecisionFailed(How(answer))
    {
      hide Ready, Owed, BuildDecisionContext;
      answer := Anything();
      lookedAgain := false;
      if answer.Returned? {
        decided := Some(answer.value);
      } else {
        news := DecisionFailed(How(answer));
      }
    }

    /** The tool runs only as the step that the rows end in, in the run's own space and for its actor. */
    method RunTool(prepared: PreparedCall, space: SpaceId, actor: UserId) returns (answer: External<ToolResult>)
      requires Going() && served && cleared && CallRuns(seen, prepared) && space == seen.run.spaceId
      modifies this`news, this`returned, this`lookedAgain
      ensures Going() && !lookedAgain
      ensures answer.Returned? ==> returned == Some(answer.value) && news == old(news)
      ensures !answer.Returned? ==> news == ToolFailed(How(answer))
    {
      hide Ready, Owed;
      answer := Anything();
      lookedAgain := false;
      if answer.Returned? {
        returned := Some(answer.value);
      } else {
        news := ToolFailed(How(answer));
      }
    }

    /** Whether the provider still serves the run's model. */
    method SameModel() returns (same: bool)
      requires Going()
      modifies this`news, this`served
      ensures Going() && served == same && news == if same then old(news) else OtherModel
    {
      hide Ready, Owed;
      same := Anything();
      served := same;
      if !same {
        news := OtherModel;
      }
    }

    /** The context of the rows just read, or the reason there is none. */
    method BuildContext(state: RunRows) returns (r: Result<Projection, ErrorCode>)
      requires Going()
      modifies this`news
      ensures Going() && r == BuildDecisionContext(state)
      ensures news == if r.Err? then ContextRejected(r.error) else old(news)
    {
      hide Ready, Owed, BuildDecisionContext;
      r := BuildDecisionContext(state);
      if r.Err? {
        news := ContextRejected(r.error);
      }
    }

    /** The context with the finished call, or a limit that is thrown. */
    method AppendCall(p: Projection, step: StepRecord, result: ToolResult) returns (r: Result<Projection, ErrorCode>)
      requires Going()
      modifies this`news
      ensures Going() && r == AppendCompletedToolCall(p, step, result)
      ensures news == if r.Err? then CallThrew else old(news)
    {
      hide Ready, Owed, AppendCompletedToolCall;
      r := AppendCompletedToolCall(p, step, result);
      if r.Err? {
        news := CallThrew;
      }
    }

    /** The worker's checkpoint: it lets our last write pass, stops the execution, or throws. */
    method AskCheckpoint() returns (answer: CheckpointAnswer)
      requires Going()
      modifies this`news, this`cleared
      ensures Going() && (answer.Continue? ==> cleared)
      ensures news == match answer case Continue => old(news) case Stop => StopRequested case CheckpointThrew => CallThrew
    {
      hide Ready, Owed;
      answer := Anything();
      match answer {
        case Continue => cleared := true;
        case Stop => news := StopRequested;
        case CheckpointThrew => news := CallThrew;
      }
    }

    /** checkpointLease: an execution that is stopped ends there, and an invalid answer throws. */
    method CheckpointLease() returns (o: Option<Outcome>)
      requires Going() && !cleared
      modifies this`news, this`cleared
      ensures Going()
      ensures o.Some? ==> Owes(o.value) && news != SignalAborted
      ensures o.None? ==> cleared && news == old(news)
    {
      hide Ready, Owed;
      var answer := AskCheckpoint();
      match answer {
        case Continue => o := None;
        case Stop => o := Some(OutcomeInterrupted(None));
        case CheckpointThrew => o := Some(THREW);
      }
    }

    // ------------------------------------------------------------ the executor's building blocks

    method SettleCancellation() returns (o: Outcome)
      requires Going() && news == Refused(GuardCancelRequested)
      modifies this`script, this`seen, this`asked, this`news, this`looks, this`lookedAgain, this`cleared, repo
      ensures Owes(o) && looks == old(looks) && o != OutcomeInterrupted(None)
    {
      hide Ready, Progress, Owed;
      var r := MarkCancelled();
      o := if r.MarkedCancelled? then OutcomeCancelled else OutcomeStale;
    }

    /** failRun, with its retry without a decision-error step: that retry is never needed. */
    method FailWith(code: ErrorCode, includeDecisionError: bool) returns (o: Outcome)
      requires Going() && lookedAgain && FailureOn(news) == Some((code, includeDecisionError))
      modifies this`script, this`seen, this`asked, this`news, this`looks, this`lookedAgain, this`cleared, repo
      ensures Owes(o) && looks == old(looks) && o != OutcomeInterrupted(None)
    {
      hide Ready, Progress, Owed, FailureOn;
      var r := FailRun(code, includeDecisionError);
      match r {
        case RunFailed => o := OutcomeFailed(code);
        case FailRunCancelRequested => o := OutcomeCancelled;
        case FailRunDeadlineExceeded => o := OutcomeFailed(WallTimeExceeded);
        case FailRunAccessRevoked => o := OutcomeFailed(SpaceAccessRevoked);
        case FailRunStale => o := OutcomeStale;
        case FailRunStepLimit => assert false;
        case FailRunThrew => o := THREW;
      }
    }

    method SettleGuard(guard: WriteGuard) returns (o: Outcome)
      requires Going() && lookedAgain && guard != Allowed && news == Refused(guard)
      modifies this`script, this`seen, this`asked, this`news, this`looks, this`lookedAgain, this`cleared, repo
      ensures Owes(o) && looks == old(looks) && o != OutcomeInterrupted(None)
    {
      hide Ready, Progress, Owed;
      match guard {
        case GuardCancelRequested => o := SettleCancellation();
        case GuardDeadlineExceeded => o := FailWith(WallTimeExceeded, false);
        case GuardAccessRevoked => o := FailWith(SpaceAccessRevoked, false);
        case Allowed => assert false;
      }
    }

    /** Reads the state again; settles the run when the read is refused. Good news changes nothing. */
    method Recheck() returns (r: Result<RunRows, Outcome>)
      requires Going()
      modifies this`script, this`seen, this`asked, this`news, this`looks, this`lookedAgain, this`cleared, this`calm, this`heeded, repo
      ensures r.Ok? ==> Going() && r.value == seen && Readable(seen, fence) && SameWork(old(seen), seen) && news == old(news)
      ensures r.Ok? ==> lookedAgain && calm && cleared == old(cleared)
      ensures looks == old(looks) + 1
      ensures r.Ok? ==> 0 <= Left() <= old(Left())
      ensures r.Err? ==> Owes(r.error)
    {
      hide Ready, Progress, SameWork, Readable, Owed;
      var current := Read();
      match current {
        case StateRead(state) =>
          var aborted := Aborted();
          r := if aborted then Err(OutcomeInterrupted(None)) else Ok(state);
        case ReadStale => r := Err(OutcomeStale);
        case ReadRefused(guard) =>
          var o := SettleGuard(guard);
          r := Err(o);
      }
    }

    /** Stops for an aborted signal, once the run has been looked at again. */
    method StopOrSettle() returns (o: Outcome)
      requires Going() && news == SignalAborted
      modifies this`script, this`seen, this`asked, this`news, this`looks, this`lookedAgain, this`cleared, this`calm, this`heeded, repo
      ensures Owes(o) && looks > old(looks)
    {
      hide Ready, Progress, SameWork, Readable, Owed;
      var checked := Recheck();
      o := if checked.Err? then checked.error else OutcomeInterrupted(None);
    }

    /** failToolStep: continues with nothing to report when the step failed and the checkpoint lets the execution go on. */
    method FailToolStep(stepId: StepId, code: ErrorCode, p: Projection) returns (o: Option<Outcome>)
      requires Going() && lookedAgain && calm && seen.run.status == Running && BuildDecisionContext(seen) == Ok(p)
      requires InProgress(seen, stepId) && StepFailureOn(news) == Some(code)
      modifies this`script, this`seen, this`asked, this`news, this`looks, this`lookedAgain, this`cleared, repo
      ensures looks == old(looks)
      ensures o.Some? ==> Owes(o.value)
      ensures o.None? ==> Going() && cleared && 0 <= Left() < old(Left())
    {
      hide Ready, Progress, BuildDecisionContext, Owed, InProgress, StepFailureOn;
      var r := FailStep(stepId, code, p);
      match r {
        case StepFailedResult(_) => o := CheckpointLease();
        case FailStepStale => o := Some(OutcomeStale);
        case FailStepCancelRequested => o := Some(OutcomeCancelled);
        case FailStepDeadlineExceeded => o := Some(OutcomeFailed(WallTimeExceeded));
        case FailStepAccessRevoked => o := Some(OutcomeFailed(SpaceAccessRevoked));
        case FailStepContextLimit => assert false;
      }
    }

    /** persistToolSuccess: the limits cannot be met and the stored identifiers are always the predicted ones. */
    method PersistToolSuccess(result: ToolResult, stepId: StepId, p: Projection, q: Projection) returns (o: Option<Outcome>)
      requires Going() && lookedAgain && calm && Appends(seen, p, result, q) && stepId == seen.steps[|seen.steps| - 1].id && returned == Some(result)
      modifies this`script, this`seen, this`asked, this`news, this`looks, this`lookedAgain, this`cleared, repo
      ensures looks == old(looks)
      ensures o.Some? ==> Owes(o.value)
      ensures o.None? ==> Going() && cleared && 0 <= Left() < old(Left())
    {
      hide Ready, Progress, BuildDecisionContext, AppendCompletedToolCall, KeysIn, Predicted, Owed;
      var predictedIds := Predicted(q);
      var r := CompleteToolStep(result, stepId, q.contextBytes, p, q);
      match r {
        case ToolStepCompleted(step, evidence) =>
          if step.id == stepId && step.status == StepCompleted && KeysIn(evidence) == predictedIds {
            o := CheckpointLease();
          } else {
            assert false;
          }
        case CompleteToolStale => o := Some(OutcomeStale);
        case CompleteToolRefused(guard) =>
          var ended := SettleGuard(guard);
          o := Some(ended);
        case ObservationTooLarge =>
          var ended := FailWith(ObservationLimit, false);
          o := Some(ended);
        case InvalidEvidence =>
          var ended := FailWith(ToolInvalidResponse, false);
          o := Some(ended);
        case CompleteToolThrew => o := Some(THREW);
        case EvidenceLimitExceeded => assert false;
        case CompleteToolContextLimit => assert false;
      }
    }

    /** handleReserveResult: the step and tool-call limits are never met. */
    method HandleReserveResult(r: ReserveResult) returns (o: Outcome)
      requires Valid() && !r.Reserved? && !r.Resumed? && Ours() == EndingOfReserve(r) && (Ours().Some? ==> Durable(Ours().value))
      requires r != ReserveStepLimit && r != ReserveToolCallLimit && r != ReserveRefused(Allowed)
      requires r.ReserveRefused? ==> news == Refused(r.guard)
      requires r.ReserveThrew? ==> news == CallThrew
      requires r.ReserveStale? ==> Behind()
      requires r.IncompleteStep? ==> news == StepDiffers
      modifies this`script, this`seen, this`asked, this`news, this`looks, this`lookedAgain, this`cleared, repo
      ensures Owes(o) && o != OutcomeInterrupted(None)
    {
      hide Ready, Progress, Owed;
      if r == ReserveRefused(GuardCancelRequested) {
        o := SettleCancellation();
      } else if r == ReserveRefused(GuardDeadlineExceeded) {
        o := OutcomeFailed(WallTimeExceeded);
      } else if r == ReserveRefused(GuardAccessRevoked) {
        o := OutcomeFailed(SpaceAccessRevoked);
      } else if r.ReserveThrew? {
        o := THREW;
      } else {
        o := OutcomeStale;
      }
    }

    /** The tool call itself failed: settle the run, or fail the step and go on. */
    method HandleToolError(error: External<ToolResult>, stepId: StepId) returns (o: Option<Outcome>)
      requires Going() && !error.Returned? && news == ToolFailed(How(error)) && InProgress(seen, stepId)
      modifies this`script, this`seen, this`asked, this`news, this`looks, this`lookedAgain, this`cleared, this`calm, this`heeded, repo
      ensures looks > old(looks)
      ensures o.Some? ==> Owes(o.value)
      ensures o.None? ==> Going() && cleared && 0 <= Left() < old(Left())
    {
      hide Ready, Progress, BuildDecisionContext, Sound, Owed;
      var checked := Recheck();
      if checked.Err? {
        return Some(checked.error);
      }
      if error.CallerInterrupted? {
        return Some(OutcomeInterrupted(None));
      }
      if error.RunDeadline? {
        var ended := FailWith(WallTimeExceeded, false);
        return Some(ended);
      }
      var code := if error.OperationTimeout? then ToolTimeout else if error.KnownError? then error.code else ToolInvalidResponse;
      if code == SpaceAccessRevoked {
        var ended := FailWith(code, false);
        return Some(ended);
      }
      var projection := BuildContext(checked.value);
      if projection.Err? {
        return Some(THREW);
      }
      o := FailToolStep(stepId, code, projection.value);
    }

    /** The tool call returned: extend the context by it and store both together. A limit met here is thrown. */
    method HandleToolResult(result: ToolResult, step: StepRecord) returns (o: Option<Outcome>)
      requires Going() && seen.steps != [] && seen.steps[|seen.steps| - 1] == step && step.status == StepRunning && returned == Some(result)
      modifies this`script, this`seen, this`asked, this`news, this`looks, this`lookedAgain, this`cleared, this`calm, this`heeded, repo
      ensures looks > old(looks)
      ensures o.Some? ==> Owes(o.value)
      ensures o.None? ==> Going() && cleared && 0 <= Left() < old(Left())
    {
      hide Ready, Progress, BuildDecisionContext, AppendCompletedToolCall, Sound, Owed;
      var checked := Recheck();
      if checked.Err? {
        return Some(checked.error);
      }
      var projection := BuildContext(checked.value);
      if projection.Err? {
        return Some(THREW);
      }
      var appended := AppendCall(projection.value, step, result);
      if appended.Err? {
        return Some(THREW);
      }
      o := PersistToolSuccess(result, step.id, projection.value, appended.value);
    }

    /** Runs the tool of the step just reserved or resumed, and stores what it answered. */
    method RunReserved(state: RunRows, prepared: PreparedCall, step: StepRecord) returns (o: Option<Outcome>)
      requires Going() && served && cleared && Readable(state, fence) && state.run.spaceId == seen.run.spaceId
      requires CallRuns(seen, prepared) && seen.steps[|seen.steps| - 1] == step
      modifies this`script, this`seen, this`asked, this`news, this`looks
      modifies this`lookedAgain, this`cleared, this`returned, this`calm, this`heeded, repo
      ensures looks > old(looks)
      ensures o.Some? ==> Owes(o.value)
      ensures o.None? ==> Going() && cleared && 0 <= Left() < old(Left())
    {
      hide Ready, Progress, Sound, LastRunning, Owed, IsBehind, OutcomeIsDurable, Interrupts, Superseded, CancelStands;
      if state.run.deadlineAt.None? || state.run.actorUserId.None? {
        assert false;
      }
      var answer := RunTool(prepared, state.run.spaceId, state.run.actorUserId.value);
      if answer.Returned? {
        o := HandleToolResult(answer.value, step);
      } else {
        o := HandleToolError(answer, step.id);
      }
    }

    /** executePreparedTool: reserves or resumes the step, runs the tool and stores what it answered. */
    method ExecutePreparedTool(state: RunRows, prepared: PreparedCall, resumeStepId: Option<StepId>) returns (o: Option<Outcome>)
      requires Going() && lookedAgain && served && cleared && Readable(state, fence) && SameWork(state, seen)
      requires LastRunning(seen.steps).None? ==> MayReserve(seen, prepared.toolName)
      requires match resumeStepId
        case None => LastRunning(seen.steps).None? && decided.Some? && decided.value.UseTool? && decided.value.toolName == prepared.toolName
        case Some(stepId) => InProgress(seen, stepId) && seen.steps[|seen.steps| - 1].toolName == Some(prepared.toolName)
      modifies this`script, this`seen, this`asked, this`news, this`looks
      modifies this`lookedAgain, this`cleared, this`returned, this`calm, this`heeded, repo
      ensures o.Some? ==> Owes(o.value) && (news == SignalAborted && o == Some(OutcomeInterrupted(None)) ==> looks > old(looks))
      ensures o.None? ==> Going() && cleared && 0 <= Left() < old(Left())
    {
      hide Ready, Progress, Sound, MayReserve, LastRunning, Owed, IsBehind, OutcomeIsDurable, Interrupts, Superseded, CancelStands;
      var aborted := Aborted();
      if aborted {
        var stopped := StopOrSettle();
        return Some(stopped);
      }
      var newStepId: StepId := Anything();
      var stepId := if resumeStepId.Some? then resumeStepId.value else newStepId;
      var reserved := ReserveStep(ReserveInput(stepId, prepared.toolName, prepared.safeArguments, resumeStepId, false));
      if !reserved.Reserved? && !reserved.Resumed? {
        var ended := HandleReserveResult(reserved);
        return Some(ended);
      }
      o := CheckpointLease();
      if o.Some? {
        return;
      }
      o := RunReserved(state, prepared, reserved.step);
    }

    /** The final answer, parsed and short enough for the run, or nothing. */
    method ParseAnswer(raw: FinalResult, maxCharacters: nat) returns (r: Option<FinalResult>)
      requires Going() && maxCharacters == seen.run.limits.finalAnswerMaxCharacters
      modifies this`news
      ensures Going()
      ensures r.Some? ==> IsParsed(raw, r.value) && |r.value.answer| <= maxCharacters
      ensures r.None? ==> ParseFinalResult(raw).None? || |ParseFinalResult(raw).value.answer| > maxCharacters
      ensures news == if r.None? then AnswerRejected else old(news)
    {
      hide Ready, Owed, ParseFinalResult, Trim;
      r := ParseFinalResult(raw);
      if r.None? || |r.value.answer| > maxCharacters {
        news := AnswerRejected;
        return None;
      }
    }

    /** completeFinal: publishes an answer that parses and is short enough, and fails the run otherwise. */
    method CompleteFinal(state: RunRows, result: FinalResult) returns (o: Outcome)
      requires Going() && lookedAgain && decided == Some(Answer(result)) && LastRunning(seen.steps).None? && state.run.limits == seen.run.limits
      modifies this`script, this`seen, this`asked, this`news, this`looks, this`lookedAgain, this`cleared, this`calm, this`heeded, repo
      ensures Owes(o) && (news == SignalAborted && o == OutcomeInterrupted(None) ==> looks > old(looks))
    {
      hide Ready, Progress, SameWork, Readable, ParseFinalResult, Trim, Owed, LastRunning, IsParsed;
      var aborted := Aborted();
      if aborted {
        o := StopOrSettle();
        return;
      }
      var parsed := ParseAnswer(result, state.run.limits.finalAnswerMaxCharacters);
      if parsed.None? {
        o := FailWith(InvalidFinalAnswer, true);
        return;
      }
      var r := CompleteRun(parsed.value);
      match r {
        case RunCompleted => o := OutcomeCompleted;
        case CompleteRunStale => o := OutcomeStale;
        case CompleteRunCancelRequested => o := OutcomeCancelled;
        case CompleteRunDeadlineExceeded => o := OutcomeFailed(WallTimeExceeded);
        case CompleteRunAccessRevoked => o := OutcomeFailed(SpaceAccessRevoked);
        case CompleteRunInvalidEvidence => o := FailWith(InvalidFinalAnswer, true);
        case CompleteRunStepLimit => assert false;
        case CompleteRunThrew => o := THREW;
      }
    }

    /** The provider did not answer: settle the run, or fail it with the provider's code. */
    method HandleDecisionError(error: External<Decision>) returns (o: Outcome)
      requires Going() && !error.Returned? && news == DecisionFailed(How(error))
      modifies this`script, this`seen, this`asked, this`news, this`looks, this`lookedAgain, this`cleared, this`calm, this`heeded, repo
      ensures Owes(o) && looks > old(looks)
    {
      hide Ready, Progress, SameWork, Readable, Owed;
      var checked := Recheck();
      if checked.Err? {
        return checked.error;
      }
      if error.CallerInterrupted? {
        return OutcomeInterrupted(None);
      }
      if error.RunDeadline? {
        o := FailWith(WallTimeExceeded, false);
        return;
      }
      o := FailWith(if error.KnownError? then error.code else ProviderUnavailable, true);
    }

    /** Acts on a decision, once the rows have been read again and found unchanged. */
    method ActOn(decision: Decision, state: RunRows, offered: seq<ToolName>) returns (o: Option<Outcome>)
      requires Going() && served && cleared && decided == Some(decision)
      requires state == seen && Readable(state, fence) && LastRunning(state.steps).None?
      requires if AnswerOnly(state) then offered == [] else offer == Some(offered) && forall name :: name in offered ==> name in state.run.toolNames
      modifies this`script, this`seen, this`asked, this`news, this`looks
      modifies this`lookedAgain, this`cleared, this`returned, this`calm, this`heeded, repo
      ensures o.Some? ==> Owes(o.value)
      ensures o.None? ==> Going() && cleared && 0 <= Left() < old(Left())
    {
      hide Ready, Progress, StepsOk, EvidenceOk, AnswerOk, ToolsAllowed, ContextExact, LastRunning, SnapshotKey, Owed,
        BuildDecisionContext, IsBehind, OutcomeIsDurable, Interrupts, Superseded, CancelStands;
      var checked := Recheck();
      if checked.Err? {
        return Some(checked.error);
      }
      SameWorkSameSnapshot(state, checked.value);
      if SnapshotKey(checked.value) != SnapshotKey(state) {
        assert false;
      }
      if decision.Answer? {
        var ended := CompleteFinal(checked.value, decision.result);
        return Some(ended);
      }
      var prepared := PrepareCall(offered, decision.toolName, decision.arguments, false);
      if prepared.Err? {
        var ended := FailWith(if prepared.error.Some? then prepared.error.value else ToolInvalidResponse, true);
        return Some(ended);
      }
      o := ExecutePreparedTool(checked.value, prepared.value, None);
    }

    /** One decision on a state without a step in progress. */
    method Decide(state: RunRows, projection: Projection) returns (o: Option<Outcome>)
      requires Going() && lookedAgain && heeded && served && cleared
      requires state == seen && Readable(state, fence) && LastRunning(state.steps).None? && BuildDecisionContext(state) == Ok(projection)
      modifies this`script, this`seen, this`asked, this`news, this`looks, this`lookedAgain
      modifies this`cleared, this`returned, this`offer, this`decided, this`calm, this`heeded, repo
      ensures o.Some? ==> Owes(o.value)
      ensures o.None? ==> Going() && cleared && 0 <= Left() < old(Left())
    {
      hide Ready, Progress, StepsOk, EvidenceOk, AnswerOk, ToolsAllowed, ContextExact, LastRunning, SnapshotKey, Owed,
        BuildDecisionContext, IsBehind, OutcomeIsDurable, Interrupts, Superseded, CancelStands;
      if state.run.stepCount >= state.run.limits.maxSteps {
        assert false;
      }
      var finalOnly := state.run.stepCount + 1 >= state.run.limits.maxSteps || state.run.toolCallCount >= state.run.limits.maxToolCalls;
      var offered: Result<seq<ToolName>, ()> := Ok([]);
      if !finalOnly {
        offered := DescriptorsFor(state.run.toolNames);
      }
      if offered.Err? {
        var ended := FailWith(PersistenceFailed, true);
        return Some(ended);
      }
      if state.run.limits.providerAttempts != 1 && state.run.limits.providerAttempts != 2 {
        assert false;
      }
      var answer := AskProvider(projection.context, offered.value);
      if !answer.Returned? {
        var ended := HandleDecisionError(answer);
        return Some(ended);
      }
      o := ActOn(answer.value, state, offered.value);
    }

    /** Goes on with the step another execution left running. */
    method Resume(state: RunRows, incomplete: StepRecord) returns (o: Option<Outcome>)
      requires Going() && lookedAgain && served && cleared && state == seen && Readable(state, fence)
      requires LastRunning(state.steps).Some? && incomplete == state.steps[LastRunning(state.steps).value]
      modifies this`script, this`seen, this`asked, this`news, this`looks
      modifies this`lookedAgain, this`cleared, this`returned, this`calm, this`heeded, repo
      ensures o.Some? ==> Owes(o.value)
      ensures o.None? ==> Going() && cleared && 0 <= Left() < old(Left())
    {
      hide Ready, Progress, EvidenceOk, AnswerOk, ContextExact, Owed;
      assert StepRowOk(incomplete);
      var prepared := PrepareCall(state.run.toolNames, incomplete.toolName.value, incomplete.safeArguments.value, true);
      if prepared.Err? {
        var ended := FailWith(if prepared.error.Some? then prepared.error.value else PersistenceFailed, true);
        return Some(ended);
      }
      o := ExecutePreparedTool(state, prepared.value, Some(incomplete.id));
    }

    /** Goes on with the step in progress or with a new decision, unless the caller has given up or the model is gone. */
    method Proceed(state: RunRows, projection: Projection) returns (o: Option<Outcome>)
      requires Going() && lookedAgain && cleared && state == seen && Readable(state, fence) && BuildDecisionContext(state) == Ok(projection)
      modifies this`script, this`seen, this`asked, this`news, this`looks, this`lookedAgain, this`cleared
      modifies this`returned, this`offer, this`decided, this`calm, this`heeded, this`served, repo
      ensures o.Some? ==> Owes(o.value)
      ensures o.None? ==> Going() && cleared && 0 <= Left() < old(Left())
    {
      hide Ready, Progress, Sound, SameWork, BuildDecisionContext, Consistent, Owed, IsBehind, Superseded, CancelStands, LastRunning;
      var aborted := Aborted();
      if aborted {
        return Some(OutcomeInterrupted(None));
      }
      if state.run.deadlineAt.None? {
        assert false;
      }
      var sameModel := SameModel();
      if !sameModel {
        var failed := FailWith(ProviderUnavailable, true);
        return Some(failed);
      }
      var incomplete := LastRunning(state.steps);
      if incomplete.Some? {
        o := Resume(state, state.steps[incomplete.value]);
      } else {
        o := Decide(state, projection);
      }
    }

    /** One turn of the loop: reads the run and rebuilds its context, and goes on with both. */
    method Turn() returns (o: Option<Outcome>)
      requires Going() && cleared
      modifies this`script, this`seen, this`asked, this`news, this`looks, this`lookedAgain, this`cleared
      modifies this`returned, this`offer, this`decided, this`calm, this`heeded, this`served, repo
      ensures o.Some? ==> Owes(o.value)
      ensures o.None? ==> Going() && cleared && 0 <= Left() < old(Left())
    {
      hide Ready, Progress, Sound, SameWork, BuildDecisionContext, Consistent, Owed, IsBehind, Superseded, CancelStands, LastRunning;
      var read := Read();
      match read {
        case ReadStale => return Some(OutcomeStale);
        case ReadRefused(guard) =>
          var settled := SettleGuard(guard);
          return Some(settled);
        case StateRead(_) =>
      }
      var state := read.state;
      var projection := BuildContext(state);
      SoundRowsProject(state);
      if projection.Err? {
        assert projection.error == ContextLimit;
        var failed := FailWith(projection.error, true);
        return Some(failed);
      }
      o := Proceed(state, projection.value);
    }

    /**
     * The executor's loop. It ends under any interference, as long as provider, tools and checkpoint answer. It answers
     * an ending exactly when its own write ended the run that way, and the run row says so; it answers stale or
     * interrupted only for a reason, and a stored context is never found corrupt.
     */
    method Execute() returns (o: Outcome)
      requires Going() && cleared
      modifies this`script, this`seen, this`asked, this`news, this`looks, this`lookedAgain, this`cleared
      modifies this`returned, this`offer, this`decided, this`calm, this`heeded, this`served, repo
      ensures Owes(o)
    {
      hide Ready, Progress, Owed, IsBehind, CancelStands;
      while true
        invariant Going() && cleared
        decreases Left()
      {
        var result := Turn();
        if result.Some? {
          return result.value;
        }
      }
    }
  }
}
