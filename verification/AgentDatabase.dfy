/** All runs and memberships together, and the runs of transactions that reach a state. */
module AgentDatabase {
  import opened Common
  import opened Utf16
  import opened AgentContracts
  import opened AgentRows
  import opened AgentTransactions
  import opened AgentInvariant
  import opened AgentHistory
  import opened AgentDiscipline
  import opened ExecutionContext

  /** issued remembers every run identifier ever used: identifiers are never handed out twice. */
  datatype Database = Database(runs: map<RunId, RunRows>, members: set<(SpaceId, UserId)>, issued: set<RunId>)

  datatype NewRun = NewRun(prompt: Json, spaceId: SpaceId, actor: UserId, toolNames: seq<ToolName>, limits: Limits, createdAt: Time)

  datatype DbAction =
    | OnRun(id: RunId, action: RunAction, now: Time)
    | CreateRun(id: RunId, newRun: NewRun)
    | DeleteRun(id: RunId)
    | AddMember(space: SpaceId, user: UserId)
    | RemoveMember(space: SpaceId, user: UserId)

  function MembersOf(members: set<(SpaceId, UserId)>, space: SpaceId): set<UserId> {
    set p | p in members && p.0 == space :: p.1
  }

  /** Access is membership of the run's own space. */
  lemma MembersAreOfTheSpace(members: set<(SpaceId, UserId)>, space: SpaceId, run: RunRecord)
    ensures IsMember(run, MembersOf(members, space)) <==> run.actorUserId.Some? && (space, run.actorUserId.value) in members
  {
    if run.actorUserId.Some? && (space, run.actorUserId.value) in members {
      assert (space, run.actorUserId.value).1 in MembersOf(members, space);
    }
  }

  function FreshRows(n: NewRun): RunRows {
    RunRows(
      RunRecord(n.prompt, n.spaceId, Some(n.actor), n.toolNames, n.limits, n.createdAt, Queued, 0, 0, 0, None, 0, None, None, None,
                None, None, None, None, None, None),
      [], [])
  }

  function ApplyDb(db: Database, action: DbAction): Database {
    match action
    case OnRun(id, a, now) =>
      if id in db.runs
      then db.(runs := db.runs[id := Apply(db.runs[id], MembersOf(db.members, db.runs[id].run.spaceId), a, now)])
      else db
    case CreateRun(id, n) =>
      if id in db.issued || !ValidLimits(n.limits) then db
      else db.(runs := db.runs[id := FreshRows(n)], issued := db.issued + {id})
    case DeleteRun(id) => db.(runs := map k | k in db.runs && k != id :: db.runs[k])
    case AddMember(space, user) => db.(members := db.members + {(space, user)})
    case RemoveMember(space, user) => db.(members := db.members - {(space, user)})
  }

  /** A new run waits with nothing done, for its actor and within its limits. */
  lemma CreatedRunsWait(n: NewRun)
    ensures var rows, run := FreshRows(n), FreshRows(n).run;
      && rows.steps == [] && rows.evidence == [] && run.status == Queued && run.stepCount == run.toolCallCount == run.contextBytes == 0
      && run.actorUserId == Some(n.actor) && run.spaceId == n.spaceId && run.prompt == n.prompt
      && run.toolNames == n.toolNames && run.limits == n.limits && run.createdAt == n.createdAt
      && run.leaseOwnerId.None? && run.leaseExpiresAt.None? && run.cancelRequestedAt.None? && run.startedAt.None? && run.deadlineAt.None?
  {
  }

  /** An action touches the one run it names, and creating one never touches a run that was ever there. */
  lemma ActionsTouchOneRun(db: Database, action: DbAction, id: RunId)
    requires db.runs.Keys <= db.issued
    ensures var after := ApplyDb(db, action);
      && ((action.OnRun? || action.CreateRun? || action.DeleteRun? ==> action.id != id) || (action.CreateRun? && id in db.issued) ==>
            (id in after.runs <==> id in db.runs) && (id in db.runs ==> after.runs[id] == db.runs[id]))
      && (action.DeleteRun? && action.id == id ==> id !in after.runs)
      && (forall space: SpaceId, user: UserId :: (space, user) in after.members <==>
            ((space, user) in db.members && action != RemoveMember(space, user)) || action == AddMember(space, user))
  {
    hide Apply, FreshRows;
  }

  function ReplayDb(db: Database, actions: seq<DbAction>): Database {
    if actions == [] then db else ApplyDb(ReplayDb(db, actions[..|actions| - 1]), actions[|actions| - 1])
  }

  predicate ConsistentDb(db: Database) {
    db.runs.Keys <= db.issued && forall id :: id in db.runs ==> Consistent(db.runs[id])
  }

  predicate SoundDb(db: Database) {
    db.runs.Keys <= db.issued && forall id :: id in db.runs ==> Sound(db.runs[id])
  }

  predicate DisciplinedDb(db: Database, action: DbAction) {
    match action
    case OnRun(id, a, now) => id in db.runs ==> Disciplined(db.runs[id], MembersOf(db.members, db.runs[id].run.spaceId), a, now)
    case _ => true
  }

  /** Every action of the script follows the executor protocol when its turn comes. */
  predicate DisciplinedScript(db: Database, actions: seq<DbAction>) {
    actions == []
    || (DisciplinedScript(db, actions[..|actions| - 1]) && DisciplinedDb(ReplayDb(db, actions[..|actions| - 1]), actions[|actions| - 1]))
  }

  /** A run that is still there moved forward. */
  ghost predicate LaterDb(a: Database, b: Database) {
    && a.issued <= b.issued
    && forall id :: id in b.runs && id in a.issued ==> id in a.runs && Later(a.runs[id], b.runs[id])
  }

  lemma FreshRowsAreSound(n: NewRun)
    requires ValidLimits(n.limits)
    ensures Sound(FreshRows(n))
  {
    assert CitedIds(FreshRows(n).run) == [];
  }

  lemma LaterDbIsReflexive(a: Database)
    requires a.runs.Keys <= a.issued
    ensures LaterDb(a, a)
  {
    forall id | id in a.runs
      ensures Later(a.runs[id], a.runs[id])
    {
      LaterIsReflexive(a.runs[id]);
    }
  }

  lemma DbActionsKeepConsistent(db: Database, action: DbAction)
    requires ConsistentDb(db)
    ensures ConsistentDb(ApplyDb(db, action))
  {
    hide Consistent, Apply, FreshRows;
    match action
    case OnRun(id, a, now) =>
      if id in db.runs {
        TransactionsKeepConsistent(db.runs[id], MembersOf(db.members, db.runs[id].run.spaceId), a, now);
      }
    case CreateRun(id, n) =>
      if ValidLimits(n.limits) { FreshRowsAreSound(n); }
    case _ =>
  }

  lemma DbActionsMoveForward(db: Database, action: DbAction)
    requires ConsistentDb(db)
    ensures LaterDb(db, ApplyDb(db, action))
  {
    hide Consistent, Apply, Later;
    LaterDbIsReflexive(db);
    if action.OnRun? && action.id in db.runs {
      var rows := db.runs[action.id];
      TransactionsMoveForward(rows, MembersOf(db.members, rows.run.spaceId), action.action, action.now);
    }
  }

  lemma LaterDbIsTransitive(a: Database, b: Database, c: Database)
    requires LaterDb(a, b) && LaterDb(b, c)
    ensures LaterDb(a, c)
  {
    forall id | id in c.runs && id in a.issued
      ensures id in a.runs && Later(a.runs[id], c.runs[id])
    {
      LaterIsTransitive(a.runs[id], b.runs[id], c.runs[id]);
    }
  }

  /** Any script of transactions keeps every run consistent and only moves runs forward. */
  lemma {:induction false} ScriptsKeepConsistent(db: Database, actions: seq<DbAction>)
    requires ConsistentDb(db)
    ensures ConsistentDb(ReplayDb(db, actions)) && LaterDb(db, ReplayDb(db, actions))
  {
    if actions == [] {
      LaterDbIsReflexive(db);
    } else {
      var before := ReplayDb(db, actions[..|actions| - 1]);
      ScriptsKeepConsistent(db, actions[..|actions| - 1]);
      DbActionsKeepConsistent(before, actions[|actions| - 1]);
      DbActionsMoveForward(before, actions[|actions| - 1]);
      LaterDbIsTransitive(db, before, ReplayDb(db, actions));
    }
  }

  lemma DbDisciplineKeepsSound(db: Database, action: DbAction)
    requires SoundDb(db) && DisciplinedDb(db, action)
    ensures SoundDb(ApplyDb(db, action))
  {
    hide Sound, Apply, FreshRows, Disciplined;
    match action
    case OnRun(id, a, now) =>
      if id in db.runs {
        DisciplineKeepsSound(db.runs[id], MembersOf(db.members, db.runs[id].run.spaceId), a, now);
      }
    case CreateRun(id, n) =>
      if ValidLimits(n.limits) { FreshRowsAreSound(n); }
    case _ =>
  }

  /** Disciplined scripts keep every run sound, so no run they reach can be rejected as corrupt. */
  lemma {:induction false} DisciplinedScriptsKeepSound(db: Database, actions: seq<DbAction>)
    requires SoundDb(db) && DisciplinedScript(db, actions)
    ensures SoundDb(ReplayDb(db, actions))
    ensures forall id :: id in ReplayDb(db, actions).runs && ReplayDb(db, actions).runs[id].run.status == Running ==>
      var r := BuildDecisionContext(ReplayDb(db, actions).runs[id]);
      r.Ok? || r == Err(ContextLimit)
  {
    var after := ReplayDb(db, actions);
    if actions != [] {
      var before := ReplayDb(db, actions[..|actions| - 1]);
      DisciplinedScriptsKeepSound(db, actions[..|actions| - 1]);
      DbDisciplineKeepsSound(before, actions[|actions| - 1]);
    }
    forall id | id in after.runs && after.runs[id].run.status == Running
      ensures BuildDecisionContext(after.runs[id]).Ok? || BuildDecisionContext(after.runs[id]) == Err(ContextLimit)
    {
      SoundRowsProject(after.runs[id]);
    }
  }

  // ---------------------------------------------------------------- step identifiers are unique in the whole table

  /** Some other run has a step with this identifier. */
  predicate IdElsewhere(runs: map<RunId, RunRows>, id: RunId, stepId: StepId) {
    exists other :: other in runs && other != id && HasId(runs[other].steps, stepId)
  }

  ghost predicate IdsUnique(db: Database) {
    forall id, stepId :: id in db.runs && HasId(db.runs[id].steps, stepId) ==> !IdElsewhere(db.runs, id, stepId)
  }

  /** The identifier of the row an action may insert, unless its input says that it is taken. */
  function NewIdOf(action: RunAction): Option<StepId> {
    match action
    case Reserve(_, input) => if input.idTaken then None else Some(input.stepId)
    case Publish(_, input) => if input.idTaken then None else Some(input.finalStepId)
    case Abandon(_, input) => if input.idTaken then None else input.decisionErrorStepId
    case _ => None
  }

  /** What the action's input says about other runs' identifiers is what the step table says. */
  predicate Checked(db: Database, action: DbAction) {
    action.OnRun? && NewIdOf(action.action).Some? ==> !IdElsewhere(db.runs, action.id, NewIdOf(action.action).value)
  }

  predicate CheckedScript(db: Database, actions: seq<DbAction>) {
    actions == []
    || (CheckedScript(db, actions[..|actions| - 1]) && Checked(ReplayDb(db, actions[..|actions| - 1]), actions[|actions| - 1]))
  }

  /** b has the steps of a under their identifiers, and at most new ones with this one. */
  predicate AddsOnly(a: seq<StepRecord>, b: seq<StepRecord>, id: Option<StepId>) {
    && |a| <= |b|
    && (forall i :: 0 <= i < |a| ==> b[i].id == a[i].id)
    && (forall i :: |a| <= i < |b| ==> Some(b[i].id) == id)
  }

  lemma PublishingAddsOnly(rows: RunRows, member: bool, fence: Fence, id: StepId, idTaken: bool, result: FinalResult, now: Time)
    ensures AddsOnly(rows.steps, PublishParsed(rows, member, fence, id, idTaken, result, now).0.steps, if idTaken then None else Some(id))
  {
    hide AllCitable, CiteAll, HasId, HasFinalAnswer, LastRunning;
  }

  lemma ReservingAddsOnly(rows: RunRows, member: bool, fence: Fence, input: ReserveInput, now: Time)
    ensures AddsOnly(rows.steps, ReserveStep(rows, member, fence, input, now).0.steps, if input.idTaken then None else Some(input.stepId))
  {
    hide HasId, LastRunning, ClassifyWorkerWrite, LeaseExpired, Holds;
  }

  lemma FailingAddsOnly(rows: RunRows, member: bool, fence: Fence, input: FailRunInput, now: Time)
    ensures AddsOnly(rows.steps, FailRun(rows, member, fence, input, now).0.steps, if input.idTaken then None else input.decisionErrorStepId)
  {
    hide HasId, EndingGate;
  }

  lemma NewIdsAreNamed(rows: RunRows, members: set<UserId>, action: RunAction, now: Time)
    ensures AddsOnly(rows.steps, Apply(rows, members, action, now).steps, NewIdOf(action))
  {
    hide PublishParsed, ReserveStep, FailRun, ParseFinalResult, Trim, RunningTool, Holds, EndingGate, ClaimEnding, Claimable, ClassifyWorkerWrite, LeaseExpired,
      AddsOnly, RowsAccept;
    var member := IsMember(rows.run, members);
    match action
    case Reserve(fence, input) => ReservingAddsOnly(rows, member, fence, input, now);
    case Abandon(fence, input) => FailingAddsOnly(rows, member, fence, input, now);
    case Publish(fence, input) =>
      SameStepsAddNothing(rows.steps, rows.steps, NewIdOf(action));
      var parsed := ParseFinalResult(input.finalResult);
      if parsed.Some? {
        PublishingAddsOnly(rows, member, fence, input.finalStepId, input.idTaken, parsed.value, now);
      }
    case _ => SameStepsAddNothing(rows.steps, Apply(rows, members, action, now).steps, NewIdOf(action));
  }

  lemma SameStepsAddNothing(a: seq<StepRecord>, b: seq<StepRecord>, id: Option<StepId>)
    requires |a| == |b| && forall i :: 0 <= i < |a| ==> b[i].id == a[i].id
    ensures AddsOnly(a, b, id)
  {
  }

  lemma KeptOrNamed(db: Database, action: DbAction, id: RunId, stepId: StepId)
    requires id in ApplyDb(db, action).runs && HasId(ApplyDb(db, action).runs[id].steps, stepId)
    ensures (id in db.runs && HasId(db.runs[id].steps, stepId))
         || (action.OnRun? && action.id == id && NewIdOf(action.action) == Some(stepId))
  {
    hide Apply;
    if action.OnRun? && action.id == id {
      NewIdsAreNamed(db.runs[id], MembersOf(db.members, db.runs[id].run.spaceId), action.action, action.now);
    }
  }

  lemma DbActionsKeepIdsUnique(db: Database, action: DbAction)
    requires IdsUnique(db) && Checked(db, action)
    ensures IdsUnique(ApplyDb(db, action))
  {
    hide ApplyDb, HasId;
    var after := ApplyDb(db, action);
    forall id, other, stepId | id in after.runs && other in after.runs && id != other
                               && HasId(after.runs[id].steps, stepId) && HasId(after.runs[other].steps, stepId)
      ensures false
    {
      KeptOrNamed(db, action, id, stepId);
      KeptOrNamed(db, action, other, stepId);
    }
  }

  /** Step identifiers stay unique in the whole table through every script whose writes are checked against it. */
  lemma {:induction false} ScriptsKeepIdsUnique(db: Database, actions: seq<DbAction>)
    requires IdsUnique(db) && CheckedScript(db, actions)
    ensures IdsUnique(ReplayDb(db, actions))
  {
    if actions != [] {
      ScriptsKeepIdsUnique(db, actions[..|actions| - 1]);
      DbActionsKeepIdsUnique(ReplayDb(db, actions[..|actions| - 1]), actions[|actions| - 1]);
    }
  }
}
