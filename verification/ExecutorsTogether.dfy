/** Any number of executors on any runs, interleaved with everyone else (server/modules/agents/run-executor.ts, worker.ts). */
module ExecutorsTogether {
  import opened Common
  import opened AgentContracts
  import opened AgentRows
  import opened AgentTransactions
  import opened AgentInvariant
  import opened AgentHistory
  import opened AgentDiscipline
  import opened AgentDatabase
  import opened ExecutionContext
  import opened ExecutorRely
  import opened ExecutorWrites

  type ExecutionId = nat

  /** What one executor knows: the run and fence it was handed, and the rows as it last read or wrote them. */
  datatype Execution = Execution(run: RunId, fence: Fence, seen: RunRows)

  datatype World = World(db: Database, executions: map<ExecutionId, Execution>)

  datatype WorldEvent =
    | Outside(action: DbAction)
    | Start(execution: ExecutionId, run: RunId, owner: OwnerId, duration: Duration, now: Time)
    | Look(execution: ExecutionId, now: Time)
    | Write(execution: ExecutionId, write: RunAction, now: Time)

  /** The claim hands the run out rather than ending it. */
  predicate HandsOut(db: Database, id: RunId, now: Time) {
    id in db.runs && Claimable(db.runs[id].run, now) && ClaimEnding(db.runs[id].run, Actor(db, id), now).None?
  }

  /** What may happen: only executors write under a fence, and each goes by what it knows. */
  ghost predicate Enabled(w: World, event: WorldEvent) {
    match event
    case Outside(action) => action.OnRun? ==> FenceOf(action.action).None? || action.action.Heartbeat?
    case Start(e, _, _, _, _) => e !in w.executions
    case Look(e, _) => e in w.executions
    case Write(e, action, _) => e in w.executions && Licensed(w.executions[e].seen, w.executions[e].fence, action)
  }

  /** The transaction an event takes, if it takes one. */
  function Taken(w: World, event: WorldEvent): seq<DbAction> {
    match event
    case Outside(action) => [action]
    case Start(_, id, owner, duration, now) => [OnRun(id, Claim(owner, duration), now)]
    case Look(_, _) => []
    case Write(e, action, now) => if e in w.executions then [OnRun(w.executions[e].run, action, now)] else []
  }

  /** What an executor knows once its own write has been answered. */
  function Informed(db: Database, execution: Execution): Execution {
    if execution.run in db.runs then execution.(seen := db.runs[execution.run]) else execution
  }

  predicate MayRead(db: Database, x: Execution, now: Time) {
    x.run in db.runs && ReadExecutionState(db.runs[x.run], Actor(db, x.run), x.fence, now).StateRead?
  }

  function Step(w: World, event: WorldEvent): World {
    match event
    case Outside(action) => w.(db := ApplyDb(w.db, action))
    case Start(e, id, owner, duration, now) =>
      var db := ApplyDb(w.db, OnRun(id, Claim(owner, duration), now));
      if HandsOut(w.db, id, now) && id in db.runs
      then World(db, w.executions[e := Execution(id, Fence(owner, w.db.runs[id].run.leaseGeneration + 1), db.runs[id])])
      else w.(db := db)
    case Look(e, now) =>
      if e in w.executions && MayRead(w.db, w.executions[e], now)
      then w.(executions := w.executions[e := Informed(w.db, w.executions[e])])
      else w
    case Write(e, action, now) =>
      if e !in w.executions then w
      else
        var db := ApplyDb(w.db, OnRun(w.executions[e].run, action, now));
        World(db, w.executions[e := Informed(db, w.executions[e])])
  }

  function After(w: World, events: seq<WorldEvent>): World {
    if events == [] then w else Step(After(w, events[..|events| - 1]), events[|events| - 1])
  }

  /** All transactions of a run of the world, in order. */
  function Script(w: World, events: seq<WorldEvent>): seq<DbAction> {
    if events == [] then []
    else Script(w, events[..|events| - 1]) + Taken(After(w, events[..|events| - 1]), events[|events| - 1])
  }

  ghost predicate Allowed(w: World, events: seq<WorldEvent>) {
    events == [] || (Allowed(w, events[..|events| - 1]) && Enabled(After(w, events[..|events| - 1]), events[|events| - 1]))
  }

  // ---------------------------------------------------------------- the invariant

  /** The database is sound, and the script that led to it is disciplined. */
  ghost predicate Kept(start: Database, script: seq<DbAction>, db: Database) {
    SoundDb(db) && ReplayDb(start, script) == db && DisciplinedScript(start, script)
  }

  /** While it holds its run, an execution knows the run's work. */
  predicate Knows(db: Database, x: Execution) {
    && WasClaimed(db, x.run, x.fence)
    && (StillHolds(db, x.run, x.fence) ==> SameWork(x.seen, db.runs[x.run]))
  }

  predicate DistinctFences(executions: map<ExecutionId, Execution>) {
    forall e, f :: e in executions && f in executions && e != f && executions[e].run == executions[f].run ==>
      executions[e].fence != executions[f].fence
  }

  ghost predicate Safe(start: Database, script: seq<DbAction>, w: World) {
    && Kept(start, script, w.db)
    && (forall e :: e in w.executions ==> Knows(w.db, w.executions[e]))
    && DistinctFences(w.executions)
  }

  lemma OneMoreIsKept(start: Database, script: seq<DbAction>, db: Database, action: DbAction)
    requires Kept(start, script, db) && DisciplinedDb(db, action)
    ensures Kept(start, script + [action], ApplyDb(db, action))
  {
    hide ApplyDb, DisciplinedDb, SoundDb;
    DbDisciplineKeepsSound(db, action);
    assert (script + [action])[..|script|] == script;
  }

  /** What others do leaves an execution's knowledge true. */
  lemma OthersLeaveKnowledge(db: Database, x: Execution, action: DbAction)
    requires SoundDb(db) && Knows(db, x) && ForeignDb(action, x.run, x.fence)
    ensures Knows(ApplyDb(db, action), x)
  {
    hide ApplyDb, WasClaimed, Foreign;
    SoundIsConsistent(db);
    ClaimsAreRemembered(db, action, x.run, x.fence);
    if StillHolds(ApplyDb(db, action), x.run, x.fence) {
      ForeignDbActionsKeepWork(db, action, x.run, x.fence);
    }
  }

  /** What an execution does itself it learns from the answer. */
  lemma OwnWritesInform(db: Database, x: Execution, action: RunAction, now: Time)
    requires SoundDb(db) && Knows(db, x)
    ensures var next := ApplyDb(db, OnRun(x.run, action, now)); Knows(next, Informed(next, x))
  {
    hide ApplyDb, WasClaimed;
    SoundIsConsistent(db);
    ClaimsAreRemembered(db, OnRun(x.run, action, now), x.run, x.fence);
  }

  lemma LicensedIsDisciplinedDb(db: Database, x: Execution, action: RunAction, now: Time)
    requires SoundDb(db) && Knows(db, x) && Licensed(x.seen, x.fence, action)
    ensures DisciplinedDb(db, OnRun(x.run, action, now))
  {
    hide Licensed, Disciplined, SameWork, Consistent, ContextExact;
    if x.run in db.runs {
      LicensedIsDisciplined(db.runs[x.run], x.seen, MembersOf(db.members, db.runs[x.run].run.spaceId), x.fence, action, now);
    }
  }

  /** A run is handed out under a fence no execution has had before. */
  lemma HandedOutIsKnown(db: Database, id: RunId, owner: OwnerId, duration: Duration, now: Time)
    requires SoundDb(db) && HandsOut(db, id, now)
    ensures id in db.runs
    ensures var next := ApplyDb(db, OnRun(id, Claim(owner, duration), now));
      var fence := Fence(owner, db.runs[id].run.leaseGeneration + 1);
      id in next.runs && StillHolds(next, id, fence) && Knows(next, Execution(id, fence, next.runs[id]))
  {
    hide StepsOk, EvidenceOk, AnswerOk, ToolsAllowed, ContextExact;
  }

  // ---------------------------------------------------------------- each event keeps it

  lemma OutsideKeepsSafe(start: Database, script: seq<DbAction>, w: World, action: DbAction)
    requires Safe(start, script, w) && Enabled(w, Outside(action))
    ensures Safe(start, script + [action], Step(w, Outside(action)))
  {
    hide ApplyDb, Kept, Knows, SoundDb, Disciplined;
    OutsideIsDisciplined(w.db, action);
    OneMoreIsKept(start, script, w.db, action);
    forall e | e in w.executions
      ensures Knows(ApplyDb(w.db, action), w.executions[e])
    {
      KeptIsSound(start, script, w.db);
      OthersLeaveKnowledge(w.db, w.executions[e], action);
    }
  }

  lemma KeptIsSound(start: Database, script: seq<DbAction>, db: Database)
    requires Kept(start, script, db)
    ensures SoundDb(db)
  {
  }

  lemma OutsideIsDisciplined(db: Database, action: DbAction)
    requires action.OnRun? ==> FenceOf(action.action).None? || action.action.Heartbeat?
    ensures DisciplinedDb(db, action)
  {
  }

  lemma StartKeepsSafe(start: Database, script: seq<DbAction>, w: World, e: ExecutionId, id: RunId, owner: OwnerId, duration: Duration, now: Time)
    requires Safe(start, script, w) && e !in w.executions
    ensures Safe(start, script + [OnRun(id, Claim(owner, duration), now)], Step(w, Start(e, id, owner, duration, now)))
  {
    hide ApplyDb, Kept, Knows, SoundDb, HandsOut, Disciplined, SameWork;
    var claim := OnRun(id, Claim(owner, duration), now);
    OutsideKeepsSafe(start, script, w, claim);
    OneMoreIsKept(start, script, w.db, claim) by { OutsideIsDisciplined(w.db, claim); }
    if HandsOut(w.db, id, now) {
      KeptIsSound(start, script, w.db);
      HandedOutIsKnown(w.db, id, owner, duration, now);
      assert id in w.db.runs;
      NewFenceIsNew(w, id);
    }
  }

  lemma NewFenceIsNew(w: World, id: RunId)
    requires id in w.db.runs && forall e :: e in w.executions ==> Knows(w.db, w.executions[e])
    ensures forall e :: e in w.executions && w.executions[e].run == id ==>
      w.executions[e].fence.generation < w.db.runs[id].run.leaseGeneration + 1
  {
  }

  lemma WriteKeepsSafe(start: Database, script: seq<DbAction>, w: World, e: ExecutionId, action: RunAction, now: Time)
    requires Safe(start, script, w) && Enabled(w, Write(e, action, now))
    ensures Safe(start, script + [OnRun(w.executions[e].run, action, now)], Step(w, Write(e, action, now)))
  {
    hide ApplyDb, Kept, Knows, SoundDb, Disciplined, Licensed;
    var x := w.executions[e];
    LicensedWritesCarryTheFence(x, action);
    var taken := OnRun(x.run, action, now);
    KeptIsSound(start, script, w.db);
    LicensedIsDisciplinedDb(w.db, x, action, now);
    OneMoreIsKept(start, script, w.db, taken);
    OwnWritesInform(w.db, x, action, now);
    forall f | f in w.executions && f != e
      ensures Knows(ApplyDb(w.db, taken), w.executions[f])
    {
      OthersLeaveKnowledge(w.db, w.executions[f], taken);
    }
  }

  lemma LookKeepsSafe(start: Database, script: seq<DbAction>, w: World, e: ExecutionId, now: Time)
    requires Safe(start, script, w)
    ensures Safe(start, script, Step(w, Look(e, now)))
  {
    hide Kept, SoundDb;
  }

  /** What one executor relies on between its own writes is all that the others do. */
  lemma OthersMeetTheRely(start: Database, script: seq<DbAction>, w: World, event: WorldEvent, e: ExecutionId)
    requires Safe(start, script, w) && Enabled(w, event) && e in w.executions && !(event.Write? && event.execution == e)
    ensures forall action :: action in Taken(w, event) ==>
      ForeignDb(action, w.executions[e].run, w.executions[e].fence) && DisciplinedDb(w.db, action)
  {
    hide Kept, Knows, SoundDb, Disciplined, Licensed;
    match event
    case Outside(action) => OutsideIsDisciplined(w.db, action);
    case Start(_, id, owner, duration, now) => OutsideIsDisciplined(w.db, OnRun(id, Claim(owner, duration), now));
    case Look(_, _) =>
    case Write(f, action, now) =>
      KeptIsSound(start, script, w.db);
      LicensedIsDisciplinedDb(w.db, w.executions[f], action, now);
      LicensedWritesCarryTheFence(w.executions[f], action);
  }

  lemma LicensedWritesCarryTheFence(x: Execution, action: RunAction)
    requires Licensed(x.seen, x.fence, action)
    ensures FenceOf(action) == Some(x.fence)
  {
  }

  // ---------------------------------------------------------------- and so does every run of the world

  /**
   * Executors that know only what they read and wrote themselves produce, together with anyone else, a disciplined
   * script: what each of them relies on is what all of them guarantee. Nothing is assumed of any of them.
   */
  lemma {:induction false} ExecutorsComposeSafely(start: Database, events: seq<WorldEvent>)
    requires SoundDb(start) && Allowed(World(start, map[]), events)
    ensures Safe(start, Script(World(start, map[]), events), After(World(start, map[]), events))
  {
    hide Safe, Step, Enabled, SoundDb;
    var w := World(start, map[]);
    if events == [] {
      NothingIsSafe(start);
    } else {
      var front, event := events[..|events| - 1], events[|events| - 1];
      ExecutorsComposeSafely(start, front);
      EventsKeepSafe(start, Script(w, front), After(w, front), event);
    }
  }

  lemma NothingIsSafe(start: Database)
    requires SoundDb(start)
    ensures Safe(start, [], World(start, map[]))
  {
  }

  lemma EventsKeepSafe(start: Database, script: seq<DbAction>, w: World, event: WorldEvent)
    requires Safe(start, script, w) && Enabled(w, event)
    ensures Safe(start, script + Taken(w, event), Step(w, event))
  {
    hide Safe, Step;
    match event
    case Outside(action) => OutsideKeepsSafe(start, script, w, action);
    case Start(e, id, owner, duration, now) => StartKeepsSafe(start, script, w, e, id, owner, duration, now);
    case Look(e, now) =>
      LookKeepsSafe(start, script, w, e, now);
      assert script + [] == script;
    case Write(e, action, now) => WriteKeepsSafe(start, script, w, e, action, now);
  }

  predicate IsHolder(w: World, e: ExecutionId, id: RunId) {
    e in w.executions && w.executions[e].run == id && StillHolds(w.db, id, w.executions[e].fence)
  }

  /** So no run is ever found corrupt, and at most one execution holds it. */
  lemma NoRunIsCorrupted(start: Database, events: seq<WorldEvent>, id: RunId)
    requires SoundDb(start) && Allowed(World(start, map[]), events)
    requires var w := After(World(start, map[]), events); id in w.db.runs && w.db.runs[id].run.status == Running
    ensures var w := After(World(start, map[]), events);
      var r := BuildDecisionContext(w.db.runs[id]);
      && (r.Ok? || r == Err(ContextLimit))
      && (forall e, f :: IsHolder(w, e, id) && IsHolder(w, f, id) ==> e == f)
  {
    hide BuildDecisionContext, Knows, SameWork, Sound;
    ExecutorsComposeSafely(start, events);
    SoundRowsProject(After(World(start, map[]), events).db.runs[id]);
  }
}
