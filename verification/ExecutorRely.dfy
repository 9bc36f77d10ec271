/** What an executor may rely on between two of its own writes, and what each of its writes must leave behind. */
module ExecutorRely {
  import opened Common
  import opened AgentContracts
  import opened AgentRows
  import opened AgentTransactions
  import opened AgentInvariant
  import opened AgentHistory
  import opened AgentDatabase

  /** The parts of a run that only the holder of its lease changes. */
  predicate SameWork(a: RunRows, b: RunRows) {
    && a.steps == b.steps && a.evidence == b.evidence
    && SameConfiguration(a.run, b.run)
    && a.run.stepCount == b.run.stepCount && a.run.toolCallCount == b.run.toolCallCount && a.run.contextBytes == b.run.contextBytes
    && a.run.leaseGeneration == b.run.leaseGeneration
  }

  /** The action is not one of this executor's own writes; its worker's heartbeats are. */
  predicate Foreign(action: RunAction, fence: Fence) {
    FenceOf(action) == Some(fence) ==> action.Heartbeat?
  }

  lemma HeartbeatsKeepWork(rows: RunRows, member: bool, held: Fence, duration: Duration, now: Time)
    requires HeartbeatLease(rows, member, held, duration, now).0.run.status == Running
    ensures var after := HeartbeatLease(rows, member, held, duration, now).0;
      after.run.leaseOwnerId == rows.run.leaseOwnerId && rows.run.status == Running && SameWork(rows, after)
  {
    hide SettleRunning;
  }

  /** A claim that changes a run ends it or hands it out under a higher generation. */
  lemma ClaimsLeaveOrRaise(rows: RunRows, members: set<UserId>, action: RunAction, now: Time)
    requires action.Claim?
    ensures var after := Apply(rows, members, action, now);
      after == rows || after.run.status != Running || after.run.leaseGeneration > rows.run.leaseGeneration
  {
    hide SettleRunning;
  }

  /** No transaction of anyone else touches the work of a run whose lease we still hold. */
  lemma ForeignActionsKeepWork(rows: RunRows, members: set<UserId>, action: RunAction, now: Time, fence: Fence)
    requires Foreign(action, fence) && rows.run.leaseGeneration >= fence.generation
    requires Holds(Apply(rows, members, action, now).run, fence)
    ensures Holds(rows.run, fence) && SameWork(rows, Apply(rows, members, action, now))
  {
    hide HeartbeatLease, ClaimCandidate, ReserveStep, CompleteToolStep, FailStep, CompleteRun, FailRun, MarkCancelled;
    if action.Claim? {
      ClaimsLeaveOrRaise(rows, members, action, now);
    } else if action.Heartbeat? {
      HeartbeatsKeepWork(rows, IsMember(rows.run, members), action.fence, action.duration, now);
    } else {
      OtherWritesKeepTheLease(rows, members, action, now);
      if FenceOf(action).Some? {
        assert !Holds(rows.run, FenceOf(action).value);
        UnheldFenceChangesNothing(rows, members, action, now);
      }
    }
  }

  predicate ForeignDb(action: DbAction, id: RunId, fence: Fence) {
    action.OnRun? && action.id == id ==> Foreign(action.action, fence)
  }

  /** The run was handed out under this fence at some time. */
  predicate WasClaimed(db: Database, id: RunId, fence: Fence) {
    id in db.issued && (id in db.runs ==> db.runs[id].run.leaseGeneration >= fence.generation)
  }

  predicate StillHolds(db: Database, id: RunId, fence: Fence) {
    id in db.runs && Holds(db.runs[id].run, fence)
  }

  lemma ClaimsAreRemembered(db: Database, action: DbAction, id: RunId, fence: Fence)
    requires ConsistentDb(db) && WasClaimed(db, id, fence)
    ensures WasClaimed(ApplyDb(db, action), id, fence)
  {
    DbActionsMoveForward(db, action);
    var after := ApplyDb(db, action);
    assert id in after.runs ==> Later(db.runs[id], after.runs[id]);
  }

  lemma ForeignDbActionsKeepWork(db: Database, action: DbAction, id: RunId, fence: Fence)
    requires WasClaimed(db, id, fence) && ForeignDb(action, id, fence) && StillHolds(ApplyDb(db, action), id, fence)
    ensures StillHolds(db, id, fence) && SameWork(db.runs[id], ApplyDb(db, action).runs[id])
  {
    if action.OnRun? && action.id == id {
      ForeignActionsKeepWork(db.runs[id], MembersOf(db.members, db.runs[id].run.spaceId), action.action, action.now, fence);
    }
  }

  /** A bound on the executor's remaining iterations; nobody's transaction raises it. */
  function Progress(db: Database, id: RunId): int {
    if id in db.runs then Measure(db.runs[id]) + 1 else 0
  }

  lemma ProgressNeverRises(db: Database, action: DbAction, id: RunId)
    requires ConsistentDb(db) && id in db.issued
    ensures 0 <= Progress(ApplyDb(db, action), id) <= Progress(db, id)
  {
    hide ApplyDb;
    DbActionsMoveForward(db, action);
    DbActionsKeepConsistent(db, action);
    var after := ApplyDb(db, action);
    if id in after.runs {
      assert Later(db.runs[id], after.runs[id]) && Consistent(after.runs[id]);
    }
  }

  /** What stays true of the database, and of the script that led to it, when one more transaction is taken. */
  ghost predicate OnTrack(start: Database, script: seq<DbAction>, db: Database, id: RunId, fence: Fence) {
    SoundDb(db) && WasClaimed(db, id, fence) && ReplayDb(start, script) == db && DisciplinedScript(start, script)
  }

  lemma StaysOnTrack(start: Database, script: seq<DbAction>, db: Database, id: RunId, fence: Fence, action: DbAction)
    requires OnTrack(start, script, db, id, fence) && DisciplinedDb(db, action)
    ensures OnTrack(start, script + [action], ApplyDb(db, action), id, fence)
    ensures 0 <= Progress(ApplyDb(db, action), id) <= Progress(db, id)
  {
    SoundIsConsistent(db);
    DbDisciplineKeepsSound(db, action);
    ClaimsAreRemembered(db, action, id, fence);
    ProgressNeverRises(db, action, id);
    assert (script + [action])[..|script|] == script;
  }

  lemma SoundIsConsistent(db: Database)
    requires SoundDb(db)
    ensures ConsistentDb(db)
  {
  }

  lemma ProgressIsBounded(db: Database, id: RunId, fence: Fence, start: Database, script: seq<DbAction>)
    requires OnTrack(start, script, db, id, fence)
    ensures 0 <= Progress(db, id)
  {
  }
}
