/** Where stored evidence comes from: documents of the run's own space, and nowhere else (server/modules/agents/repository.ts). */
module EvidenceProvenance {
  import opened Common
  import opened Utf16
  import opened AgentContracts
  import opened AgentRows
  import opened AgentTransactions
  import opened AgentInvariant
  import opened AgentHistory
  import opened AgentDatabase

  /** The space each stored document belongs to. */
  type Documents = map<DocumentId, SpaceId>

  predicate BelongsTo(documents: Documents, space: SpaceId, draft: EvidenceDraft) {
    draft.documentId.Some? ==> draft.documentId.value in documents && documents[draft.documentId.value] == space
  }

  /** Every document a draft quotes belongs to the space. */
  predicate DocumentsAuthorized(documents: Documents, space: SpaceId, evidence: seq<EvidenceDraft>) {
    forall i :: 0 <= i < |evidence| ==> BelongsTo(documents, space, evidence[i])
  }

  /** What the action's input says about its documents is what the documents table says. */
  predicate TellsTheTruth(db: Database, documents: Documents, action: DbAction) {
    action.OnRun? && action.action.CompleteTool? && action.id in db.runs && action.action.completion.documentsAuthorized ==>
      DocumentsAuthorized(documents, db.runs[action.id].run.spaceId, action.action.completion.evidence)
  }

  /** So every action of the script, by the table of its own time. */
  predicate TruthfulScript(db: Database, actions: seq<DbAction>, tables: seq<Documents>)
    requires |tables| == |actions|
  {
    actions == []
    || (&& TruthfulScript(db, actions[..|actions| - 1], tables[..|tables| - 1])
        && TellsTheTruth(ReplayDb(db, actions[..|actions| - 1]), tables[|tables| - 1], actions[|actions| - 1]))
  }

  /** At some time the document belonged to the space. */
  ghost predicate Vouched(tables: seq<Documents>, space: SpaceId, draft: EvidenceDraft) {
    draft.documentId.Some? ==> exists k :: 0 <= k < |tables| && BelongsTo(tables[k], space, draft)
  }

  ghost predicate AllVouched(tables: seq<Documents>, db: Database) {
    forall id, i :: id in db.runs && 0 <= i < |db.runs[id].evidence| ==> Vouched(tables, db.runs[id].run.spaceId, db.runs[id].evidence[i].source)
  }

  /** Evidence rows keep their sources; new ones come from a completion whose documents were authorized. */
  predicate EvidenceKept(rows: RunRows, after: RunRows, action: RunAction) {
    && after.run.spaceId == rows.run.spaceId
    && |rows.evidence| <= |after.evidence|
    && (forall i :: 0 <= i < |rows.evidence| ==> after.evidence[i].source == rows.evidence[i].source)
    && (forall i :: |rows.evidence| <= i < |after.evidence| ==>
          && action.CompleteTool? && action.completion.documentsAuthorized && i - |rows.evidence| < |action.completion.evidence|
          && after.evidence[i].source == action.completion.evidence[i - |rows.evidence|])
  }

  lemma PublishingKeepsEvidence(rows: RunRows, member: bool, fence: Fence, id: StepId, idTaken: bool, result: FinalResult, now: Time, action: RunAction)
    ensures EvidenceKept(rows, PublishParsed(rows, member, fence, id, idTaken, result, now).0, action)
  {
    hide AllCitable, HasId, HasFinalAnswer, LastRunning, SettleRunning, EndingGate;
  }

  lemma CompletingAddsItsDrafts(rows: RunRows, member: bool, fence: Fence, input: CompleteToolInput, now: Time, action: RunAction)
    requires action.CompleteTool? && action.completion == input
    ensures EvidenceKept(rows, CompleteToolStep(rows, member, fence, input, now).0, action)
  {
    hide RunningTool, Holds, RowsAccept, ClassifyWorkerWrite, LeaseExpired, EvidenceKey;
  }

  lemma UntouchedIsKept(rows: RunRows, after: RunRows, action: RunAction)
    requires after.evidence == rows.evidence && after.run.spaceId == rows.run.spaceId
    ensures EvidenceKept(rows, after, action)
  {
  }

  /** No other transaction touches the evidence. */
  lemma OthersLeaveEvidence(rows: RunRows, members: set<UserId>, action: RunAction, now: Time)
    requires !action.CompleteTool? && !action.Publish?
    ensures Apply(rows, members, action, now).evidence == rows.evidence
    ensures Apply(rows, members, action, now).run.spaceId == rows.run.spaceId
  {
    hide SettleRunning, LastRunning, RunningTool, HasId, EndingGate, ClaimEnding, Claimable, Holds, LeaseExpired, CompleteToolStep, PublishParsed;
  }

  lemma NewEvidenceComesFromCompletions(rows: RunRows, members: set<UserId>, action: RunAction, now: Time)
    ensures EvidenceKept(rows, Apply(rows, members, action, now), action)
  {
    hide Trim, PublishParsed, ParseFinalResult, CompleteToolStep, EvidenceKept, ClaimCandidate, HeartbeatLease, CancelRun, ReserveStep, FailStep, FailRun,
      MarkCancelled, ForgetUserIn, Claimable;
    var member := IsMember(rows.run, members);
    match action
    case CompleteTool(fence, input) => CompletingAddsItsDrafts(rows, member, fence, input, now, action);
    case Publish(fence, answer) =>
      if ParseFinalResult(answer.finalResult).Some? {
        PublishingKeepsEvidence(rows, member, fence, answer.finalStepId, answer.idTaken, ParseFinalResult(answer.finalResult).value, now, action);
      } else {
        UntouchedIsKept(rows, rows, action);
      }
    case _ =>
      OthersLeaveEvidence(rows, members, action, now);
      UntouchedIsKept(rows, Apply(rows, members, action, now), action);
  }

  lemma OneTableMore(tables: seq<Documents>, table: Documents, space: SpaceId, draft: EvidenceDraft)
    requires Vouched(tables, space, draft) || BelongsTo(table, space, draft)
    ensures Vouched(tables + [table], space, draft)
  {
    if draft.documentId.Some? {
      if Vouched(tables, space, draft) {
        var k :| 0 <= k < |tables| && BelongsTo(tables[k], space, draft);
        assert (tables + [table])[k] == tables[k];
      } else {
        assert (tables + [table])[|tables|] == table;
      }
    }
  }

  /** Evidence that an action stores quotes documents that belong to the run's space as it does so. */
  lemma StoredEvidenceIsAuthorized(db: Database, table: Documents, action: DbAction, id: RunId, i: nat)
    requires TellsTheTruth(db, table, action) && id in ApplyDb(db, action).runs && i < |ApplyDb(db, action).runs[id].evidence|
    requires id in db.runs ==> i >= |db.runs[id].evidence|
    ensures BelongsTo(table, ApplyDb(db, action).runs[id].run.spaceId, ApplyDb(db, action).runs[id].evidence[i].source)
  {
    hide Apply, BelongsTo;
    if id in db.runs {
      assert action.OnRun? && action.id == id;
      var rows := db.runs[id];
      NewEvidenceComesFromCompletions(rows, MembersOf(db.members, rows.run.spaceId), action.action, action.now);
      var after := Apply(rows, MembersOf(db.members, rows.run.spaceId), action.action, action.now);
      assert ApplyDb(db, action).runs[id] == after;
      assert after.evidence[i].source == action.action.completion.evidence[i - |rows.evidence|];
    }
  }

  lemma EvidenceIsKept(db: Database, action: DbAction, id: RunId, i: nat)
    requires id in ApplyDb(db, action).runs && id in db.runs && i < |db.runs[id].evidence|
    requires action.CreateRun? ==> action.id != id || id in db.issued
    ensures i < |ApplyDb(db, action).runs[id].evidence| && ApplyDb(db, action).runs[id].run.spaceId == db.runs[id].run.spaceId
    ensures ApplyDb(db, action).runs[id].evidence[i].source == db.runs[id].evidence[i].source
  {
    hide Apply;
    if action.OnRun? && action.id == id {
      var rows := db.runs[id];
      NewEvidenceComesFromCompletions(rows, MembersOf(db.members, rows.run.spaceId), action.action, action.now);
    }
  }

  lemma ActionsKeepVouched(tables: seq<Documents>, table: Documents, db: Database, action: DbAction)
    requires AllVouched(tables, db) && TellsTheTruth(db, table, action) && db.runs.Keys <= db.issued
    ensures AllVouched(tables + [table], ApplyDb(db, action))
  {
    hide ApplyDb, Vouched, BelongsTo, TellsTheTruth;
    var after := ApplyDb(db, action);
    forall id, i | id in after.runs && 0 <= i < |after.runs[id].evidence|
      ensures Vouched(tables + [table], after.runs[id].run.spaceId, after.runs[id].evidence[i].source)
    {
      if id in db.runs && i < |db.runs[id].evidence| {
        EvidenceIsKept(db, action, id, i);
        assert Vouched(tables, db.runs[id].run.spaceId, db.runs[id].evidence[i].source);
      } else {
        StoredEvidenceIsAuthorized(db, table, action, id, i);
      }
      OneTableMore(tables, table, after.runs[id].run.spaceId, after.runs[id].evidence[i].source);
    }
  }

  /** Through every script, each document that stored evidence quotes belonged to the run's own space at some time of it. */
  lemma {:induction false} EvidenceComesFromTheSpace(start: Database, actions: seq<DbAction>, tables: seq<Documents>)
    requires start.runs == map[] && |tables| == |actions| && TruthfulScript(start, actions, tables)
    ensures AllVouched(tables, ReplayDb(start, actions))
  {
    if actions != [] {
      var front, earlier := actions[..|actions| - 1], tables[..|tables| - 1];
      EvidenceComesFromTheSpace(start, front, earlier);
      ScriptsKeepConsistent(start, front);
      ActionsKeepVouched(earlier, tables[|tables| - 1], ReplayDb(start, front), actions[|actions| - 1]);
      assert tables == earlier + [tables[|tables| - 1]];
    }
  }
}
