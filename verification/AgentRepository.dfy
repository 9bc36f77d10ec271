/** The repository's transactions as updates of its tables (server/modules/agents/repository.ts). */
module AgentRepository {
  import opened Common
  import opened Utf16
  import opened AgentContracts
  import opened AgentState
  import opened AgentRows
  import opened AgentTransactions
  import opened AgentInvariant
  import opened AgentDatabase
  import opened EvidenceProvenance
  import Tx = AgentTransactions

  datatype ClaimResult = NothingToClaim | Claimed(id: RunId, rows: RunRows, incomplete: Option<StepRecord>)

  /** The claim a worker receives: the run with its step in progress, if any. */
  function HandOut(id: RunId, rows: RunRows): ClaimResult {
    var running := LastRunning(rows.steps);
    Claimed(id, rows, if running.Some? then Some(rows.steps[running.value]) else None)
  }

  /** The step that goes with a claim is the one in progress, and there is none when no step is. */
  lemma HandOutShowsTheStepInProgress(id: RunId, rows: RunRows)
    ensures var r := HandOut(id, rows);
      && r.id == id && r.rows == rows
      && (r.incomplete.Some? ==> r.incomplete.value in rows.steps && r.incomplete.value.status == StepRunning)
      && (r.incomplete.None? ==> forall step :: step in rows.steps ==> step.status != StepRunning)
  {
  }

  /** order by created_at, id. */
  predicate Precedes(runs: map<RunId, RunRows>, a: RunId, b: RunId)
    requires a in runs && b in runs
  {
    var x, y := runs[a].run.createdAt, runs[b].run.createdAt;
    x < y || (x == y && a < b)
  }

  function Candidates(runs: map<RunId, RunRows>, locked: set<RunId>, now: Time): set<RunId> {
    set id | id in runs && id !in locked && Claimable(runs[id].run, now)
  }

  /** id comes first among the candidates. */
  predicate IsFirst(runs: map<RunId, RunRows>, candidates: set<RunId>, id: RunId)
    requires candidates <= runs.Keys
  {
    id in candidates && forall other :: other in candidates && other != id ==> Precedes(runs, id, other)
  }

  lemma {:induction false} SomeCandidateIsFirst(runs: map<RunId, RunRows>, candidates: set<RunId>)
    requires candidates != {} && candidates <= runs.Keys
    ensures exists id :: IsFirst(runs, candidates, id)
  {
    var any :| any in candidates;
    var rest := candidates - {any};
    if rest == {} {
      assert candidates == {any};
      assert IsFirst(runs, candidates, any);
    } else {
      SomeCandidateIsFirst(runs, rest);
      var first :| IsFirst(runs, rest, first);
      var id := if Precedes(runs, any, first) then any else first;
      forall other | other in candidates && other != id
        ensures Precedes(runs, id, other)
      {
        assert other == any || other == first || Precedes(runs, first, other);
      }
      assert IsFirst(runs, candidates, id);
    }
  }

  /** The first candidate is the oldest, and of runs created at one time the one with the smallest identifier. */
  lemma FirstIsOldest(runs: map<RunId, RunRows>, locked: set<RunId>, now: Time, id: RunId)
    requires IsFirst(runs, Candidates(runs, locked, now), id)
    ensures id in runs && id !in locked
    ensures forall other :: other in runs && other !in locked && Claimable(runs[other].run, now) ==>
      runs[id].run.createdAt < runs[other].run.createdAt || (runs[id].run.createdAt == runs[other].run.createdAt && id <= other)
  {
    assert forall other :: other in Candidates(runs, locked, now) <==> other in runs && other !in locked && Claimable(runs[other].run, now);
  }

  /** What claiming or ending one candidate leaves of its row. */
  function AfterClaim(runs: map<RunId, RunRows>, members: set<(SpaceId, UserId)>, id: RunId, owner: OwnerId, duration: Duration, now: Time): RunRows
    requires id in runs
  {
    var run := runs[id].run;
    ClaimCandidate(runs[id], IsMember(run, MembersOf(members, run.spaceId)), owner, duration, now)
  }

  /** The candidate is ended rather than handed out. */
  predicate EndsOnClaim(runs: map<RunId, RunRows>, members: set<(SpaceId, UserId)>, id: RunId, now: Time)
    requires id in runs
  {
    var run := runs[id].run;
    ClaimEnding(run, IsMember(run, MembersOf(members, run.spaceId)), now).Some?
  }

  /** Once an element comes first among the rest, the elements set aside are exactly those before it. */
  lemma SetAsideIsBefore(runs: map<RunId, RunRows>, all: set<RunId>, aside: set<RunId>, id: RunId)
    requires all <= runs.Keys && aside <= all && IsFirst(runs, all - aside, id)
    requires forall k, other :: k in aside && other in all - aside ==> Precedes(runs, k, other)
    ensures aside == set k | k in all && Precedes(runs, k, id)
  {
    assert forall k :: k in all - aside ==> !Precedes(runs, k, id);
  }

  lemma StillFirst(before: map<RunId, RunRows>, current: map<RunId, RunRows>, rest: set<RunId>, id: RunId)
    requires rest <= before.Keys && rest <= current.Keys && (forall k :: k in rest ==> current[k] == before[k])
    requires IsFirst(current, rest, id)
    ensures IsFirst(before, rest, id)
  {
    forall other | other in rest && other != id
      ensures Precedes(before, id, other)
    {
      assert Precedes(current, id, other);
    }
  }

  /** Claiming depends only on the run's own row. */
  lemma SameRowSameClaim(
      before: map<RunId, RunRows>, current: map<RunId, RunRows>, members: set<(SpaceId, UserId)>, id: RunId,
      owner: OwnerId, duration: Duration, now: Time)
    requires id in before && id in current && current[id] == before[id]
    ensures AfterClaim(current, members, id, owner, duration, now) == AfterClaim(before, members, id, owner, duration, now)
    ensures EndsOnClaim(current, members, id, now) <==> EndsOnClaim(before, members, id, now)
  {
  }

  lemma RemovingTheFirst(runs: map<RunId, RunRows>, rest: set<RunId>, aside: set<RunId>, id: RunId)
    requires rest <= runs.Keys && aside <= runs.Keys && IsFirst(runs, rest, id)
    requires forall k, other :: k in aside && other in rest ==> Precedes(runs, k, other)
    ensures forall k, other :: k in aside + {id} && other in rest - {id} ==> Precedes(runs, k, other)
  {
  }

  /** A run that is handed out runs under a generation never used before, with a lease that lies ahead and ends by its deadline. */
  lemma HandedOutRunsAreFenced(
      runs: map<RunId, RunRows>, members: set<(SpaceId, UserId)>, id: RunId, owner: OwnerId, duration: Duration, now: Time)
    requires id in runs && !EndsOnClaim(runs, members, id, now)
    ensures var run := AfterClaim(runs, members, id, owner, duration, now).run;
      && Holds(run, Fence(owner, runs[id].run.leaseGeneration + 1))
      && run.leaseExpiresAt.Some? && run.deadlineAt.Some? && now < run.leaseExpiresAt.value <= run.deadlineAt.value
  {
  }

  function DocumentsCited(evidence: seq<EvidenceDraft>): set<DocumentId> {
    set i | 0 <= i < |evidence| && evidence[i].documentId.Some? :: evidence[i].documentId.value
  }

  lemma {:induction false} EqualSizesMeanAll(part: set<DocumentId>, whole: set<DocumentId>)
    requires part <= whole && |part| == |whole|
    ensures part == whole
  {
    if part != {} {
      var d :| d in part;
      EqualSizesMeanAll(part - {d}, whole - {d});
    }
  }

  class AgentRepository {
    var runs: map<RunId, RunRows>
    var members: set<(SpaceId, UserId)>
    /** The space each stored document belongs to. */
    var documents: map<DocumentId, SpaceId>
    /** Every run identifier ever used; identifiers are random and never repeat. */
    var issued: set<RunId>

    function Db(): Database
      reads this
    {
      Database(runs, members, issued)
    }

    function HasMembership(run: RunRecord): bool
      reads this`members
    {
      IsMember(run, MembersOf(members, run.spaceId))
    }

    /** The input with what the step table says about the new row's identifier. */
    function ReserveChecked(id: RunId, input: ReserveInput): ReserveInput
      reads this`runs
    {
      input.(idTaken := IdElsewhere(runs, id, input.stepId))
    }

    function CompletionChecked(run: RunRecord, input: CompleteToolInput): CompleteToolInput
      reads this`documents
    {
      input.(documentsAuthorized := DocumentsAuthorized(documents, run.spaceId, input.evidence))
    }

    function AnswerChecked(id: RunId, input: CompleteRunInput): CompleteRunInput
      reads this`runs
    {
      input.(idTaken := IdElsewhere(runs, id, input.finalStepId))
    }

    function FailureChecked(id: RunId, input: FailRunInput): FailRunInput
      reads this`runs
    {
      input.(idTaken := input.decisionErrorStepId.Some? && IdElsewhere(runs, id, input.decisionErrorStepId.value))
    }

    /** The documents found in the space are counted against those the drafts quote. */
    method AuthorizeDocuments(evidence: seq<EvidenceDraft>, space: SpaceId) returns (ok: bool)
      ensures ok <==> DocumentsAuthorized(documents, space, evidence)
    {
      var cited := DocumentsCited(evidence);
      assert forall i :: 0 <= i < |evidence| && evidence[i].documentId.Some? ==> evidence[i].documentId.value in cited;
      if cited == {} {
        return true;
      }
      var authorized := set d | d in cited && d in documents && documents[d] == space;
      ok := |authorized| == |cited|;
      if ok {
        EqualSizesMeanAll(authorized, cited);
      } else {
        assert !(cited <= authorized) by { assert cited <= authorized ==> authorized == cited; }
      }
    }

    /** update agent_run_steps set … where run_id = id and status = 'running'. */
    method SettleRunningSteps(id: RunId, ending: Ending, now: Time)
      requires id in runs
      modifies this`runs
      ensures runs == old(runs)[id := old(runs)[id].(steps := SettleRunning(old(runs)[id].steps, ending, now))]
    {
      var steps := runs[id].steps;
      for i := 0 to |steps|
        invariant |steps| == |old(runs)[id].steps|
        invariant forall k :: 0 <= k < i ==> steps[k] == SettleStep(old(runs)[id].steps[k], ending, now)
        invariant forall k :: i <= k < |steps| ==> steps[k] == old(runs)[id].steps[k]
      {
        if steps[i].status == StepRunning {
          var settled := match ending
            case EndCancelled => steps[i].(status := StepCancelled, completedAt := Some(now))
            case EndFailed(code) => steps[i].(status := StepFailed, errorCode := Some(code), completedAt := Some(now));
          steps := steps[i := settled];
        }
      }
      assert steps == SettleRunning(old(runs)[id].steps, ending, now);
      runs := runs[id := runs[id].(steps := steps)];
    }

    /** Settles the running step, then writes the terminal run row. */
    method EndRunNow(id: RunId, ending: Ending, now: Time)
      requires id in runs
      modifies this`runs
      ensures runs == old(runs)[id := EndRun(old(runs)[id], ending, now)]
    {
      SettleRunningSteps(id, ending, now);
      var run := runs[id].run.(finishedAt := Some(now), leaseOwnerId := None, leaseExpiresAt := None);
      match ending {
        case EndCancelled => run := run.(status := Cancelled);
        case EndFailed(code) => run := run.(status := Failed, errorCode := Some(code));
      }
      runs := runs[id := runs[id].(run := run)];
    }

    /** Ends one locked candidate, or hands it out. */
    method ClaimOrEnd(id: RunId, owner: OwnerId, duration: Duration, now: Time) returns (handedOut: bool)
      requires id in runs && Claimable(runs[id].run, now)
      modifies this`runs
      ensures runs == old(runs)[id := AfterClaim(old(runs), members, id, owner, duration, now)]
      ensures handedOut <==> !EndsOnClaim(old(runs), members, id, now)
      ensures handedOut ==> runs[id].run.status == Running && runs[id].run.leaseGeneration == old(runs)[id].run.leaseGeneration + 1
      ensures !handedOut ==> IsTerminal(runs[id].run.status)
    {
      var run := runs[id].run;
      var member := HasMembership(run);
      var startedAt := if run.startedAt.Some? then run.startedAt.value else now;
      var deadlineAt := if run.deadlineAt.Some? then run.deadlineAt.value else startedAt + run.limits.wallTimeSeconds * 1000;
      var cancelled, timedOut := run.cancelRequestedAt.Some?, deadlineAt <= now;
      runs := runs[id := runs[id].(run := run.(startedAt := Some(startedAt), deadlineAt := Some(deadlineAt)))];
      handedOut := !cancelled && !timedOut && member;
      if handedOut {
        runs := runs[id := runs[id].(run := runs[id].run.(
          status := Running, leaseOwnerId := Some(owner), leaseGeneration := run.leaseGeneration + 1,
          leaseExpiresAt := Some(LeaseExpiry(now, duration, deadlineAt))))];
      } else {
        EndRunNow(id, if cancelled then EndCancelled else EndFailed(if timedOut then WallTimeExceeded else SpaceAccessRevoked), now);
      }
    }

    /** Selects and locks the first candidate, then ends it or hands it out. */
    method ClaimFirst(owner: OwnerId, duration: Duration, now: Time, locked: set<RunId>) returns (id: RunId, handedOut: bool)
      requires Candidates(runs, locked, now) != {}
      modifies this`runs
      ensures id in old(runs) && IsFirst(old(runs), Candidates(old(runs), locked, now), id)
      ensures runs == old(runs)[id := AfterClaim(old(runs), members, id, owner, duration, now)]
      ensures handedOut <==> !EndsOnClaim(old(runs), members, id, now)
      ensures !handedOut ==> Candidates(runs, locked, now) == Candidates(old(runs), locked, now) - {id}
    {
      var candidates := Candidates(runs, locked, now);
      SomeCandidateIsFirst(runs, candidates);
      id :| id in candidates && IsFirst(runs, candidates, id);
      handedOut := ClaimOrEnd(id, owner, duration, now);
    }

    /**
     * Hands out the first claimable run that is neither cancelled, nor past its deadline, nor without access,
     * and ends every claimable run before it. Answers empty only when nothing claimable is left.
     */
    method ClaimRun(owner: OwnerId, duration: Duration, now: Time, locked: set<RunId>) returns (r: ClaimResult, ghost ended: set<RunId>)
      modifies this`runs
      ensures runs.Keys == old(runs).Keys
      ensures ended <= Candidates(old(runs), locked, now)
      ensures r.NothingToClaim? ==> Candidates(runs, locked, now) == {} && ended == Candidates(old(runs), locked, now)
      ensures r.NothingToClaim? ==> forall k :: k in runs && k !in locked ==> !Claimable(runs[k].run, now)
      ensures r.Claimed? ==> r.id in old(runs) && r.id !in locked && Claimable(old(runs)[r.id].run, now)
      ensures r.Claimed? ==>
        && r.id in Candidates(old(runs), locked, now) && !EndsOnClaim(old(runs), members, r.id, now)
        && runs[r.id] == AfterClaim(old(runs), members, r.id, owner, duration, now) && r == HandOut(r.id, runs[r.id])
      ensures r.Claimed? ==>
        ended == set k | k in Candidates(old(runs), locked, now) && Precedes(old(runs), k, r.id)
      ensures forall k :: k in ended ==> EndsOnClaim(old(runs), members, k, now) && runs[k] == AfterClaim(old(runs), members, k, owner, duration, now)
      ensures forall k :: k in old(runs) && k !in ended && !(r.Claimed? && k == r.id) ==> runs[k] == old(runs)[k]
    {
      hide Claimable, AfterClaim, EndsOnClaim;
      ghost var before, first := runs, Candidates(runs, locked, now);
      ended := {};
      while true
        invariant runs.Keys == before.Keys
        invariant ended <= first && Candidates(runs, locked, now) == first - ended
        invariant forall k :: k in before && k !in ended ==> runs[k] == before[k]
        invariant forall k :: k in ended ==> EndsOnClaim(before, members, k, now) && runs[k] == AfterClaim(before, members, k, owner, duration, now)
        invariant forall k, other :: k in ended && other in first - ended ==> Precedes(before, k, other)
        decreases first - ended
      {
        if Candidates(runs, locked, now) == {} {
          assert forall k :: k in runs && k !in locked && Claimable(runs[k].run, now) ==> k in Candidates(runs, locked, now);
          return NothingToClaim, ended;
        }
        ghost var current := runs;
        var id, handedOut := ClaimFirst(owner, duration, now, locked);
        StillFirst(before, current, first - ended, id);
        SameRowSameClaim(before, current, members, id, owner, duration, now);
        if handedOut {
          SetAsideIsBefore(before, first, ended, id);
          return HandOut(id, runs[id]), ended;
        }
        RemovingTheFirst(before, first - ended, ended, id);
        ended := ended + {id};
      }
    }

    /** The checks that open heartbeatLease, failStep, completeRun and failRun; ends the run where they say so. */
    method PassGate(id: RunId, fence: Fence, now: Time) returns (gate: Gate)
      modifies this`runs
      ensures id !in old(runs) ==> runs == old(runs) && gate == Shut
      ensures id in old(runs) ==> gate == EndingGate(old(runs)[id].run, HasMembership(old(runs)[id].run), fence, now)
      ensures gate.Ends? ==> runs == old(runs)[id := EndRun(old(runs)[id], gate.ending, now)]
      ensures !gate.Ends? ==> runs == old(runs)
    {
      if id !in runs || !Holds(runs[id].run, fence) || runs[id].run.deadlineAt.None? {
        return Shut;
      }
      var run := runs[id].run;
      if run.cancelRequestedAt.Some? {
        EndRunNow(id, EndCancelled, now);
        return Ends(EndCancelled);
      }
      var member := HasMembership(run);
      if !member || run.deadlineAt.value <= now {
        EndRunNow(id, EndFailed(RefusalCode(member)), now);
        return Ends(EndFailed(RefusalCode(member)));
      }
      gate := if LeaseExpired(run, now) then Shut else Open;
    }

    method HeartbeatLease(id: RunId, fence: Fence, duration: Duration, now: Time) returns (r: HeartbeatResult)
      modifies this`runs
      ensures id !in old(runs) ==> runs == old(runs) && r == HeartbeatStale
      ensures id in old(runs) ==>
        var t := Tx.HeartbeatLease(old(runs)[id], HasMembership(old(runs)[id].run), fence, duration, now);
        runs == old(runs)[id := t.0] && r == t.1
    {
      var gate := PassGate(id, fence, now);
      match gate {
        case Shut => return HeartbeatStale;
        case Ends(ending) => return if ending == EndCancelled then HeartbeatCancelRequested else HeartbeatStale;
        case Open =>
          var run := runs[id].run;
          var expiresAt := LeaseExpiry(now, duration, run.deadlineAt.value);
          runs := runs[id := runs[id].(run := run.(leaseExpiresAt := Some(expiresAt)))];
          return LeaseUpdated(expiresAt);
      }
    }

    method CancelRun(id: RunId, actor: UserId, now: Time) returns (r: CancelResult)
      modifies this`runs
      ensures id !in old(runs) ==> runs == old(runs) && r == RunNotFound
      ensures id in old(runs) ==>
        var t := Tx.CancelRun(old(runs)[id], actor in MembersOf(members, old(runs)[id].run.spaceId), actor, now);
        runs == old(runs)[id := t.0] && r == t.1
    {
      if id !in runs || actor !in MembersOf(members, runs[id].run.spaceId) {
        return RunNotFound;
      }
      var run := runs[id].run;
      if IsTerminal(run.status) {
        return AlreadyTerminal(run.status);
      }
      if run.status == Queued {
        runs := runs[id := runs[id].(run := run.(status := Cancelled, cancelRequestedAt := Some(now), cancelRequestedBy := Some(actor), finishedAt := Some(now)))];
        return CancelledNow;
      }
      if run.cancelRequestedAt.None? {
        runs := runs[id := runs[id].(run := run.(cancelRequestedAt := Some(now), cancelRequestedBy := Some(actor)))];
      }
      r := CancellationRequested;
    }

    method ReserveStep(id: RunId, fence: Fence, input: ReserveInput, now: Time) returns (r: ReserveResult)
      modifies this`runs
      ensures id !in old(runs) ==> runs == old(runs) && r == ReserveStale
      ensures id in old(runs) ==>
        var t := Tx.ReserveStep(old(runs)[id], HasMembership(old(runs)[id].run), fence, old(ReserveChecked(id, input)), now);
        runs == old(runs)[id := t.0] && r == t.1
    {
      if id !in runs || !Holds(runs[id].run, fence) || runs[id].run.deadlineAt.None? {
        return ReserveStale;
      }
      var run, steps := runs[id].run, runs[id].steps;
      var member := HasMembership(run);
      var guard := ClassifyWorkerWrite(run, member, now);
      if guard == GuardCancelRequested {
        return ReserveRefused(guard);
      }
      if guard != Allowed {
        EndRunNow(id, EndFailed(RefusalCode(member)), now);
        return ReserveRefused(guard);
      }
      if LeaseExpired(run, now) {
        return ReserveStale;
      }
      var incomplete := LastRunning(steps);
      if incomplete.Some? {
        var step := steps[incomplete.value];
        if Some(step.id) != input.resumeStepId || step.kind != ToolCall || step.toolName != Some(input.toolName)
           || step.safeArguments != Some(input.safeArguments) {
          return IncompleteStep;
        }
        var resumed := step.(executionCount := step.executionCount + 1, startedAt := now);
        runs := runs[id := runs[id].(steps := steps[incomplete.value := resumed])];
        return Resumed(resumed);
      }
      if run.stepCount >= run.limits.maxSteps {
        return ReserveStepLimit;
      }
      if run.toolCallCount >= run.limits.maxToolCalls {
        return ReserveToolCallLimit;
      }
      if HasId(steps, input.stepId) || IdElsewhere(runs, id, input.stepId) || !JsonFits(input.safeArguments) {
        return ReserveThrew;
      }
      var step := NewToolStep(input, run.stepCount + 1, now);
      runs := runs[id := runs[id].(steps := steps + [step])];
      runs := runs[id := runs[id].(run := run.(stepCount := run.stepCount + 1, toolCallCount := run.toolCallCount + 1))];
      r := Reserved(step);
    }

    method CompleteToolStepWithEvidence(id: RunId, fence: Fence, input: CompleteToolInput, now: Time) returns (r: CompleteToolResult)
      modifies this`runs
      ensures r.ToolStepCompleted? ==> id in old(runs) && DocumentsAuthorized(documents, old(runs)[id].run.spaceId, input.evidence)
      ensures r.InvalidEvidence? ==> runs == old(runs) && id in old(runs) && !DocumentsAuthorized(documents, old(runs)[id].run.spaceId, input.evidence)
      ensures id !in old(runs) ==> runs == old(runs) && r in {CompleteToolStale, ObservationTooLarge}
      ensures id in old(runs) ==>
        var t := Tx.CompleteToolStep(old(runs)[id], HasMembership(old(runs)[id].run), fence, CompletionChecked(old(runs)[id].run, input), now);
        runs == old(runs)[id := t.0] && r == t.1
    {
      if input.observation.bytes > AGENT_OBSERVATION_MAX_BYTES {
        return ObservationTooLarge;
      }
      if id !in runs || !Holds(runs[id].run, fence) || runs[id].run.deadlineAt.None? {
        return CompleteToolStale;
      }
      var run, steps, evidence := runs[id].run, runs[id].steps, runs[id].evidence;
      var guard := ClassifyWorkerWrite(run, HasMembership(run), now);
      if guard != Allowed {
        return CompleteToolRefused(guard);
      }
      if LeaseExpired(run, now) {
        return CompleteToolStale;
      }
      if input.observation.bytes > run.limits.observationMaxBytes {
        return ObservationTooLarge;
      }
      if input.contextBytes < 0 || input.contextBytes > run.limits.contextMaxBytes {
        return CompleteToolContextLimit;
      }
      var found := RunningTool(steps, input.stepId);
      if found.None? {
        return CompleteToolStale;
      }
      if |evidence| + |input.evidence| > run.limits.maxEvidence {
        return EvidenceLimitExceeded;
      }
      var authorized := AuthorizeDocuments(input.evidence, run.spaceId);
      if !authorized {
        return InvalidEvidence;
      }
      for i := 0 to |input.evidence|
        invariant forall k :: 0 <= k < i ==> input.evidence[k].storable
      {
        if !input.evidence[i].storable {
          return CompleteToolThrew;
        }
      }
      if !ObservationFits(input.observation) {
        return CompleteToolThrew;
      }
      var step := steps[found.value].(status := StepCompleted, observation := Some(input.observation), completedAt := Some(now));
      runs := runs[id := runs[id].(steps := steps[found.value := step])];
      var added := NewEvidence(input.evidence, step.id, |evidence|);
      runs := runs[id := runs[id].(evidence := evidence + added)];
      runs := runs[id := runs[id].(run := run.(contextBytes := input.contextBytes))];
      r := ToolStepCompleted(step, added);
    }

    method FailStep(id: RunId, fence: Fence, input: FailStepInput, now: Time) returns (r: FailStepResult)
      modifies this`runs
      ensures id !in old(runs) ==> runs == old(runs) && r == FailStepStale
      ensures id in old(runs) ==>
        var t := Tx.FailStep(old(runs)[id], HasMembership(old(runs)[id].run), fence, input, now);
        runs == old(runs)[id := t.0] && r == t.1
    {
      var gate := PassGate(id, fence, now);
      if gate == Shut {
        return FailStepStale;
      }
      if gate == Ends(EndCancelled) {
        return FailStepCancelRequested;
      }
      if gate.Ends? {
        return if HasMembership(runs[id].run) then FailStepDeadlineExceeded else FailStepAccessRevoked;
      }
      var run, steps := runs[id].run, runs[id].steps;
      if input.contextBytes < 0 || input.contextBytes > run.limits.contextMaxBytes {
        return FailStepContextLimit;
      }
      var found := RunningTool(steps, input.stepId);
      if found.None? {
        return FailStepStale;
      }
      var step := steps[found.value].(status := StepFailed, errorCode := Some(input.errorCode), completedAt := Some(now));
      runs := runs[id := runs[id].(steps := steps[found.value := step])];
      runs := runs[id := runs[id].(run := run.(contextBytes := input.contextBytes))];
      r := StepFailedResult(step);
    }

    /** Clears every final ordinal of the run, then numbers the cited rows one key at a time. */
    method NumberCitations(id: RunId, ids: seq<Text>)
      requires id in runs
      modifies this`runs
      ensures runs == old(runs)[id := old(runs)[id].(evidence := CiteAll(old(runs)[id].evidence, ids))]
    {
      ghost var original := runs[id].evidence;
      var evidence := runs[id].evidence;
      for i := 0 to |evidence|
        invariant |evidence| == |original|
        invariant forall k :: 0 <= k < i ==> evidence[k] == Cite(original[k], ids[..0])
        invariant forall k :: i <= k < |evidence| ==> evidence[k] == original[k]
      {
        evidence := evidence[i := evidence[i].(finalOrdinal := None)];
      }
      for index := 0 to |ids|
        invariant |evidence| == |original|
        invariant forall k :: 0 <= k < |evidence| ==> evidence[k] == Cite(original[k], ids[..index])
      {
        assert ids[..index + 1][..index] == ids[..index];
        for i := 0 to |evidence|
          invariant |evidence| == |original|
          invariant forall k :: 0 <= k < i ==> evidence[k] == Cite(original[k], ids[..index + 1])
          invariant forall k :: i <= k < |evidence| ==> evidence[k] == Cite(original[k], ids[..index])
        {
          if evidence[i].key == ids[index] {
            evidence := evidence[i := evidence[i].(finalOrdinal := Some(index + 1))];
          }
        }
      }
      assert ids[..|ids|] == ids;
      assert evidence == CiteAll(original, ids);
      runs := runs[id := runs[id].(evidence := evidence)];
    }

    /** Numbers the citations, inserts the final step and writes the terminal run row. */
    method StoreAnswer(id: RunId, finalStepId: StepId, result: FinalResult, now: Time)
      requires id in runs
      modifies this`runs
      ensures runs == old(runs)[id := Published(old(runs)[id], finalStepId, result, now)]
    {
      var run := runs[id].run;
      NumberCitations(id, result.evidenceIds);
      runs := runs[id := runs[id].(steps := runs[id].steps + [FinalStep(finalStepId, run.stepCount + 1, now)])];
      runs := runs[id := runs[id].(run := run.(
        status := Completed, stepCount := run.stepCount + 1, finalStatus := Some(result.status), finalAnswer := Some(result.answer),
        finishedAt := Some(now), leaseOwnerId := None, leaseExpiresAt := None))];
    }

    method PublishParsed(id: RunId, fence: Fence, finalStepId: StepId, result: FinalResult, now: Time)
      returns (r: CompleteRunResult)
      modifies this`runs
      ensures id !in old(runs) ==> runs == old(runs) && r == CompleteRunStale
      ensures id in old(runs) ==>
        var t := Tx.PublishParsed(
          old(runs)[id], HasMembership(old(runs)[id].run), fence, finalStepId, IdElsewhere(old(runs), id, finalStepId), result, now);
        runs == old(runs)[id := t.0] && r == t.1
    {
      var gate := PassGate(id, fence, now);
      if gate == Shut {
        return CompleteRunStale;
      }
      if gate == Ends(EndCancelled) {
        return CompleteRunCancelRequested;
      }
      if gate.Ends? {
        return if HasMembership(runs[id].run) then CompleteRunDeadlineExceeded else CompleteRunAccessRevoked;
      }
      var run, steps := runs[id].run, runs[id].steps;
      if run.stepCount >= run.limits.maxSteps {
        return CompleteRunStepLimit;
      }
      if LastRunning(steps).Some? || HasFinalAnswer(steps) {
        return CompleteRunStale;
      }
      if !AllCitable(runs[id], result.evidenceIds) {
        return CompleteRunInvalidEvidence;
      }
      if HasId(steps, finalStepId) || IdElsewhere(runs, id, finalStepId) || !TextFits(result.answer) {
        return CompleteRunThrew;
      }
      StoreAnswer(id, finalStepId, result, now);
      r := RunCompleted;
    }

    /** The result is parsed again before the transaction opens. */
    method CompleteRun(id: RunId, fence: Fence, input: CompleteRunInput, now: Time) returns (r: CompleteRunResult)
      modifies this`runs
      ensures id !in old(runs) ==> runs == old(runs) && r in {CompleteRunStale, CompleteRunThrew}
      ensures id in old(runs) ==>
        var t := Tx.CompleteRun(old(runs)[id], HasMembership(old(runs)[id].run), fence, old(AnswerChecked(id, input)), now);
        runs == old(runs)[id := t.0] && r == t.1
    {
      hide ParseFinalResult, Trim, Tx.PublishParsed;
      var parsed := ParseFinalResult(input.finalResult);
      if parsed.None? {
        return CompleteRunThrew;
      }
      r := PublishParsed(id, fence, input.finalStepId, parsed.value, now);
    }

    method FailRun(id: RunId, fence: Fence, input: FailRunInput, now: Time) returns (r: FailRunResult)
      modifies this`runs
      ensures id !in old(runs) ==> runs == old(runs) && r == FailRunStale
      ensures id in old(runs) ==>
        var t := Tx.FailRun(old(runs)[id], HasMembership(old(runs)[id].run), fence, old(FailureChecked(id, input)), now);
        runs == old(runs)[id := t.0] && r == t.1
    {
      var gate := PassGate(id, fence, now);
      if gate == Shut {
        return FailRunStale;
      }
      if gate == Ends(EndCancelled) {
        return FailRunCancelRequested;
      }
      if gate.Ends? {
        return if HasMembership(runs[id].run) then FailRunDeadlineExceeded else FailRunAccessRevoked;
      }
      var run := runs[id].run;
      if input.decisionErrorStepId.Some? {
        if run.stepCount >= run.limits.maxSteps {
          return FailRunStepLimit;
        }
        if HasId(runs[id].steps, input.decisionErrorStepId.value) || IdElsewhere(runs, id, input.decisionErrorStepId.value) {
          return FailRunThrew;
        }
      }
      EndRunNow(id, EndFailed(input.errorCode), now);
      if input.decisionErrorStepId.Some? {
        var step := DecisionErrorStep(input.decisionErrorStepId.value, run.stepCount + 1, input.errorCode, now);
        runs := runs[id := runs[id].(steps := runs[id].steps + [step])];
        runs := runs[id := runs[id].(run := runs[id].run.(stepCount := run.stepCount + 1))];
      }
      r := RunFailed;
    }

    method MarkCancelled(id: RunId, fence: Fence, now: Time) returns (r: MarkCancelledResult)
      modifies this`runs
      ensures id !in old(runs) ==> runs == old(runs) && r == MarkCancelledStale
      ensures id in old(runs) ==>
        var t := Tx.MarkCancelled(old(runs)[id], fence, now);
        runs == old(runs)[id := t.0] && r == t.1
    {
      if id !in runs || !Holds(runs[id].run, fence) {
        return MarkCancelledStale;
      }
      if runs[id].run.cancelRequestedAt.None? {
        return MarkNotRequested;
      }
      EndRunNow(id, EndCancelled, now);
      r := MarkedCancelled;
    }

    method ReadExecutionState(id: RunId, fence: Fence, now: Time) returns (r: ReadStateResult)
      ensures id !in runs ==> r == ReadStale
      ensures id in runs ==> r == Tx.ReadExecutionState(runs[id], HasMembership(runs[id].run), fence, now)
    {
      if id !in runs || !Holds(runs[id].run, fence) || runs[id].run.leaseExpiresAt.None? {
        return ReadStale;
      }
      var run := runs[id].run;
      var guard := ClassifyWorkerWrite(run, HasMembership(run), now);
      if guard != Allowed {
        return ReadRefused(guard);
      }
      if run.leaseExpiresAt.value <= now {
        return ReadStale;
      }
      r := StateRead(runs[id]);
    }
  }
}
