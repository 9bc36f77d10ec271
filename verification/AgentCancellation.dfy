/** What a cancellation request guarantees, whoever acts on the run afterwards. */
module AgentCancellation {
  import opened Common
  import opened Utf16
  import opened AgentContracts
  import opened AgentState
  import opened AgentRows
  import opened AgentTransactions
  import opened AgentInvariant
  import opened AgentHistory

  predicate CancelPending(run: RunRecord) {
    run.status == Running && run.cancelRequestedAt.Some?
  }

  /** A member's cancellation takes effect at once on a queued run, and leaves a request on a running one. */
  lemma CancellingTakesEffect(rows: RunRows, members: set<UserId>, actor: UserId, now: Time)
    requires Consistent(rows) && actor in members
    ensures var after := Apply(rows, members, Cancel(actor), now);
      && (rows.run.status == Queued ==> after.run.status == Cancelled)
      && (rows.run.status == Running ==> CancelPending(after.run))
      && (IsTerminal(rows.run.status) ==> after == rows)
  {
    hide StepsOk, EvidenceOk, AnswerOk;
  }

  /** A stranger changes nothing. */
  lemma StrangersCannotCancel(rows: RunRows, members: set<UserId>, actor: UserId, now: Time)
    requires actor !in members
    ensures Apply(rows, members, Cancel(actor), now) == rows
  {
  }

  /** The run with a request of this actor on it, and nothing else changed but its ending. */
  predicate IsRequested(run: RunRecord, after: RunRecord, actor: UserId, now: Time) {
    && after.cancelRequestedAt == Some(now) && after.cancelRequestedBy == Some(actor)
    && run == after.(status := run.status, finishedAt := run.finishedAt, cancelRequestedAt := run.cancelRequestedAt,
                     cancelRequestedBy := run.cancelRequestedBy)
  }

  /** What each answer means: a stranger learns nothing, and the first request on a running run is the one that is kept. */
  lemma CancelDecides(rows: RunRows, actorIsMember: bool, actor: UserId, now: Time)
    requires Consistent(rows)
    ensures var (after, r) := CancelRun(rows, actorIsMember, actor, now);
      && after.steps == rows.steps && after.evidence == rows.evidence
      && (r == RunNotFound <==> !actorIsMember)
      && (forall status :: r == AlreadyTerminal(status) <==> actorIsMember && IsTerminal(rows.run.status) && status == rows.run.status)
      && (r == CancelledNow <==> actorIsMember && rows.run.status == Queued)
      && (r == CancellationRequested <==> actorIsMember && rows.run.status == Running)
      && (r == RunNotFound || r.AlreadyTerminal? ==> after == rows)
      && (r == CancelledNow ==> IsRequested(rows.run, after.run, actor, now) && after.run.status == Cancelled && after.run.finishedAt == Some(now))
      && (r == CancellationRequested ==>
            if rows.run.cancelRequestedAt.Some? then after == rows
            else IsRequested(rows.run, after.run, actor, now) && after.run.status == Running && after.run.finishedAt == rows.run.finishedAt)
  {
    hide StepsOk, EvidenceOk, AnswerOk;
  }

  /** Only the running step may have changed, and only by being cancelled. */
  predicate CancelledWork(a: RunRows, b: RunRows) {
    && b.evidence == a.evidence && |b.steps| == |a.steps|
    && b.run.stepCount == a.run.stepCount && b.run.toolCallCount == a.run.toolCallCount && b.run.contextBytes == a.run.contextBytes
    && b.run.finalAnswer == a.run.finalAnswer
    && forall i :: 0 <= i < |a.steps| ==>
         b.steps[i] == a.steps[i] || (a.steps[i].status == StepRunning && b.steps[i].status == StepCancelled)
  }

  /** The request is still open and nothing was done, or the run is cancelled. */
  predicate OnlyCancelled(a: RunRows, b: RunRows) {
    && CancelledWork(a, b)
    && (CancelPending(b.run) ==> b.steps == a.steps)
    && (CancelPending(b.run) || b.run.status == Cancelled)
  }

  lemma PublishingAfterCancel(rows: RunRows, member: bool, fence: Fence, id: StepId, idTaken: bool, result: FinalResult, now: Time)
    requires CancelPending(rows.run)
    ensures OnlyCancelled(rows, PublishParsed(rows, member, fence, id, idTaken, result, now).0)
  {
    hide AllCitable, CiteAll, HasId, HasFinalAnswer, LastRunning;
  }

  lemma TransactionsAfterCancel(rows: RunRows, members: set<UserId>, action: RunAction, now: Time)
    requires CancelPending(rows.run)
    ensures OnlyCancelled(rows, Apply(rows, members, action, now))
  {
    hide HasId, LastRunning, RunningTool, ParseFinalResult, Trim, PublishParsed;
    if action.Publish? && ParseFinalResult(action.answer.finalResult).Some? {
      PublishingAfterCancel(rows, IsMember(rows.run, members), action.fence, action.answer.finalStepId, action.answer.idTaken,
                            ParseFinalResult(action.answer.finalResult).value, now);
    }
  }

  lemma CancelledStaysCancelled(rows: RunRows, members: set<UserId>, action: RunAction, now: Time)
    requires Consistent(rows) && rows.run.status == Cancelled
    ensures Frozen(rows, Apply(rows, members, action, now))
  {
    hide Consistent, Apply;
    TransactionsMoveForward(rows, members, action, now);
  }

  /**
   * Once cancellation is requested the run can only end cancelled: no later history adds a step, an observation,
   * evidence or an answer, completes it or fails it.
   */
  lemma {:induction false} CancelledRunsNeverAdvance(rows: RunRows, events: seq<Event>)
    requires Consistent(rows) && CancelPending(rows.run)
    ensures OnlyCancelled(rows, Replay(rows, events))
  {
    hide Consistent, Apply;
    if events != [] {
      var front, e := events[..|events| - 1], events[|events| - 1];
      var before := Replay(rows, front);
      CancelledRunsNeverAdvance(rows, front);
      HistoriesMoveForward(rows, front);
      if CancelPending(before.run) {
        TransactionsAfterCancel(before, e.members, e.action, e.now);
      } else {
        CancelledStaysCancelled(before, e.members, e.action, e.now);
      }
    }
  }
}
