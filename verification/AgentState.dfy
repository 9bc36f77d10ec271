/** The run status table and the terminal-state rule (server/modules/agents/state.ts). */
module AgentState {
  import opened Common
  import opened Utf16
  import opened AgentContracts

  predicate IsTerminal(status: RunStatus) {
    status in {Completed, Failed, Cancelled}
  }

  function AllowedTransitions(from: RunStatus): set<RunStatus> {
    match from
    case Queued => {Running, Cancelled}
    case Running => {Completed, Failed, Cancelled}
    case _ => {}
  }

  /** A walk through the transition table. */
  ghost predicate IsPath(path: seq<RunStatus>) {
    && path != []
    && forall i :: 0 <= i < |path| - 1 ==> path[i + 1] in AllowedTransitions(path[i])
  }

  /** The reflexive, transitive closure of the transition table. */
  ghost predicate Reaches(from: RunStatus, to: RunStatus) {
    exists path :: IsPath(path) && path[0] == from && path[|path| - 1] == to
  }

  lemma ReachesItself(s: RunStatus)
    ensures Reaches(s, s)
  {
    assert IsPath([s]);
  }

  lemma ReachesDirectly(from: RunStatus, to: RunStatus)
    requires to in AllowedTransitions(from)
    ensures Reaches(from, to)
  {
    assert IsPath([from, to]);
  }

  lemma ReachesThroughRunning(to: RunStatus)
    requires to in AllowedTransitions(Running)
    ensures Reaches(Queued, to)
  {
    assert IsPath([Queued, Running, to]);
  }

  lemma ReachesIsTransitive(a: RunStatus, b: RunStatus, c: RunStatus)
    requires Reaches(a, b) && Reaches(b, c)
    ensures Reaches(a, c)
  {
    var p :| IsPath(p) && p[0] == a && p[|p| - 1] == b;
    var q :| IsPath(q) && q[0] == b && q[|q| - 1] == c;
    var r := p + q[1..];
    assert r[0] == a && r[|r| - 1] == c;
    forall i | 0 <= i < |r| - 1
      ensures r[i + 1] in AllowedTransitions(r[i])
    {
      if i >= |p| - 1 {
        assert r[i] == q[i - |p| + 1] && r[i + 1] == q[i - |p| + 2];
      }
    }
  }

  /** A terminal status reaches nothing but itself. */
  lemma TerminalReachesOnlyItself(from: RunStatus, to: RunStatus)
    requires IsTerminal(from) && Reaches(from, to)
    ensures to == from
  {
    var p :| IsPath(p) && p[0] == from && p[|p| - 1] == to;
    assert |p| > 1 ==> p[0 + 1] in AllowedTransitions(p[0]);
  }

  datatype CompletionState = CompletionState(
    finalAnswer: Option<Text>,
    errorCode: Option<ErrorCode>,
    finished: bool,
    hasLease: bool,
    completedFinalAnswerSteps: nat,
    hasStepsAfterFinalAnswer: bool
  )

  /** assertValidAgentRunTerminalState does not throw. */
  predicate ValidTerminalState(status: RunStatus, s: CompletionState)
    requires IsTerminal(status)
  {
    && !s.hasLease && s.finished
    && match status
       case Completed =>
         && s.finalAnswer.Some? && Trim(s.finalAnswer.value) != [] && s.errorCode.None?
         && s.completedFinalAnswerSteps == 1 && !s.hasStepsAfterFinalAnswer
       case Failed => s.finalAnswer.None? && s.completedFinalAnswerSteps == 0 && s.errorCode.Some?
       case Cancelled => s.finalAnswer.None? && s.completedFinalAnswerSteps == 0 && s.errorCode.None?
  }
}
