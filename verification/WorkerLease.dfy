/** The worker's side of a lease: heartbeats, the watchdog, and who may still be executing (server/modules/agents/worker.ts). */
module WorkerLease {
  import opened Common
  import opened AgentContracts
  import opened AgentRows
  import opened AgentTransactions
  import opened AgentInvariant
  import opened AgentHistory

  datatype Timing = Timing(
    idlePollMs: int, leaseDurationMs: int, heartbeatIntervalMs: int, heartbeatRetryMs: int, leaseSafetyMarginMs: int,
    shutdownGraceMs: int, shutdownSettleMs: int)

  /** validateTiming does not throw. */
  predicate TimingAccepted(t: Timing) {
    && t.idlePollMs > 0 && t.leaseDurationMs > 0 && t.heartbeatIntervalMs > 0 && t.heartbeatRetryMs > 0
    && t.leaseSafetyMarginMs > 0 && t.shutdownGraceMs > 0 && t.shutdownSettleMs > 0
    && t.heartbeatIntervalMs < t.leaseDurationMs
    && t.leaseSafetyMarginMs < t.leaseDurationMs
  }

  type WorkerTiming = t: Timing | TimingAccepted(t) witness Timing(2000, 60000, 15000, 2000, 15000, 10000, 5000)

  datatype StopCause = CancelRequested | LeaseLost | LeaseRenewalUncertain | Shutdown

  datatype HeartbeatOutcome = Updated | Retry | StopNow

  /** The one heartbeat a session may have under way: sent with a clock reading, then answered by the repository. */
  datatype Request = NoRequest | Sent(stamp: Time) | Answered(result: HeartbeatResult)

  /** A claimed run whose reply is on its way, is being executed, or is over. */
  datatype Phase = Pending | Active | Over

  datatype Session = Session(
    fence: Fence,
    deadlineAt: Time,
    timing: WorkerTiming,
    confirmed: Time,
    phase: Phase,
    stopCause: Option<StopCause>,
    request: Request,
    watchdogDue: Option<Time>
  )

  // ---------------------------------------------------------------- one session

  predicate Capped(s: Session) {
    s.confirmed == s.deadlineAt
  }

  /** When the watchdog should stop the execution: a safety margin before expiry, unless the run's deadline caps the lease. */
  function Cutoff(s: Session): Time {
    s.confirmed - if Capped(s) then 0 else s.timing.leaseSafetyMarginMs
  }

  /** resetWatchdog: the delay is never negative. */
  function Rearmed(s: Session, now: Time): Session {
    s.(watchdogDue := Some(Max(Cutoff(s), now)))
  }

  function Claimed(fence: Fence, run: RunRecord, timing: WorkerTiming): Session
    requires run.leaseExpiresAt.Some? && run.deadlineAt.Some?
  {
    Session(fence, run.deadlineAt.value, timing, run.leaseExpiresAt.value, Pending, None, NoRequest, None)
  }

  function Started(s: Session, now: Time): Session {
    Rearmed(s.(phase := Active), now)
  }

  /** stopMaintenance, with or without stopExecution before it: either way nothing executes afterwards. */
  function Ended(s: Session, cause: Option<StopCause>): Session {
    s.(phase := Over, stopCause := if s.stopCause.Some? then s.stopCause else cause, watchdogDue := None)
  }

  /** When the session that starts at now sends its first maintenance heartbeat, unless a checkpoint sends one before. */
  function FirstMaintenanceHeartbeat(s: Session, now: Time): Time {
    now + s.timing.heartbeatIntervalMs
  }

  /**
   * An uncapped lease leaves time before its cutoff, and the session's first maintenance heartbeat precedes the watchdog
   * exactly when the interval, the margin and the time the claim's reply took are together shorter than the lease.
   * validateTiming asks for less.
   */
  lemma FirstMaintenanceHeartbeatIff(s: Session, stamp: Time, now: Time)
    requires s.confirmed == LeaseExpiry(stamp, s.timing.leaseDurationMs, s.deadlineAt) && !Capped(s)
    requires stamp <= now
    ensures stamp < Cutoff(s)
    ensures var due := Started(s, now).watchdogDue;
      due.Some? && (FirstMaintenanceHeartbeat(s, now) < due.value
        <==> s.timing.heartbeatIntervalMs + s.timing.leaseSafetyMarginMs + (now - stamp) < s.timing.leaseDurationMs)
  {
  }

  /** An accepted timing whose watchdog is due before the first maintenance heartbeat, however fast the reply. */
  lemma AcceptedTimingsMayStarve()
    ensures var timing := Timing(2000, 60000, 50000, 2000, 15000, 10000, 5000);
      && TimingAccepted(timing)
      && var s := Session(Fence(0, 1), 1_000_000, timing, 60000, Pending, None, NoRequest, None);
         && s.confirmed == LeaseExpiry(0, timing.leaseDurationMs, s.deadlineAt) && !Capped(s)
         && Started(s, 0).watchdogDue == Some(45000) && FirstMaintenanceHeartbeat(s, 0) == 50000
  {
  }

  /** What an answered heartbeat does to the session. */
  function Settled(s: Session, now: Time): (Session, HeartbeatOutcome)
    requires s.request.Answered?
  {
    var t := s.(request := NoRequest);
    if s.phase != Active then (t, StopNow)
    else match s.request.result
      case LeaseUpdated(expiresAt) => (Rearmed(t.(confirmed := expiresAt), now), Updated)
      case HeartbeatCancelRequested => (Ended(t, Some(CancelRequested)), StopNow)
      case HeartbeatStale => (Ended(t, Some(LeaseLost)), StopNow)
  }

  /** The session lives on under the new lease with its watchdog moved, or is over for the reason it was told first. */
  lemma AnswersMoveTheSession(s: Session, now: Time)
    requires s.request.Answered?
    ensures var (after, r) := Settled(s, now);
      && after == s.(request := NoRequest, confirmed := after.confirmed, phase := after.phase, stopCause := after.stopCause, watchdogDue := after.watchdogDue)
      && (r == Updated <==> s.phase == Active && s.request.result.LeaseUpdated?)
      && (r != Updated ==> r == StopNow && after.confirmed == s.confirmed)
      && (r == Updated ==>
            var expiry := s.request.result.leaseExpiresAt;
            var cutoff := if expiry == s.deadlineAt then expiry else expiry - s.timing.leaseSafetyMarginMs;
            && after.confirmed == expiry && after.phase == Active && after.stopCause == s.stopCause
            && after.watchdogDue == Some(if cutoff < now then now else cutoff))
      && (s.phase == Active && r == StopNow ==>
            && after.phase == Over && after.watchdogDue.None?
            && (s.stopCause.Some? ==> after.stopCause == s.stopCause)
            && (s.stopCause.None? ==> after.stopCause == Some(if s.request.result.HeartbeatStale? then LeaseLost else CancelRequested)))
      && (s.phase != Active ==> after.phase == s.phase && after.stopCause == s.stopCause && after.watchdogDue == s.watchdogDue)
  {
  }

  /** processClaim's locals and the closures that update them. */
  class ClaimSession {
    const fence: Fence
    const deadlineAt: Time
    const timing: WorkerTiming
    var confirmedLeaseExpiresAt: Time
    var stopCause: Option<StopCause>
    var heartbeatInFlight: Request
    var watchdogDue: Option<Time>
    var started: bool
    var executionAborted: bool
    var maintenanceAborted: bool
    /** When each heartbeat was sent. */
    ghost var sends: seq<Time>

    /** An aborted execution is never maintained, and a maintained one always has its watchdog armed. */
    predicate Valid()
      reads this
    {
      && (executionAborted ==> maintenanceAborted)
      && (maintenanceAborted ==> watchdogDue.None?)
      && (started && !maintenanceAborted ==> watchdogDue.Some?)
    }

    function State(): Session
      reads this
    {
      Session(fence, deadlineAt, timing, confirmedLeaseExpiresAt,
              if maintenanceAborted then Over else if started then Active else Pending,
              stopCause, heartbeatInFlight, watchdogDue)
    }

    constructor (fence: Fence, run: RunRecord, timing: WorkerTiming)
      requires run.leaseExpiresAt.Some? && run.deadlineAt.Some?
      ensures Valid() && State() == Claimed(fence, run, timing) && !executionAborted
    {
      this.fence, this.timing := fence, timing;
      deadlineAt := run.deadlineAt.value;
      confirmedLeaseExpiresAt := run.leaseExpiresAt.value;
      stopCause, heartbeatInFlight, watchdogDue := None, NoRequest, None;
      started, executionAborted, maintenanceAborted, sends := false, false, false, [];
    }

    method ResetWatchdog(now: Time)
      requires Valid() && !maintenanceAborted
      modifies this`watchdogDue
      ensures Valid() && State() == Rearmed(old(State()), now)
    {
      var deadlineCapped := confirmedLeaseExpiresAt == deadlineAt;
      var cutoff := confirmedLeaseExpiresAt - if deadlineCapped then 0 else timing.leaseSafetyMarginMs;
      var delayMs := Max(0, cutoff - now);
      watchdogDue := Some(now + delayMs);
    }

    method Start(now: Time)
      requires Valid() && !maintenanceAborted
      modifies this`started, this`watchdogDue
      ensures Valid() && State() == Started(old(State()), now)
    {
      ResetWatchdog(now);
      started := true;
    }

    method StopMaintenance(cause: Option<StopCause>)
      modifies this`stopCause, this`maintenanceAborted, this`watchdogDue
      ensures Valid() && State() == Ended(old(State()), cause)
    {
      if stopCause.None? {
        stopCause := cause;
      }
      maintenanceAborted := true;
      watchdogDue := None;
    }

    method StopExecution(cause: StopCause)
      requires Valid()
      modifies this`stopCause, this`executionAborted, this`maintenanceAborted, this`watchdogDue
      ensures Valid() && executionAborted && State() == Ended(old(State()), Some(cause))
    {
      if stopCause.None? {
        stopCause := Some(cause);
      }
      executionAborted := true;
      StopMaintenance(Some(cause));
    }

    /** heartbeat: joins the request under way, and sends none once maintenance has stopped. */
    method Heartbeat(now: Time) returns (sent: bool)
      requires Valid()
      modifies this`heartbeatInFlight, this`sends
      ensures Valid() && sent == (old(heartbeatInFlight).NoRequest? && !maintenanceAborted)
      ensures sends == if sent then old(sends) + [now] else old(sends)
      ensures State() == if sent then old(State()).(request := Sent(now)) else old(State())
    {
      sent := heartbeatInFlight.NoRequest? && !maintenanceAborted;
      if sent {
        heartbeatInFlight, sends := Sent(now), sends + [now];
      }
    }

    /** An execution whose lease is lost, or whose run is to be cancelled, is aborted with its maintenance. */
    method SettleHeartbeat(now: Time) returns (r: HeartbeatOutcome)
      requires Valid() && started && heartbeatInFlight.Answered?
      modifies this
      ensures Valid() && started && (State(), r) == Settled(old(State()), now)
      ensures executionAborted <==> old(executionAborted) || (!old(maintenanceAborted) && r == StopNow)
      ensures sends == old(sends)
    {
      var result := heartbeatInFlight.result;
      heartbeatInFlight := NoRequest;
      if maintenanceAborted {
        return StopNow;
      }
      match result {
        case LeaseUpdated(expiresAt) =>
          confirmedLeaseExpiresAt := expiresAt;
          ResetWatchdog(now);
          r := Updated;
        case HeartbeatCancelRequested =>
          StopExecution(CancelRequested);
          r := StopNow;
        case HeartbeatStale =>
          StopExecution(LeaseLost);
          r := StopNow;
      }
    }

    /** The request threw; nothing was confirmed. */
    method FailHeartbeat() returns (r: HeartbeatOutcome)
      requires Valid()
      modifies this`heartbeatInFlight
      ensures Valid() && State() == old(State()).(request := NoRequest)
      ensures r == if maintenanceAborted then StopNow else Retry
    {
      heartbeatInFlight := NoRequest;
      r := if maintenanceAborted then StopNow else Retry;
    }

    /** The timer's callback. */
    method FireWatchdog()
      requires Valid() && watchdogDue.Some?
      modifies this`stopCause, this`executionAborted, this`maintenanceAborted, this`watchdogDue
      ensures Valid() && executionAborted && State() == Ended(old(State()), Some(LeaseRenewalUncertain))
    {
      StopExecution(LeaseRenewalUncertain);
    }

    /** Time passes while something is awaited: the watchdog fires if it is due, and anyone may stop the session. */
    method Await(now: Time, atLeast: nat) returns (later: Time, ghost stopped: bool)
      requires Valid() && started
      modifies this`stopCause, this`executionAborted, this`maintenanceAborted, this`watchdogDue
      ensures !stopped && maintenanceAborted && !old(maintenanceAborted) ==> executionAborted
      ensures Valid() && later >= now + atLeast
      ensures !maintenanceAborted ==> State() == old(State()) && watchdogDue.Some? && later < watchdogDue.value
      ensures old(maintenanceAborted) ==> maintenanceAborted
    {
      var delay: nat := Anything();
      later := now + atLeast + delay;
      var stops := Anything();
      stopped := stops;
      if stops {
        var cause := Anything();
        StopMaintenance(cause);
      }
      if watchdogDue.Some? && watchdogDue.value <= later {
        FireWatchdog();
      }
    }

    /** Heartbeats from this one on are a retry interval apart. */
    ghost predicate SpacedFrom(first: nat)
      reads this
    {
      forall i :: first < i < |sends| ==> sends[i] >= sends[i - 1] + timing.heartbeatRetryMs
    }

    /**
     * leaseCheckpoint: continues only once a heartbeat has renewed the lease, and otherwise stops. It always answers
     * when every request settles and a due watchdog fires, because retries cannot outlast the watchdog.
     */
    method LeaseCheckpoint(start: Time) returns (continues: bool, now: Time)
      requires Valid() && started
      modifies this
      ensures Valid() && started && now >= start
      ensures continues ==> !maintenanceAborted && heartbeatInFlight.NoRequest? && watchdogDue == Some(Max(Cutoff(State()), now))
      ensures !continues ==> maintenanceAborted
      ensures SpacedFrom(|old(sends)|)
    {
      now := start;
      while !maintenanceAborted
        invariant Valid() && started && now >= start
        invariant |sends| >= |old(sends)| && SpacedFrom(|old(sends)|)
        invariant |sends| > |old(sends)| ==> now >= sends[|sends| - 1] + timing.heartbeatRetryMs
        decreases !maintenanceAborted, if watchdogDue.Some? then watchdogDue.value - now else 0
      {
        ghost var due := watchdogDue.value;
        var sent := Heartbeat(now);
        ghost var stopped;
        now, stopped := Await(now, 0);
        if maintenanceAborted {
          return false, now;
        }
        var threw := Anything();
        var outcome: HeartbeatOutcome;
        if threw {
          outcome := FailHeartbeat();
        } else {
          var result := Anything();
          heartbeatInFlight := Request.Answered(result);
          outcome := SettleHeartbeat(now);
        }
        if outcome == Updated {
          return true, now;
        }
        if outcome == StopNow {
          return false, now;
        }
        now, stopped := Await(now, timing.heartbeatRetryMs);
      }
      continues := false;
    }
  }

  // ---------------------------------------------------------------- every worker's sessions on one run

  datatype World = World(rows: RunRows, clock: Time, sessions: map<nat, Session>)

  /** One step of anybody; stamps are clock readings taken at or before the step. */
  datatype LeaseEvent =
    | Tick(clock: Time)
    | ClaimBy(session: nat, owner: OwnerId, timing: WorkerTiming, stamp: Time, members: set<UserId>)
    | Start(session: nat)
    | SendHeartbeat(session: nat)
    | CommitHeartbeat(session: nat, members: set<UserId>)
    | LoseHeartbeat(session: nat)
    | ReceiveHeartbeat(session: nat)
    | WatchdogFires(session: nat)
    | StopSession(session: nat, cause: Option<StopCause>)
    | OtherWrite(action: RunAction, stamp: Time, members: set<UserId>)

  predicate Enabled(w: World, e: LeaseEvent) {
    match e
    case Tick(t) => t >= w.clock
    case ClaimBy(id, _, _, stamp, _) => id !in w.sessions && stamp <= w.clock
    case Start(id) => id in w.sessions && w.sessions[id].phase == Pending
    case SendHeartbeat(id) => id in w.sessions && w.sessions[id].phase == Active && w.sessions[id].request == NoRequest
    case CommitHeartbeat(id, _) => id in w.sessions && w.sessions[id].request.Sent?
    case LoseHeartbeat(id) => id in w.sessions && w.sessions[id].request != NoRequest
    case ReceiveHeartbeat(id) => id in w.sessions && w.sessions[id].request.Answered?
    case WatchdogFires(id) => id in w.sessions && w.sessions[id].watchdogDue.Some? && w.sessions[id].watchdogDue.value <= w.clock
    case StopSession(id, _) => id in w.sessions
    case OtherWrite(action, _, _) => !action.Claim? && !action.Heartbeat?
  }

  function With(w: World, id: nat, s: Session): World {
    w.(sessions := w.sessions[id := s])
  }

  /** claimRun on this run; a run that is handed out becomes a session. */
  function ClaimStep(w: World, id: nat, owner: OwnerId, timing: WorkerTiming, stamp: Time, member: bool): World {
    if !Claimable(w.rows.run, stamp) then w
    else
      var rows := ClaimCandidate(w.rows, member, owner, timing.leaseDurationMs, stamp);
      if ClaimEnding(w.rows.run, member, stamp).Some? then w.(rows := rows)
      else With(w.(rows := rows), id, Claimed(Fence(owner, rows.run.leaseGeneration), rows.run, timing))
  }

  function Step(w: World, e: LeaseEvent): World
    requires Enabled(w, e)
  {
    match e
    case Tick(t) => w.(clock := t)
    case ClaimBy(id, owner, timing, stamp, members) => ClaimStep(w, id, owner, timing, stamp, IsMember(w.rows.run, members))
    case Start(id) => With(w, id, Started(w.sessions[id], w.clock))
    case SendHeartbeat(id) => With(w, id, w.sessions[id].(request := Sent(w.clock)))
    case CommitHeartbeat(id, members) =>
      var s := w.sessions[id];
      var (rows, result) :=
        HeartbeatLease(w.rows, IsMember(w.rows.run, members), s.fence, s.timing.leaseDurationMs, s.request.stamp);
      With(w.(rows := rows), id, s.(request := Request.Answered(result)))
    case LoseHeartbeat(id) => With(w, id, w.sessions[id].(request := NoRequest))
    case ReceiveHeartbeat(id) => With(w, id, Settled(w.sessions[id], w.clock).0)
    case WatchdogFires(id) => With(w, id, Ended(w.sessions[id], Some(LeaseRenewalUncertain)))
    case StopSession(id, cause) => With(w, id, Ended(w.sessions[id], cause))
    case OtherWrite(action, stamp, members) => w.(rows := Apply(w.rows, members, action, stamp))
  }

  ghost predicate IsRun(worlds: seq<World>, events: seq<LeaseEvent>) {
    && |worlds| == |events| + 1
    && worlds[0].sessions == map[] && Consistent(worlds[0].rows)
    && forall i :: 0 <= i < |events| ==> Enabled(worlds[i], events[i]) && worlds[i + 1] == Step(worlds[i], events[i])
  }

  // ---------------------------------------------------------------- what every step keeps

  /** The session's lease is current: it never believes in a later expiry than the row, and no heartbeat shortens the lease. */
  predicate CurrentOk(run: RunRecord, clock: Time, s: Session) {
    && run.leaseOwnerId == Some(s.fence.owner)
    && run.leaseExpiresAt.Some?
    && var lease := run.leaseExpiresAt.value;
       && s.confirmed <= lease <= LeaseExpiry(clock, s.timing.leaseDurationMs, s.deadlineAt)
       && match s.request
          case NoRequest => true
          case Sent(stamp) => stamp <= clock && lease <= LeaseExpiry(stamp, s.timing.leaseDurationMs, s.deadlineAt)
          case Answered(result) => result.LeaseUpdated? ==> result.leaseExpiresAt <= lease
  }

  /** The lease was handed on: everything the session was ever told about it has passed, and lay before the deadline. */
  predicate SupersededOk(clock: Time, s: Session) {
    && s.confirmed <= clock && s.confirmed < s.deadlineAt
    && (s.request.Answered? && s.request.result.LeaseUpdated? ==>
          s.request.result.leaseExpiresAt <= clock && s.request.result.leaseExpiresAt < s.deadlineAt)
  }

  /** While the session executes, its watchdog is armed for the cutoff, or is already due. */
  predicate WatchdogOk(clock: Time, s: Session) {
    s.phase == Active ==> s.watchdogDue.Some? && (s.watchdogDue.value == Cutoff(s) || s.watchdogDue.value <= clock)
  }

  predicate SessionOk(run: RunRecord, clock: Time, s: Session) {
    && run.deadlineAt == Some(s.deadlineAt)
    && s.fence.generation <= run.leaseGeneration
    && WatchdogOk(clock, s)
    && (s.fence.generation < run.leaseGeneration ==> SupersededOk(clock, s))
    && (s.fence.generation == run.leaseGeneration && run.status == Running ==> CurrentOk(run, clock, s))
  }

  predicate WorldOk(w: World) {
    && Consistent(w.rows)
    && (forall id :: id in w.sessions ==> SessionOk(w.rows.run, w.clock, w.sessions[id]))
    && (forall i, j :: i in w.sessions && j in w.sessions && i != j ==> w.sessions[i].fence.generation != w.sessions[j].fence.generation)
  }

  /** Time passing and the lease, status and generation standing still keep every session in order. */
  lemma SameLeaseKeepsSession(run: RunRecord, clock: Time, after: RunRecord, later: Time, s: Session)
    requires SessionOk(run, clock, s) && clock <= later
    requires after.deadlineAt == run.deadlineAt && after.leaseGeneration == run.leaseGeneration
    requires after.status == Running ==>
      run.status == Running && after.leaseExpiresAt == run.leaseExpiresAt && after.leaseOwnerId == run.leaseOwnerId
    ensures SessionOk(after, later, s)
  {
  }

  /** Handing the run out supersedes every session on it, after all they were told has passed. */
  lemma ClaimSupersedes(rows: RunRows, clock: Time, member: bool, owner: OwnerId, duration: Duration, stamp: Time, s: Session)
    requires Consistent(rows) && SessionOk(rows.run, clock, s) && stamp <= clock
    requires Claimable(rows.run, stamp)
    ensures SessionOk(ClaimCandidate(rows, member, owner, duration, stamp).run, clock, s)
  {
    hide StepsOk, EvidenceOk, AnswerOk;
  }

  lemma ClaimStepKeepsOk(w: World, id: nat, owner: OwnerId, timing: WorkerTiming, stamp: Time, member: bool)
    requires WorldOk(w) && id !in w.sessions && stamp <= w.clock
    ensures WorldOk(ClaimStep(w, id, owner, timing, stamp, member))
  {
    hide Consistent, SessionOk;
    if Claimable(w.rows.run, stamp) {
      var rows := ClaimCandidate(w.rows, member, owner, timing.leaseDurationMs, stamp);
      ClaimKeepsConsistent(w.rows, member, owner, timing.leaseDurationMs, stamp);
      forall k | k in w.sessions
        ensures SessionOk(rows.run, w.clock, w.sessions[k])
      {
        ClaimSupersedes(w.rows, w.clock, member, owner, timing.leaseDurationMs, stamp, w.sessions[k]);
      }
      if ClaimEnding(w.rows.run, member, stamp).None? {
        NewSessionIsOk(w.rows, w.clock, member, owner, timing, stamp);
        forall k | k in w.sessions
          ensures w.sessions[k].fence.generation < rows.run.leaseGeneration
        {
          OlderGeneration(w.rows.run, w.clock, w.sessions[k]);
        }
      }
    }
  }

  lemma OlderGeneration(run: RunRecord, clock: Time, s: Session)
    requires SessionOk(run, clock, s)
    ensures s.fence.generation <= run.leaseGeneration
  {
  }

  lemma NewSessionIsOk(rows: RunRows, clock: Time, member: bool, owner: OwnerId, timing: WorkerTiming, stamp: Time)
    requires Consistent(rows) && Claimable(rows.run, stamp) && stamp <= clock && ClaimEnding(rows.run, member, stamp).None?
    ensures var run := ClaimCandidate(rows, member, owner, timing.leaseDurationMs, stamp).run;
      SessionOk(run, clock, Claimed(Fence(owner, run.leaseGeneration), run, timing))
  {
  }

  /** A heartbeat that commits leaves the other sessions alone. */
  lemma HeartbeatKeepsOthers(rows: RunRows, clock: Time, member: bool, s: Session, other: Session)
    requires Consistent(rows) && SessionOk(rows.run, clock, s) && SessionOk(rows.run, clock, other) && s.request.Sent?
    requires other.fence.generation != s.fence.generation
    ensures var (after, result) := HeartbeatLease(rows, member, s.fence, s.timing.leaseDurationMs, s.request.stamp);
      SessionOk(after.run, clock, other)
  {
    hide StepsOk, EvidenceOk, AnswerOk;
  }

  /** A heartbeat that commits never shortens a lease, and its answer is true of the row. */
  lemma HeartbeatKeepsItsSession(rows: RunRows, clock: Time, member: bool, s: Session)
    requires Consistent(rows) && SessionOk(rows.run, clock, s) && s.request.Sent?
    ensures var (after, result) := HeartbeatLease(rows, member, s.fence, s.timing.leaseDurationMs, s.request.stamp);
      SessionOk(after.run, clock, s.(request := Request.Answered(result)))
  {
    hide StepsOk, EvidenceOk, AnswerOk;
  }

  lemma CommitKeepsOk(w: World, id: nat, member: bool)
    requires WorldOk(w) && id in w.sessions && w.sessions[id].request.Sent?
    ensures var s := w.sessions[id];
      var (rows, result) := HeartbeatLease(w.rows, member, s.fence, s.timing.leaseDurationMs, s.request.stamp);
      WorldOk(With(w.(rows := rows), id, s.(request := Request.Answered(result))))
  {
    hide Consistent, SessionOk, HeartbeatLease;
    var s := w.sessions[id];
    HeartbeatKeepsConsistent(w.rows, member, s.fence, s.timing.leaseDurationMs, s.request.stamp);
    HeartbeatKeepsItsSession(w.rows, w.clock, member, s);
    forall k | k in w.sessions && k != id
      ensures SessionOk(HeartbeatLease(w.rows, member, s.fence, s.timing.leaseDurationMs, s.request.stamp).0.run, w.clock, w.sessions[k])
    {
      HeartbeatKeepsOthers(w.rows, w.clock, member, s, w.sessions[k]);
    }
  }

  /** What a session does by itself keeps it in order. */
  lemma LocalStepsKeepSession(run: RunRecord, clock: Time, s: Session)
    requires SessionOk(run, clock, s)
    ensures s.phase == Pending ==> SessionOk(run, clock, Started(s, clock))
    ensures s.request == NoRequest && RunRowOk(run) ==> SessionOk(run, clock, s.(request := Sent(clock)))
    ensures SessionOk(run, clock, s.(request := NoRequest))
    ensures s.request.Answered? ==> SessionOk(run, clock, Settled(s, clock).0)
    ensures forall cause :: SessionOk(run, clock, Ended(s, cause))
  {
  }

  lemma LocalStepKeepsOk(w: World, id: nat, s: Session)
    requires WorldOk(w) && id in w.sessions && SessionOk(w.rows.run, w.clock, s) && s.fence == w.sessions[id].fence
    ensures WorldOk(With(w, id, s))
  {
    hide Consistent, SessionOk;
  }

  lemma StepKeepsOk(w: World, e: LeaseEvent)
    requires WorldOk(w) && Enabled(w, e)
    ensures WorldOk(Step(w, e))
  {
    hide SessionOk, HeartbeatLease, Apply, ClaimCandidate, StepsOk, EvidenceOk, AnswerOk;
    match e
    case Tick(t) =>
      forall id | id in w.sessions
        ensures SessionOk(w.rows.run, t, w.sessions[id])
      {
        SameLeaseKeepsSession(w.rows.run, w.clock, w.rows.run, t, w.sessions[id]);
      }
    case ClaimBy(id, owner, timing, stamp, members) => ClaimStepKeepsOk(w, id, owner, timing, stamp, IsMember(w.rows.run, members));
    case CommitHeartbeat(id, members) => CommitKeepsOk(w, id, IsMember(w.rows.run, members));
    case OtherWrite(action, stamp, members) =>
      TransactionsKeepConsistent(w.rows, members, action, stamp);
      OtherWritesKeepTheLease(w.rows, members, action, stamp);
      forall id | id in w.sessions
        ensures SessionOk(Apply(w.rows, members, action, stamp).run, w.clock, w.sessions[id])
      {
        SameLeaseKeepsSession(w.rows.run, w.clock, Apply(w.rows, members, action, stamp).run, w.clock, w.sessions[id]);
      }
    case _ =>
      LocalStepsKeepSession(w.rows.run, w.clock, w.sessions[e.session]);
      LocalStepKeepsOk(w, e.session, Step(w, e).sessions[e.session]);
  }

  lemma {:induction false} RunsStayOk(worlds: seq<World>, events: seq<LeaseEvent>, i: nat)
    requires IsRun(worlds, events) && i < |worlds|
    ensures WorldOk(worlds[i])
  {
    hide WorldOk, Step, Enabled;
    if i > 0 {
      RunsStayOk(worlds, events, i - 1);
      StepKeepsOk(worlds[i - 1], events[i - 1]);
    } else {
      EmptyWorldIsOk(worlds[0]);
    }
  }

  lemma EmptyWorldIsOk(w: World)
    requires w.sessions == map[] && Consistent(w.rows)
    ensures WorldOk(w)
  {
  }

  /** A heartbeat that is answered with an update has renewed the row's lease to just that time, which lies ahead. */
  lemma UpdatesRenewTheLease(rows: RunRows, member: bool, fence: Fence, duration: Duration, now: Time)
    requires Consistent(rows)
    ensures var (after, result) := HeartbeatLease(rows, member, fence, duration, now);
      result.LeaseUpdated? ==>
        && Holds(after.run, fence) && after.run.leaseExpiresAt == Some(result.leaseExpiresAt)
        && now < result.leaseExpiresAt <= rows.run.deadlineAt.value
        && (result.leaseExpiresAt < rows.run.deadlineAt.value ==> result.leaseExpiresAt - now == duration)
  {
    hide StepsOk, EvidenceOk, AnswerOk;
  }

  // ---------------------------------------------------------------- why sessions stop

  /** The event stops the session with this cause. */
  predicate StopsWith(w: World, e: LeaseEvent, id: nat, cause: Option<StopCause>) {
    && id in w.sessions
    && match e
       case ReceiveHeartbeat(k) =>
         && k == id && w.sessions[id].phase == Active
         && ((w.sessions[id].request == Request.Answered(HeartbeatStale) && cause == Some(LeaseLost))
             || (w.sessions[id].request == Request.Answered(HeartbeatCancelRequested) && cause == Some(CancelRequested)))
       case WatchdogFires(k) => k == id && cause == Some(LeaseRenewalUncertain) && w.sessions[id].watchdogDue.Some? && w.sessions[id].watchdogDue.value <= w.clock
       case StopSession(k, c) => k == id && c == cause
       case _ => false
  }

  ghost predicate StoppedBefore(worlds: seq<World>, events: seq<LeaseEvent>, i: nat, id: nat, cause: Option<StopCause>)
    requires |worlds| == |events| + 1 && i < |worlds|
  {
    exists k :: 0 <= k < i && StopsWith(worlds[k], events[k], id, cause)
  }

  /** One step: a session that is over, or names a cause, was so before or has just been stopped so. */
  lemma StepsStopForACause(w: World, e: LeaseEvent, id: nat)
    requires Enabled(w, e) && id in Step(w, e).sessions
    ensures var s := Step(w, e).sessions[id];
      && (s.phase == Over ==> (id in w.sessions && w.sessions[id].phase == Over) || exists cause :: StopsWith(w, e, id, cause))
      && (s.stopCause.Some? ==> (id in w.sessions && w.sessions[id].stopCause == s.stopCause) || StopsWith(w, e, id, s.stopCause))
  {
    hide ClaimCandidate, HeartbeatLease, Apply;
    var s := Step(w, e).sessions[id];
    if e.ReceiveHeartbeat? && e.session == id && w.sessions[id].phase == Active && !w.sessions[id].request.result.LeaseUpdated? {
      assert StopsWith(w, e, id, Some(if w.sessions[id].request.result.HeartbeatStale? then LeaseLost else CancelRequested));
    }
    if e.WatchdogFires? && e.session == id {
      assert StopsWith(w, e, id, Some(LeaseRenewalUncertain));
    }
    if e.StopSession? && e.session == id {
      assert StopsWith(w, e, id, e.cause);
    }
  }

  /**
   * In every run a session is over only if something stopped it, and names a cause only if that happened to it: a stale
   * answer, a cancellation answered, a due watchdog, or a stop from outside. An updated lease never stops one.
   */
  lemma {:induction false} SessionsStopForACause(worlds: seq<World>, events: seq<LeaseEvent>, i: nat, id: nat)
    requires IsRun(worlds, events) && i < |worlds| && id in worlds[i].sessions
    ensures worlds[i].sessions[id].phase == Over ==> exists cause :: StoppedBefore(worlds, events, i, id, cause)
    ensures worlds[i].sessions[id].stopCause.Some? ==> StoppedBefore(worlds, events, i, id, worlds[i].sessions[id].stopCause)
  {
    hide Step, Enabled, StopsWith, Consistent;
    if i > 0 {
      var w, e := worlds[i - 1], events[i - 1];
      assert worlds[i] == Step(w, e);
      StepsStopForACause(w, e, id);
      if id in w.sessions {
        SessionsStopForACause(worlds, events, i - 1, id);
      }
      forall cause | StopsWith(w, e, id, cause) || StoppedBefore(worlds, events, i - 1, id, cause)
        ensures StoppedBefore(worlds, events, i, id, cause)
      {
        if StopsWith(w, e, id, cause) {
          assert StopsWith(worlds[i - 1], events[i - 1], id, cause);
        }
      }
      if worlds[i].sessions[id].phase == Over {
        if id in w.sessions && w.sessions[id].phase == Over {
          var cause :| StoppedBefore(worlds, events, i - 1, id, cause);
          assert StoppedBefore(worlds, events, i, id, cause);
        } else {
          var cause :| StopsWith(w, e, id, cause);
          assert StoppedBefore(worlds, events, i, id, cause);
        }
      }
    }
  }

  // ---------------------------------------------------------------- at most one execution

  predicate Executes(w: World, id: nat) {
    id in w.sessions && w.sessions[id].phase == Active
  }

  /** Each executing session's watchdog is late by less than the safety margin, or guards a lease capped at the deadline. */
  ghost predicate WatchdogsWithinMargin(w: World) {
    forall id :: Executes(w, id) ==>
      Capped(w.sessions[id]) || w.clock < Cutoff(w.sessions[id]) + w.sessions[id].timing.leaseSafetyMarginMs
  }

  /** No watchdog that is due is still unfired. */
  ghost predicate NoDueWatchdogUnfired(w: World) {
    forall id :: Executes(w, id) ==> w.sessions[id].watchdogDue.Some? && w.clock < w.sessions[id].watchdogDue.value
  }

  /** The only executing session is the one whose generation the row carries. */
  ghost predicate OneExecution(w: World) {
    && (forall id :: Executes(w, id) ==> w.sessions[id].fence.generation == w.rows.run.leaseGeneration)
    && (forall i, j :: Executes(w, i) && Executes(w, j) ==> i == j)
  }

  /** Two workers never both execute the run, even while watchdogs are late by less than the margin. */
  lemma OneHolder(worlds: seq<World>, events: seq<LeaseEvent>, i: nat)
    requires IsRun(worlds, events) && i < |worlds| && WatchdogsWithinMargin(worlds[i])
    ensures OneExecution(worlds[i])
  {
    hide IsRun, Consistent;
    RunsStayOk(worlds, events, i);
    var w := worlds[i];
    forall id | Executes(w, id)
      ensures w.sessions[id].fence.generation == w.rows.run.leaseGeneration
    {
      assert SessionOk(w.rows.run, w.clock, w.sessions[id]);
    }
  }

  /** In particular while every due watchdog has fired. */
  lemma OneHolderWhenWatchdogsFire(worlds: seq<World>, events: seq<LeaseEvent>, i: nat)
    requires IsRun(worlds, events) && i < |worlds| && NoDueWatchdogUnfired(worlds[i])
    ensures OneExecution(worlds[i])
  {
    hide IsRun, Consistent;
    RunsStayOk(worlds, events, i);
    var w := worlds[i];
    forall id | Executes(w, id)
      ensures w.clock < Cutoff(w.sessions[id])
    {
      assert SessionOk(w.rows.run, w.clock, w.sessions[id]);
    }
    OneHolder(worlds, events, i);
  }

  /** A lease capped at the deadline is the last one: whoever claims the run after it expires ends it. */
  lemma CappedLeasesAreLast(worlds: seq<World>, events: seq<LeaseEvent>, i: nat, id: nat, member: bool, stamp: Time)
    requires IsRun(worlds, events) && i < |worlds| && id in worlds[i].sessions && Capped(worlds[i].sessions[id])
    requires Claimable(worlds[i].rows.run, stamp)
    ensures ClaimEnding(worlds[i].rows.run, member, stamp).Some?
  {
    hide IsRun, StepsOk, EvidenceOk, AnswerOk;
    RunsStayOk(worlds, events, i);
    assert SessionOk(worlds[i].rows.run, worlds[i].clock, worlds[i].sessions[id]);
  }

  /** A worker's idea of its lease never exceeds the row's, so the watchdog's cutoff precedes the moment anyone may take over. */
  lemma ConfirmedNeverExceedsDurable(worlds: seq<World>, events: seq<LeaseEvent>, i: nat, id: nat)
    requires IsRun(worlds, events) && i < |worlds| && id in worlds[i].sessions
    requires Holds(worlds[i].rows.run, worlds[i].sessions[id].fence)
    ensures var s, lease := worlds[i].sessions[id], worlds[i].rows.run.leaseExpiresAt;
      lease.Some? && s.confirmed <= lease.value && (if Capped(s) then Cutoff(s) == lease.value else Cutoff(s) < lease.value)
  {
    hide IsRun, StepsOk, EvidenceOk, AnswerOk;
    RunsStayOk(worlds, events, i);
    assert SessionOk(worlds[i].rows.run, worlds[i].clock, worlds[i].sessions[id]);
  }
}
