/** The arXiv request scheduler (server/integrations/arxiv/scheduler.ts). */
module ArxivScheduler {
  import opened Common

  type Time = int

  /** id is the job's place among all accepted jobs. */
  datatype Job = Job(id: nat, notBefore: Time)

  /** Where the one drain in progress is suspended, if anywhere. */
  datatype Drain = Idle | Sleeping(job: Job, until: Time) | Running(job: Job)

  datatype Start = Start(job: Job, at: Time)

  datatype Settlement = Resolved(id: nat) | Rejected(id: nat)

  predicate ValidBounds(minimumSpacingMs: int, maxPending: int) {
    minimumSpacingMs >= 0 && maxPending >= 1
  }

  function JobsOf(starts: seq<Start>): (r: seq<Job>)
    ensures |r| == |starts| && forall i :: 0 <= i < |r| ==> r[i] == starts[i].job
  {
    seq(|starts|, i requires 0 <= i < |starts| => starts[i].job)
  }

  function IdsOf(settled: seq<Settlement>): (r: seq<nat>)
    ensures |r| == |settled| && forall i :: 0 <= i < |r| ==> r[i] == settled[i].id
  {
    seq(|settled|, i requires 0 <= i < |settled| => settled[i].id)
  }

  predicate Numbered(jobs: seq<Job>) {
    forall i :: 0 <= i < |jobs| ==> jobs[i].id == i
  }

  /** No start before its job's own time, nor within the spacing of the start before it. */
  predicate WellSpaced(starts: seq<Start>, spacing: int) {
    && (forall i :: 0 <= i < |starts| ==> starts[i].at >= starts[i].job.notBefore)
    && (forall i :: 0 < i < |starts| ==> starts[i].at >= starts[i - 1].at + spacing)
  }

  /** Hence any two starts are as far apart as all the spacings between them. */
  lemma {:induction false} StartsAreApart(starts: seq<Start>, spacing: int, i: nat, j: nat)
    requires WellSpaced(starts, spacing) && i <= j < |starts|
    ensures starts[j].at >= starts[i].at + (j - i) * spacing
  {
    if i < j {
      StartsAreApart(starts, spacing, i, j - 1);
      assert (j - 1 - i) * spacing + spacing == (j - i) * spacing;
    }
  }

  class Scheduler {
    const minimumSpacingMs: int
    const maxPending: int
    var queue: seq<Job>
    var active: bool
    var lastStartedAt: Option<Time>
    var drain: Drain
    /** Names the promise of the next accepted job. */
    var nextId: nat
    ghost var clock: Time
    ghost var accepted: seq<Job>
    ghost var started: seq<Start>
    ghost var settled: seq<Settlement>

    /** The jobs a drain has taken from the queue and not yet started. */
    ghost function Taken(): seq<Job>
      reads this
    {
      if drain.Sleeping? then [drain.job] else []
    }

    /** Everything but that an idle scheduler has an empty queue, which the next drain restores. */
    ghost predicate Consistent()
      reads this
    {
      && ValidBounds(minimumSpacingMs, maxPending)
      && (active <==> !drain.Idle?)
      && nextId == |accepted|
      && |queue| <= maxPending
      // first in, first out, and nothing lost: what was accepted has started, is about to, or waits, in that order
      && accepted == JobsOf(started) + Taken() + queue && Numbered(accepted)
      && WellSpaced(started, minimumSpacingMs)
      && (forall i :: 0 <= i < |started| ==> started[i].at <= clock)
      && lastStartedAt == (if started == [] then None else Some(started[|started| - 1].at))
      // every started job but the running one has been settled, once, in order
      && |settled| == |started| - (if drain.Running? then 1 else 0)
      && (forall i :: 0 <= i < |settled| ==> settled[i].id == i)
      && (drain.Running? ==> started != [] && started[|started| - 1].job == drain.job)
      // a sleep lasts until the earliest start and no longer
      && (drain.Sleeping? ==> drain.until == EarliestStart(drain.job))
    }

    ghost predicate Valid()
      reads this
    {
      Consistent() && (!active ==> queue == [])
    }

    function EarliestStart(job: Job): Time
      reads this`lastStartedAt
    {
      Max(if lastStartedAt.None? then 0 else lastStartedAt.value + minimumSpacingMs, job.notBefore)
    }

    /** The earliest start is the first time that is neither before the job's own nor within the spacing of the last start. */
    lemma EarliestStartMeans(job: Job, t: Time)
      ensures t >= EarliestStart(job) <==>
        t >= job.notBefore && t >= if lastStartedAt.Some? then lastStartedAt.value + minimumSpacingMs else 0
    {
    }

    constructor (minimumSpacingMs: int, maxPending: int)
      requires ValidBounds(minimumSpacingMs, maxPending)
      ensures Valid() && !active && accepted == []
      ensures this.minimumSpacingMs == minimumSpacingMs && this.maxPending == maxPending
    {
      this.minimumSpacingMs, this.maxPending := minimumSpacingMs, maxPending;
      queue, active, lastStartedAt, drain := [], false, None, Idle;
      nextId := 0;
      clock, accepted, started, settled := 0, [], [], [];
    }

    /** Rejected at once exactly when a drain is active and the queue is full. */
    method Schedule(notBefore: Time, now: Time) returns (id: Option<nat>)
      requires Valid() && now >= clock
      modifies this
      ensures Valid() && clock == now
      ensures id.None? <==> old(active) && |old(queue)| >= maxPending
      ensures id.None? ==> accepted == old(accepted) && queue == old(queue) && started == old(started) && drain == old(drain)
      ensures id.Some? ==> id.value == |old(accepted)| && accepted == old(accepted) + [Job(id.value, notBefore)]
      ensures settled == old(settled) && old(started) <= started
    {
      hide WellSpaced;
      clock := now;
      if active && |queue| >= maxPending {
        return None;
      }
      var job := Job(nextId, notBefore);
      nextId := nextId + 1;
      queue := queue + [job];
      accepted := accepted + [job];
      assert accepted == JobsOf(started) + Taken() + queue;
      id := Some(job.id);
      StartDrain(now);
    }

    /** drain, up to its first await: takes the next job and either sleeps or starts it. */
    method StartDrain(now: Time)
      requires Consistent()
      requires now == clock
      modifies this`queue, this`active, this`drain, this`lastStartedAt, this`started
      ensures Valid() && old(started) <= started
      ensures old(active) ==> queue == old(queue) && drain == old(drain) && started == old(started)
      ensures !old(active) && old(queue) != [] ==>
        && active && queue == old(queue)[1..]
        && var job := old(queue)[0];
           if now < old(EarliestStart(job)) then drain == Sleeping(job, old(EarliestStart(job))) && started == old(started)
           else drain == Running(job) && started == old(started) + [Start(job, now)]
    {
      hide WellSpaced;
      if active || queue == [] {
        return;
      }
      var job := queue[0];
      assert JobsOf(started) + Taken() + queue == JobsOf(started) + [job] + queue[1..];
      queue := queue[1..];
      active := true;
      var delay := Max(0, EarliestStart(job) - now);
      if delay > 0 {
        drain := Sleeping(job, now + delay);
      } else {
        StartTask(job, now);
      }
    }

    method StartTask(job: Job, now: Time)
      requires ValidBounds(minimumSpacingMs, maxPending) && active && !drain.Running? && |queue| <= maxPending
      requires accepted == JobsOf(started) + [job] + queue && Numbered(accepted)
      requires WellSpaced(started, minimumSpacingMs) && forall i :: 0 <= i < |started| ==> started[i].at <= clock
      requires lastStartedAt == if started == [] then None else Some(started[|started| - 1].at)
      requires nextId == |accepted|
      requires |settled| == |started| && forall i :: 0 <= i < |settled| ==> settled[i].id == i
      requires now == clock && now >= EarliestStart(job)
      modifies this`drain, this`lastStartedAt, this`started
      ensures Valid() && drain == Running(job) && started == old(started) + [Start(job, now)]
    {
      lastStartedAt := Some(now);
      started := started + [Start(job, now)];
      drain := Running(job);
      assert JobsOf(started) == JobsOf(old(started)) + [job];
    }

    /** The sleep is over; it never ends early. */
    method SleepEnds(now: Time)
      requires Valid() && drain.Sleeping? && now >= clock && now >= drain.until
      modifies this`drain, this`lastStartedAt, this`started, this`clock
      ensures Valid() && clock == now && drain == Running(old(drain).job) && started == old(started) + [Start(old(drain).job, now)]
    {
      clock := now;
      StartTask(drain.job, now);
    }

    /** The task has returned or thrown: its promise is settled, and the next drain begins. */
    method TaskEnds(returned: bool, now: Time)
      requires Valid() && drain.Running? && now >= clock
      modifies this
      ensures Valid() && clock == now && accepted == old(accepted) && old(started) <= started
      ensures settled == old(settled) + [if returned then Resolved(old(drain).job.id) else Rejected(old(drain).job.id)]
      ensures old(queue) != [] ==> active
    {
      hide WellSpaced;
      clock := now;
      assert accepted[|started| - 1] == JobsOf(started)[|started| - 1];
      settled := settled + [if returned then Resolved(drain.job.id) else Rejected(drain.job.id)];
      drain := Idle;
      active := false;
      StartDrain(now);
    }

    /** Once the scheduler is idle, every accepted job has been started and settled, in order, exactly once. */
    ghost method IdleMeansDone()
      requires Valid() && !active
      ensures queue == [] && JobsOf(started) == accepted
      ensures |settled| == |accepted| && IdsOf(settled) == seq(|accepted|, i => i)
    {
      assert JobsOf(started) + [] + [] == JobsOf(started);
    }
  }
}
