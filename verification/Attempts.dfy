/**
 * Counting attempts, and why every job ends: what the failure counter means, when a
 * failure is recorded, and a measure that every event but a crash brings down.
 */
module Attempts {
  import opened Basics
  import opened IdempotencyStore
  import opened Pipeline

  predicate CountedRight(j: Job) {
    if j.stage.Dead? then j.attemptsMade == ATTEMPTS else j.attemptsMade < ATTEMPTS
  }

  ghost predicate AllCountedRight(s: State) {
    forall t | HasTask(s, t) :: CountedRight(JobOf(s, t))
  }

  function Attempted(jobs: seq<Job>): nat {
    if jobs == [] then 0 else Attempted(jobs[..|jobs| - 1]) + jobs[|jobs| - 1].attemptsMade
  }

  function AllAttempted(jobs: PerType<seq<Job>>): nat {
    Attempted(jobs.email) + Attempted(jobs.webhook)
  }

  ghost predicate HasDeadJob(s: State, ref: Ref) {
    exists t :: HasTask(s, t) && JobOf(s, t).ref == ref && JobOf(s, t).stage.Dead?
  }

  ghost predicate FailuresAreTerminal(s: State) {
    forall ref | ref in s.store && s.store[ref].status == FAILED :: HasDeadJob(s, ref)
  }

  ghost predicate Accounts(s: State) {
    && AllCountedRight(s)
    && s.failedTotal == AllAttempted(s.jobs)
    && FailuresAreTerminal(s)
  }

  lemma JobStepCounts(j: Job, row: Option<Record>, now: nat, e: JobEvent)
    requires j.Live() && CountedRight(j) && JobStep(j, row, now, e).Some?
    ensures
      var d := JobStep(j, row, now, e).value;
      && CountedRight(d.job)
      && d.job.attemptsMade == j.attemptsMade + (if d.failed then 1 else 0)
      && (d.write.Some? && d.write.value.status == FAILED ==> d.job.stage.Dead?)
  {
  }

  lemma {:induction false} AttemptedUpdate(jobs: seq<Job>, i: nat, j: Job)
    requires i < |jobs|
    ensures Attempted(jobs[i := j]) == Attempted(jobs) - jobs[i].attemptsMade + j.attemptsMade
  {
    var n := |jobs| - 1;
    if i == n {
      assert jobs[i := j][..n] == jobs[..n];
    } else {
      assert jobs[i := j][..n] == jobs[..n][i := j];
      AttemptedUpdate(jobs[..n], i, j);
    }
  }

  lemma AttemptedSnoc(jobs: seq<Job>, j: Job)
    ensures Attempted(jobs + [j]) == Attempted(jobs) + j.attemptsMade
  {
    assert (jobs + [j])[..|jobs|] == jobs;
  }

  lemma ApplyKeepsAccounts(s: State, t: TaskId, d: Delta)
    requires Accounts(s) && Fits(s, t, d)
    requires CountedRight(d.job) && d.job.attemptsMade == JobOf(s, t).attemptsMade + (if d.failed then 1 else 0)
    requires d.write.Some? && d.write.value.status == FAILED ==> d.job.stage.Dead?
    ensures Accounts(Apply(s, t, d))
  {
    var s' := Apply(s, t, d);
    AttemptedUpdate(s.jobs.Get(t.jobType), t.serial, d.job);
    forall u | HasTask(s', u)
      ensures CountedRight(JobOf(s', u))
    {
      AfterApply(s, t, d, u);
    }
    forall ref | ref in s'.store && s'.store[ref].status == FAILED
      ensures HasDeadJob(s', ref)
    {
      AfterApply(s, t, d, t);
      if !(d.write.Some? && ref == d.job.ref) {
        var u :| HasTask(s, u) && JobOf(s, u).ref == ref && JobOf(s, u).stage.Dead?;
        AfterApply(s, t, d, u);
      }
    }
  }

  lemma MoveKeepsAccounts(s: State, ref: Ref, e: JobEvent)
    requires Indexed(s) && Accounts(s)
    ensures Accounts(AfterJob(s, ref, e))
  {
    hide JobStep, JobId, Apply, Attempted, FailuresAreTerminal;
    if Move(s, ref, e).Some? {
      MoveFits(s, ref, e);
      var j := JobOf(s, Find(s, ref).value);
      assert CountedRight(j);
      JobStepCounts(j, RecordAt(s.store, ref), s.clock, e);
      ApplyKeepsAccounts(s, Find(s, ref).value, Move(s, ref, e).value);
    }
  }

  lemma EnqueueKeepsAccounts(s: State, ref: Ref, data: Data, retained: bool)
    requires Indexed(s) && Accounts(s)
    ensures Accounts(AfterEnqueue(s, ref, data, retained))
  {
    hide JobId, Indexed, FailuresAreTerminal, Attempted;
    EnqueueAddsOneJob(s, ref, data, retained);
    AttemptedSnoc(s.jobs.Get(ref.jobName), Job(ref, data, s.clock, 0, s.clock, Waiting));
    DeadJobsStay(s, AfterEnqueue(s, ref, data, retained));
  }

  lemma StepKeepsAccounts(s: State, e: Event)
    requires Indexed(s) && Accounts(s)
    ensures Accounts(Step(s, e))
  {
    hide AfterJob, AfterEnqueue, JobId, FailuresAreTerminal, Attempted, Indexed;
    match e
    case OnJob(r, je) => MoveKeepsAccounts(s, r, je);
    case Enqueue(r, data, retained) => EnqueueKeepsAccounts(s, r, data, retained);
    case _ =>
      ElsewhereKeepsJobs(s, e);
      DeadJobsStay(s, Step(s, e));
  }

  lemma DeadJobsStay(s: State, s': State)
    requires FailuresAreTerminal(s) && s'.store == s.store
    requires forall t | HasTask(s, t) :: HasTask(s', t) && JobOf(s', t) == JobOf(s, t)
    ensures FailuresAreTerminal(s')
  {
    forall ref | ref in s'.store && s'.store[ref].status == FAILED
      ensures HasDeadJob(s', ref)
    {
      assert HasDeadJob(s, ref);
    }
  }

  lemma {:induction false} RunKeepsAccounts(start: nat, events: seq<Event>)
    ensures Indexed(Run(Init(start), events)) && Accounts(Run(Init(start), events))
  {
    if events != [] {
      var before := events[..|events| - 1];
      RunKeepsAccounts(start, before);
      StepKeepsIndexed(Run(Init(start), before), events[|events| - 1]);
      StepKeepsAccounts(Run(Init(start), before), events[|events| - 1]);
    }
  }

  /**
   * The failure counter is the number of failed attempts over all jobs, ever; a dead
   * job contributes exactly three and no other job reaches three; and a FAILED row
   * means a job of that type and key really used them up.
   */
  lemma FailureCounterCountsAttempts(s: State)
    requires Reachable(s)
    ensures s.failedTotal == AllAttempted(s.jobs)
    ensures forall t | HasTask(s, t) :: JobOf(s, t).attemptsMade <= ATTEMPTS
    ensures forall t | HasTask(s, t) :: JobOf(s, t).attemptsMade == ATTEMPTS <==> JobOf(s, t).stage.Dead?
    ensures forall ref | ref in s.store && s.store[ref].status == FAILED :: HasDeadJob(s, ref)
  {
    var start, events :| s == Run(Init(start), events);
    RunKeepsAccounts(start, events);
    forall t | HasTask(s, t)
      ensures JobOf(s, t).attemptsMade <= ATTEMPTS
      ensures JobOf(s, t).attemptsMade == ATTEMPTS <==> JobOf(s, t).stage.Dead?
    {
      assert CountedRight(JobOf(s, t));
    }
  }

  // ----- Waiting between attempts -----

  function Pow2(n: nat): nat {
    if n == 0 then 1 else 2 * Pow2(n - 1)
  }

  lemma {:induction false} BackoffDoubles(attemptsMade: nat)
    requires attemptsMade > 0
    ensures Backoff(attemptsMade) == BACKOFF_MS * Pow2(attemptsMade - 1)
  {
    if attemptsMade > 1 {
      BackoffDoubles(attemptsMade - 1);
    }
  }

  /**
   * A job waits twice at most: one second after its first failed attempt and two after
   * its second. The third failure is its last; it waits for nothing.
   */
  lemma WaitsBetweenAttempts(s: State, ref: Ref, recorded: bool)
    requires Reachable(s) && Move(s, ref, Fail(recorded)).Some?
    ensures
      var j := JobOf(s, Find(s, ref).value);
      var j' := Move(s, ref, Fail(recorded)).value.job;
      && j'.attemptsMade == j.attemptsMade + 1 <= 3
      && (j'.stage.Dead? <==> j'.attemptsMade == 3)
      && (j'.attemptsMade == 1 ==> j'.stage.Waiting? && j'.readyAt == s.clock + 1000)
      && (j'.attemptsMade == 2 ==> j'.stage.Waiting? && j'.readyAt == s.clock + 2000)
  {
    var start, events :| s == Run(Init(start), events);
    RunKeepsAccounts(start, events);
    assert CountedRight(JobOf(s, Find(s, ref).value));
    BackoffDoubles(1);
    BackoffDoubles(2);
  }

  // ----- Termination -----

  function StageRank(stage: Stage): nat {
    match stage
    case Waiting => 6
    case Checking => 5
    case Acting => 4
    case Acted(_) => 3
    case Throwing(_) => 2
    case Returning(_) => 1
    case Finished(_) => 0
    case Dead(_, _) => 0
  }

  /** What is left to do, at most; zero once the job is finished or dead. */
  function Left(j: Job): nat {
    if !j.Live() || j.attemptsMade >= ATTEMPTS then 0 else (ATTEMPTS - 1 - j.attemptsMade) * 7 + StageRank(j.stage)
  }

  lemma JobStepProgresses(j: Job, row: Option<Record>, now: nat, e: JobEvent)
    requires j.Live() && CountedRight(j) && JobStep(j, row, now, e).Some? && !e.Crash?
    ensures Left(JobStep(j, row, now, e).value.job) < Left(j)
  {
  }

  /** The event a live job is waiting for, when nothing goes wrong. */
  function Next(j: Job): JobEvent {
    match j.stage
    case Waiting => Start
    case Checking => Check
    case Acting => Act(Done(""))
    case Acted(_) => Commit(None, 0)
    case Returning(_) => Acknowledge
    case _ => Fail(true)
  }

  /** A live job is never stuck: once any backoff is over, its next event can happen. */
  lemma LiveJobCanMove(s: State, ref: Ref)
    requires Reachable(s) && Find(s, ref).Some?
    requires JobOf(s, Find(s, ref).value).readyAt <= s.clock
    ensures Move(s, ref, Next(JobOf(s, Find(s, ref).value))).Some?
  {
    var start, events :| s == Run(Init(start), events);
    RunKeepsAccounts(start, events);
  }

  predicate Crashes(e: Event, ref: Ref) {
    e.OnJob? && e.ref == ref && e.event.Crash?
  }

  /** How many events of a run happen to this job. */
  function Moves(s: State, t: TaskId, events: seq<Event>): nat
    requires HasTask(s, t)
  {
    if events == [] then 0
    else
      var before := Run(s, events[..|events| - 1]);
      var e := events[|events| - 1];
      Moves(s, t, events[..|events| - 1])
      + (if e.OnJob? && Find(before, e.ref) == Some(t) && Move(before, e.ref, e.event).Some? then 1 else 0)
  }

  lemma StepMovesOneJob(s: State, e: Event, t: TaskId)
    requires Indexed(s) && Accounts(s) && HasTask(s, t) && !Crashes(e, JobOf(s, t).ref)
    ensures
      var s' := Step(s, e);
      && HasTask(s', t) && JobOf(s', t).ref == JobOf(s, t).ref
      && if e.OnJob? && Find(s, e.ref) == Some(t) && Move(s, e.ref, e.event).Some?
         then Left(JobOf(s', t)) < Left(JobOf(s, t))
         else JobOf(s', t) == JobOf(s, t)
  {
    match e
    case OnJob(r, je) =>
      if Move(s, r, je).Some? {
        MoveFits(s, r, je);
        var u := Find(s, r).value;
        AfterApply(s, u, Move(s, r, je).value, t);
        if u == t {
          assert CountedRight(JobOf(s, t));
          JobStepProgresses(JobOf(s, t), RecordAt(s.store, r), s.clock, je);
        }
      }
    case Enqueue(r, data, retained) => EnqueueAddsOneJob(s, r, data, retained);
    case _ => ElsewhereKeepsJobs(s, e);
  }

  lemma LeftIsMeaningful(s: State, t: TaskId)
    requires Accounts(s) && HasTask(s, t)
    ensures Left(JobOf(s, t)) <= 20
    ensures Left(JobOf(s, t)) == 0 <==> !JobOf(s, t).Live()
  {
    assert CountedRight(JobOf(s, t));
  }

  /**
   * In any continuation in which the job's worker does not crash, at most Left events
   * happen to it; a job at its first attempt is finished or dead after at most twenty.
   */
  lemma {:induction false} JobsEnd(s: State, t: TaskId, events: seq<Event>)
    requires Indexed(s) && Accounts(s) && HasTask(s, t)
    requires forall e | e in events :: !Crashes(e, JobOf(s, t).ref)
    ensures
      var s' := Run(s, events);
      && Indexed(s') && Accounts(s') && HasTask(s', t) && JobOf(s', t).ref == JobOf(s, t).ref
      && Moves(s, t, events) + Left(JobOf(s', t)) <= Left(JobOf(s, t)) <= 20
      && (Left(JobOf(s', t)) == 0 <==> !JobOf(s', t).Live())
  {
    hide Step, Left, Accounts, Indexed;
    LeftIsMeaningful(s, t);
    if events != [] {
      var before := events[..|events| - 1];
      JobsEnd(s, t, before);
      var mid := Run(s, before);
      var e := events[|events| - 1];
      assert e in events;
      StepMovesOneJob(mid, e, t);
      StepKeepsIndexed(mid, e);
      StepKeepsAccounts(mid, e);
      LeftIsMeaningful(Step(mid, e), t);
    }
  }

  // ----- Pending work -----

  lemma LiveAfterEnqueue(s: State, ref: Ref, data: Data, retained: bool)
    requires Indexed(s)
    ensures |AfterEnqueue(s, ref, data, retained).live|
         == |s.live| + (if Find(s, ref).None? && !retained then 1 else 0)
  {
    hide JobId;
    assert Find(s, ref).None? <==> JobId(ref) !in s.live;
  }

  lemma LiveAfterApply(s: State, t: TaskId, d: Delta)
    requires Indexed(s) && Fits(s, t, d)
    ensures |Apply(s, t, d).live| == |s.live| - (if d.job.Live() then 0 else 1)
  {
    var s' := Apply(s, t, d);
    assert JobId(d.job.ref) in s.live;
    assert s'.live.Keys == if d.job.Live() then s.live.Keys else s.live.Keys - {JobId(d.job.ref)};
    assert |s.live| == |s.live.Keys| && |s'.live| == |s'.live.Keys|;
  }

  /** What the depth check counts, waiting, active and delayed jobs, moves by one at a time. */
  lemma PendingFollowsEvents(s: State, e: Event)
    requires Reachable(s)
    ensures
      var s' := Step(s, e);
      match e
      case Enqueue(ref, _, retained) => |s'.live| == |s.live| + (if Find(s, ref).None? && !retained then 1 else 0)
      case OnJob(ref, je) =>
        |s'.live| == |s.live| - (if Move(s, ref, je).Some? && !Move(s, ref, je).value.job.Live() then 1 else 0)
      case _ => |s'.live| == |s.live|
  {
    hide JobId, JobStep, Indexed, Accounts;
    var start, events :| s == Run(Init(start), events);
    RunKeepsAccounts(start, events);
    match e
    case OnJob(ref, je) =>
      if Move(s, ref, je).Some? {
        MoveFits(s, ref, je);
        LiveAfterApply(s, Find(s, ref).value, Move(s, ref, je).value);
      }
    case Enqueue(ref, data, retained) => LiveAfterEnqueue(s, ref, data, retained);
    case _ => ElsewhereKeepsJobs(s, e);
  }
}
