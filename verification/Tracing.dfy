/** One correlation id per job, from the enqueue to the dead letter queue. */
module Tracing {
  import opened Basics
  import opened IdempotencyStore
  import opened Pipeline
  import opened Attempts
  import opened DeadLetters
  import opened Correlation
  import opened TaskWorker

  ghost predicate ScopesMatch(s: State) {
    forall i | 0 <= i < |s.scopes| ::
      HasTask(s, s.scopes[i].task) && s.scopes[i].correlationId == ScopeOf(JobOf(s, s.scopes[i].task))
  }

  lemma StepKeepsScopes(s: State, e: Event)
    requires Indexed(s) && ScopesMatch(s)
    ensures ScopesMatch(Step(s, e))
  {
    match e
    case OnJob(r, je) =>
      if Move(s, r, je).Some? {
        MoveFits(s, r, je);
        ApplyKeepsScopes(s, Find(s, r).value, Move(s, r, je).value);
      }
    case Enqueue(r, data, retained) =>
      EnqueueAddsOneJob(s, r, data, retained);
      assert AfterEnqueue(s, r, data, retained).scopes == s.scopes;
    case _ =>
      ElsewhereKeepsJobs(s, e);
  }

  lemma ApplyKeepsScopes(s: State, t: TaskId, d: Delta)
    requires Indexed(s) && ScopesMatch(s) && Fits(s, t, d)
    ensures ScopesMatch(Apply(s, t, d))
  {
    var s' := Apply(s, t, d);
    forall i | 0 <= i < |s'.scopes|
      ensures HasTask(s', s'.scopes[i].task) && s'.scopes[i].correlationId == ScopeOf(JobOf(s', s'.scopes[i].task))
    {
      var u := if i < |s.scopes| then s.scopes[i].task else t;
      AfterApply(s, t, d, u);
      assert ScopeOf(d.job) == ScopeOf(JobOf(s, t));
    }
  }

  lemma {:induction false} RunKeepsScopes(start: nat, events: seq<Event>)
    ensures Indexed(Run(Init(start), events)) && ScopesMatch(Run(Init(start), events))
  {
    if events != [] {
      var before := events[..|events| - 1];
      RunKeepsScopes(start, before);
      StepKeepsIndexed(Run(Init(start), before), events[|events| - 1]);
      StepKeepsScopes(Run(Init(start), before), events[|events| - 1]);
    }
  }

  /** The scopes entered for one job. */
  function ScopesFor(scopes: seq<Scope>, t: TaskId): seq<Scope> {
    Keep(scopes, (x: Scope) => x.task == t)
  }

  lemma ScopesForSnoc(scopes: seq<Scope>, x: Scope, t: TaskId)
    ensures ScopesFor(scopes + [x], t) == if x.task == t then ScopesFor(scopes, t) + [x] else ScopesFor(scopes, t)
  {
    KeepSnoc(scopes, x, (x: Scope) => x.task == t);
  }

  /** One scope for each attempt begun and one for each failure handled, at least. */
  function ScopesDue(j: Job): nat {
    2 * j.attemptsMade + (if InHand(j.stage) then 1 else 0)
  }

  ghost predicate ScopesComplete(s: State) {
    forall t | HasTask(s, t) :: |ScopesFor(s.scopes, t)| >= ScopesDue(JobOf(s, t))
  }

  lemma JobStepScopes(j: Job, row: Option<Record>, now: nat, e: JobEvent)
    requires JobStep(j, row, now, e).Some?
    ensures
      var d := JobStep(j, row, now, e).value;
      && (d.scoped <==> e.Start? || e.Fail?)
      && ScopesDue(d.job) <= ScopesDue(j) + (if d.scoped then 1 else 0)
  {
  }

  lemma ApplyKeepsComplete(s: State, t: TaskId, d: Delta)
    requires ScopesComplete(s) && HasTask(s, t)
    requires ScopesDue(d.job) <= ScopesDue(JobOf(s, t)) + (if d.scoped then 1 else 0)
    ensures ScopesComplete(Apply(s, t, d))
  {
    hide ScopesFor, ScopesDue, JobId;
    var s' := Apply(s, t, d);
    forall u | HasTask(s', u)
      ensures |ScopesFor(s'.scopes, u)| >= ScopesDue(JobOf(s', u))
    {
      AfterApply(s, t, d, u);
      ScopesForSnoc(s.scopes, Scope(t, ScopeOf(d.job)), u);
    }
  }

  lemma StepKeepsComplete(s: State, e: Event)
    requires Indexed(s) && ScopesComplete(s)
    ensures ScopesComplete(Step(s, e))
  {
    hide ScopesFor, JobId, JobStep, Apply;
    match e
    case OnJob(r, je) =>
      if Move(s, r, je).Some? {
        MoveFits(s, r, je);
        JobStepScopes(JobOf(s, Find(s, r).value), RecordAt(s.store, r), s.clock, je);
        ApplyKeepsComplete(s, Find(s, r).value, Move(s, r, je).value);
      }
    case Enqueue(r, data, retained) =>
      EnqueueAddsOneJob(s, r, data, retained);
      assert AfterEnqueue(s, r, data, retained).scopes == s.scopes;
    case _ => ElsewhereKeepsJobs(s, e);
  }

  lemma {:induction false} RunKeepsComplete(start: nat, events: seq<Event>)
    ensures ScopesComplete(Run(Init(start), events))
  {
    if events != [] {
      var before := events[..|events| - 1];
      RunKeepsScopes(start, before);
      RunKeepsComplete(start, before);
      StepKeepsComplete(Run(Init(start), before), events[|events| - 1]);
    }
  }

  /** No attempt and no failure handler goes untraced: each has entered a scope, and it is the job's. */
  lemma EveryAttemptIsTraced(s: State, t: TaskId)
    requires Reachable(s) && HasTask(s, t)
    ensures |ScopesFor(s.scopes, t)| >= ScopesDue(JobOf(s, t))
    ensures AlwaysUnder(s, t, ScopeOf(JobOf(s, t)))
  {
    var start, events :| s == Run(Init(start), events);
    RunKeepsComplete(start, events);
    RunKeepsScopes(start, events);
  }

  /** A job's type, key, data and id never change after it was accepted. */
  lemma {:induction false} JobsAreFrozen(s: State, t: TaskId, events: seq<Event>)
    requires Indexed(s) && HasTask(s, t)
    ensures
      var s' := Run(s, events);
      Indexed(s') && HasTask(s', t) && JobOf(s', t).ref == JobOf(s, t).ref && JobOf(s', t).data == JobOf(s, t).data
  {
    if events != [] {
      var before, e := events[..|events| - 1], events[|events| - 1];
      JobsAreFrozen(s, t, before);
      StepKeepsIndexed(Run(s, before), e);
      StepFreezes(Run(s, before), e, t);
    }
  }

  lemma StepFreezes(s: State, e: Event, t: TaskId)
    requires Indexed(s) && HasTask(s, t)
    ensures
      var s' := Step(s, e);
      HasTask(s', t) && JobOf(s', t).ref == JobOf(s, t).ref && JobOf(s', t).data == JobOf(s, t).data
  {
    match e
    case OnJob(r, je) =>
      if Move(s, r, je).Some? {
        MoveFits(s, r, je);
        AfterApply(s, Find(s, r).value, Move(s, r, je).value, t);
      }
    case Enqueue(r, data, retained) => EnqueueAddsOneJob(s, r, data, retained);
    case _ => ElsewhereKeepsJobs(s, e);
  }

  /** The job the next accepted enqueue of this type will create. */
  function NextTask(s: State, t: JobType): TaskId {
    TaskId(t, |s.jobs.Get(t)|)
  }

  /** Every scope ever entered for this job, at an attempt or in a failure handler, had this id. */
  ghost predicate AlwaysUnder(s: State, t: TaskId, correlationId: string) {
    forall i | 0 <= i < |s.scopes| && s.scopes[i].task == t :: s.scopes[i].correlationId == correlationId
  }

  /** The job is still the one that was enqueued, and so is what its dead letter entry says of it. */
  ghost predicate KeepsPayload(s: State, t: TaskId, ref: Ref, data: Data) {
    && HasTask(s, t) && JobOf(s, t).ref == ref && JobOf(s, t).data == data
    && (JobOf(s, t).stage.Dead? && DlqId(JobOf(s, t)) in s.dlq ==> s.dlq[DlqId(JobOf(s, t))].data == data)
  }

  /**
   * The id stamped at the enqueue is the id of every attempt and of every failure
   * handler, whatever happens in between; a job without one falls back on its job id
   * everywhere alike.
   */
  lemma OneIdEndToEnd(start: nat, earlier: seq<Event>, ref: Ref, data: Data, later: seq<Event>)
    requires Find(Run(Init(start), earlier), ref).None?
    ensures
      var s := Run(Init(start), earlier);
      AlwaysUnder(Run(AfterEnqueue(s, ref, data, false), later), NextTask(s, ref.jobName),
        if data.correlationId.Some? then data.correlationId.value else "job-" + JobId(ref))
  {
    PayloadIsPreserved(start, earlier, ref, data, later);
    RunConcat(Init(start), earlier, Enqueue(ref, data, false), later);
    RunKeepsScopes(start, earlier + [Enqueue(ref, data, false)] + later);
  }

  /** The payload, correlation id included, reaches every attempt and the dead letter entry as it was enqueued. */
  lemma PayloadIsPreserved(start: nat, earlier: seq<Event>, ref: Ref, data: Data, later: seq<Event>)
    requires Find(Run(Init(start), earlier), ref).None?
    ensures
      var s := Run(Init(start), earlier);
      KeepsPayload(Run(AfterEnqueue(s, ref, data, false), later), NextTask(s, ref.jobName), ref, data)
  {
    hide JobId, DlqId, AfterEnqueue;
    var s := Run(Init(start), earlier);
    var e := Enqueue(ref, data, false);
    var t := NextTask(s, ref.jobName);
    RunKeepsScopes(start, earlier);
    EnqueueIsAccepted(s, ref, data);
    StepKeepsIndexed(s, e);
    JobsAreFrozen(Step(s, e), t, later);
    RunConcat(Init(start), earlier, e, later);
    var s' := Run(Init(start), earlier + [e] + later);
    if JobOf(s', t).stage.Dead? && DlqId(JobOf(s', t)) in s'.dlq {
      DeadJobsAreConserved(s');
    }
  }

  /**
   * From header to dead letter: whatever a request's header said, the id settled for it
   * is well-formed, is the scope of every attempt and failure handler of the job that
   * the request enqueued, and stands in the job's dead letter entry.
   */
  lemma HeaderToDeadLetter(
    start: nat, earlier: seq<Event>, ref: Ref, fields: string, header: Option<string>, uuid: string, later: seq<Event>)
    requires IsId(uuid) && Find(Run(Init(start), earlier), ref).None?
    ensures
      var id := Intake(header, uuid);
      var s := Run(Init(start), earlier);
      var t := NextTask(s, ref.jobName);
      var s' := Run(AfterEnqueue(s, ref, Stamped(fields, Some(id)), false), later);
      && IsId(id)
      && (header.Some? && IsId(header.value) ==> id == header.value)
      && (header.None? ==> id == uuid)
      && AlwaysUnder(s', t, id)
      && KeepsPayload(s', t, ref, Data(fields, Some(id)))
  {
    hide Run, AfterEnqueue, AlwaysUnder, KeepsPayload;
    IntakeIsId(header, uuid);
    IntakeHonoursHeader(header, uuid);
    var data := Stamped(fields, Some(Intake(header, uuid)));
    OneIdEndToEnd(start, earlier, ref, data, later);
    PayloadIsPreserved(start, earlier, ref, data, later);
  }

  lemma EnqueueIsAccepted(s: State, ref: Ref, data: Data)
    requires Indexed(s) && Find(s, ref).None?
    ensures
      var s' := AfterEnqueue(s, ref, data, false);
      var t := TaskId(ref.jobName, |s.jobs.Get(ref.jobName)|);
      HasTask(s', t) && JobOf(s', t).ref == ref && JobOf(s', t).data == data
  {
  }

  lemma RunConcat(s: State, earlier: seq<Event>, e: Event, later: seq<Event>)
    ensures Run(s, earlier + [e] + later) == Run(Step(Run(s, earlier), e), later)
  {
    RunAppend(s, earlier + [e], later);
    assert (earlier + [e])[..|earlier|] == earlier;
  }
}
