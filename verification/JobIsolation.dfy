/**
 * Job types do not see each other: erase everything that happens to one type and the
 * other's jobs, rows, effects and results come out the same, even where clients chose
 * the same idempotency keys for both.
 */
module JobIsolation {
  import opened Basics
  import opened IdempotencyStore
  import opened Pipeline
  import opened DeadLetters

  /** Events that are not about the other job type. */
  predicate Concerns(e: Event, t: JobType) {
    match e
    case Enqueue(ref, _, _) => ref.jobName == t
    case OnJob(ref, _) => ref.jobName == t
    case DlqLands(task) => task.jobType == t
    case DlqReturns(task) => task.jobType == t
    case DlqFails(task) => task.jobType == t
    case _ => true
  }

  function EventsOf(events: seq<Event>, t: JobType): seq<Event> {
    Keep(events, (e: Event) => Concerns(e, t))
  }

  function EffectsOf(effects: seq<Effect>, t: JobType): seq<Effect> {
    Keep(effects, (x: Effect) => x.ref.jobName == t)
  }

  function ResultsOf(results: seq<ExecutionResult>, t: JobType): seq<ExecutionResult> {
    Keep(results, (r: ExecutionResult) => r.ref.jobName == t)
  }

  /** Two states that cannot be told apart by looking at jobs of type t. */
  ghost predicate AgreeOn(s: State, s': State, t: JobType) {
    && s.clock == s'.clock
    && s.jobs.Get(t) == s'.jobs.Get(t)
    && (forall ref: Ref | ref.jobName == t :: RecordAt(s.store, ref) == RecordAt(s'.store, ref))
    && (forall ref: Ref | ref.jobName == t :: Find(s, ref) == Find(s', ref))
    && EffectsOf(s.effects, t) == EffectsOf(s'.effects, t)
    && ResultsOf(s.results, t) == ResultsOf(s'.results, t)
  }

  lemma EffectsOfSnoc(effects: seq<Effect>, x: Effect, t: JobType)
    ensures EffectsOf(effects + [x], t)
         == if x.ref.jobName == t then EffectsOf(effects, t) + [x] else EffectsOf(effects, t)
  {
    KeepSnoc(effects, x, (x: Effect) => x.ref.jobName == t);
  }

  lemma ResultsOfSnoc(results: seq<ExecutionResult>, r: ExecutionResult, t: JobType)
    ensures ResultsOf(results + [r], t)
         == if r.ref.jobName == t then ResultsOf(results, t) + [r] else ResultsOf(results, t)
  {
    KeepSnoc(results, r, (r: ExecutionResult) => r.ref.jobName == t);
  }

  /** What an applied delta adds to the histories of type t. */
  lemma HistoriesAfterApply(s: State, u: TaskId, d: Delta, t: JobType)
    requires HasTask(s, u) && (d.result.Some? ==> d.result.value.ref == d.job.ref)
    ensures EffectsOf(Apply(s, u, d).effects, t)
         == if d.job.ref.jobName == t && d.effect.Some?
            then EffectsOf(s.effects, t) + [Effect(d.job.ref, d.effect.value)]
            else EffectsOf(s.effects, t)
    ensures ResultsOf(Apply(s, u, d).results, t)
         == if d.job.ref.jobName == t && d.result.Some? then ResultsOf(s.results, t) + [d.result.value]
            else ResultsOf(s.results, t)
  {
    if d.effect.Some? {
      EffectsOfSnoc(s.effects, Effect(d.job.ref, d.effect.value), t);
    }
    if d.result.Some? {
      ResultsOfSnoc(s.results, d.result.value, t);
    }
  }

  lemma FindAfterApply(s: State, u: TaskId, d: Delta, ref: Ref)
    requires Indexed(s) && Fits(s, u, d)
    ensures Find(Apply(s, u, d), ref) == if ref == d.job.ref && !d.job.Live() then None else Find(s, ref)
  {
    JobIdIsInjective(ref, d.job.ref);
    if Find(s, ref).Some? {
      AfterApply(s, u, d, Find(s, ref).value);
    }
  }

  lemma ResultIsForTheJob(j: Job, row: Option<Record>, now: nat, e: JobEvent)
    requires JobStep(j, row, now, e).Some?
    ensures var d := JobStep(j, row, now, e).value; d.result.Some? ==> d.result.value.ref == j.ref
  {
  }

  /** The other type's job events change nothing that type t can see. */
  lemma OthersAreInvisible(s: State, u: TaskId, d: Delta, t: JobType)
    requires Indexed(s) && Fits(s, u, d) && d.job.ref.jobName != t
    requires d.result.Some? ==> d.result.value.ref == d.job.ref
    ensures AgreeOn(Apply(s, u, d), s, t)
  {
    HistoriesAfterApply(s, u, d, t);
    forall ref: Ref | ref.jobName == t
      ensures Find(Apply(s, u, d), ref) == Find(s, ref)
    {
      FindAfterApply(s, u, d, ref);
    }
  }

  lemma OwnMovesAgree(s: State, s': State, ref: Ref, e: JobEvent)
    requires Indexed(s) && Indexed(s') && AgreeOn(s, s', ref.jobName)
    ensures AgreeOn(AfterJob(s, ref, e), AfterJob(s', ref, e), ref.jobName)
  {
    if Find(s, ref).Some? {
      var u := Find(s, ref).value;
      JobIdIsInjective(ref, JobOf(s, u).ref);
      JobIdIsInjective(ref, JobOf(s', u).ref);
      assert JobOf(s, u) == JobOf(s', u);
      assert Move(s, ref, e) == Move(s', ref, e);
      if Move(s, ref, e).Some? {
        MoveFits(s, ref, e);
        MoveFits(s', ref, e);
        ResultIsForTheJob(JobOf(s, u), RecordAt(s.store, ref), s.clock, e);
        OwnDeltaAgrees(s, s', u, Move(s, ref, e).value);
      }
    }
  }

  lemma OwnDeltaAgrees(s: State, s': State, u: TaskId, d: Delta)
    requires Indexed(s) && Indexed(s') && Fits(s, u, d) && Fits(s', u, d) && AgreeOn(s, s', d.job.ref.jobName)
    requires d.result.Some? ==> d.result.value.ref == d.job.ref
    ensures AgreeOn(Apply(s, u, d), Apply(s', u, d), d.job.ref.jobName)
  {
    hide JobId, EffectsOf, ResultsOf, Indexed;
    var t := d.job.ref.jobName;
    HistoriesAfterApply(s, u, d, t);
    HistoriesAfterApply(s', u, d, t);
    forall ref: Ref | ref.jobName == t
      ensures Find(Apply(s, u, d), ref) == Find(Apply(s', u, d), ref)
    {
      FindAfterApply(s, u, d, ref);
      FindAfterApply(s', u, d, ref);
    }
  }

  lemma FindAfterEnqueue(s: State, e: Event, ref: Ref)
    requires Indexed(s) && e.Enqueue?
    ensures Find(AfterEnqueue(s, e.ref, e.data, e.retained), ref)
         == if ref == e.ref && Find(s, ref).None? && !e.retained
            then Some(TaskId(ref.jobName, |s.jobs.Get(ref.jobName)|)) else Find(s, ref)
  {
    JobIdIsInjective(ref, e.ref);
  }

  lemma EnqueueAgrees(s: State, s': State, e: Event, t: JobType)
    requires Indexed(s) && Indexed(s') && AgreeOn(s, s', t) && e.Enqueue?
    ensures AgreeOn(AfterEnqueue(s, e.ref, e.data, e.retained),
                    if e.ref.jobName == t then AfterEnqueue(s', e.ref, e.data, e.retained) else s', t)
  {
    assert Find(s, e.ref).Some? <==> JobId(e.ref) in s.live;
    assert Find(s', e.ref).Some? <==> JobId(e.ref) in s'.live;
    forall ref: Ref | ref.jobName == t
      ensures Find(AfterEnqueue(s, e.ref, e.data, e.retained), ref)
           == Find(if e.ref.jobName == t then AfterEnqueue(s', e.ref, e.data, e.retained) else s', ref)
    {
      FindAfterEnqueue(s, e, ref);
      FindAfterEnqueue(s', e, ref);
    }
  }

  lemma ElsewhereAgrees(s: State, s': State, e: Event, t: JobType)
    requires AgreeOn(s, s', t) && !e.OnJob? && !e.Enqueue?
    ensures AgreeOn(Step(s, e), if Concerns(e, t) then Step(s', e) else s', t)
  {
    hide Step;
    ElsewhereKeepsJobs(s, e);
    ElsewhereKeepsJobs(s', e);
    ClocksAgree(s, s', e, t);
  }

  lemma StepAgrees(s: State, s': State, e: Event, t: JobType)
    requires Indexed(s) && Indexed(s') && AgreeOn(s, s', t)
    ensures AgreeOn(Step(s, e), if Concerns(e, t) then Step(s', e) else s', t)
  {
    hide JobId, EffectsOf, ResultsOf, Indexed, JobStep, AgreeOn;
    match e
    case OnJob(ref, je) =>
      if ref.jobName == t {
        OwnMovesAgree(s, s', ref, je);
      } else if Move(s, ref, je).Some? {
        OtherMoveIsInvisible(s, s', ref, je, t);
      }
    case Enqueue(_, _, _) => EnqueueAgrees(s, s', e, t);
    case _ => ElsewhereAgrees(s, s', e, t);
  }

  lemma ClocksAgree(s: State, s': State, e: Event, t: JobType)
    requires s.clock == s'.clock && !e.OnJob? && !e.Enqueue?
    ensures Step(s, e).clock == (if Concerns(e, t) then Step(s', e) else s').clock
  {
  }

  lemma OtherMoveIsInvisible(s: State, s': State, ref: Ref, e: JobEvent, t: JobType)
    requires Indexed(s) && AgreeOn(s, s', t) && ref.jobName != t && Move(s, ref, e).Some?
    ensures AgreeOn(AfterJob(s, ref, e), s', t)
  {
    MoveFits(s, ref, e);
    var u := Find(s, ref).value;
    ResultIsForTheJob(JobOf(s, u), RecordAt(s.store, ref), s.clock, e);
    OthersAreInvisible(s, u, Move(s, ref, e).value, t);
  }

  /** Deleting every event of the other job type from a run leaves this type's outcome unchanged. */
  lemma {:induction false} TypesDoNotInterfere(start: nat, events: seq<Event>, t: JobType)
    ensures AgreeOn(Run(Init(start), events), Run(Init(start), EventsOf(events, t)), t)
    ensures Indexed(Run(Init(start), events)) && Indexed(Run(Init(start), EventsOf(events, t)))
  {
    if events != [] {
      var before, e := events[..|events| - 1], events[|events| - 1];
      TypesDoNotInterfere(start, before, t);
      var s, s' := Run(Init(start), before), Run(Init(start), EventsOf(before, t));
      StepAgrees(s, s', e, t);
      StepKeepsIndexed(s, e);
      StepKeepsIndexed(s', e);
      if Concerns(e, t) {
        assert EventsOf(events, t)[..|EventsOf(before, t)|] == EventsOf(before, t);
      } else {
        assert EventsOf(events, t) == EventsOf(before, t);
      }
    }
  }

  // ----- Dead letters and scopes -----

  function ScopesOf(scopes: seq<Scope>, t: JobType): seq<Scope> {
    Keep(scopes, (x: Scope) => x.task.jobType == t)
  }

  lemma ScopesOfSnoc(scopes: seq<Scope>, x: Scope, t: JobType)
    ensures ScopesOf(scopes + [x], t)
         == if x.task.jobType == t then ScopesOf(scopes, t) + [x] else ScopesOf(scopes, t)
  {
    KeepSnoc(scopes, x, (x: Scope) => x.task.jobType == t);
  }

  /** How far a handler got, without the number of the change, which counts changes of both types. */
  function Unnumbered(h: Handler): Handler {
    match h
    case Landed(_) => Landed(0)
    case Announced(_) => Announced(0)
    case Unannounced(_) => Unannounced(0)
    case _ => h
  }

  function Progress(s: State, task: TaskId): Option<Handler> {
    if task in s.handlers then Some(Unnumbered(s.handlers[task])) else None
  }

  function EntryOf(s: State, j: Job): Option<DlqPayload>
    requires j.stage.Dead?
  {
    if DlqId(j) in s.dlq then Some(s.dlq[DlqId(j)]) else None
  }

  /** Nor can they be told apart by the handlers, dead letter entries and scopes of jobs of type t. */
  ghost predicate RoutesAlike(s: State, s': State, t: JobType) {
    && (forall task: TaskId | task.jobType == t :: Progress(s, task) == Progress(s', task))
    && (forall j: Job | j.stage.Dead? && j.ref.jobName == t :: EntryOf(s, j) == EntryOf(s', j))
    && ScopesOf(s.scopes, t) == ScopesOf(s'.scopes, t)
  }

  lemma OwnDeltaRoutesAlike(s: State, s': State, u: TaskId, d: Delta, t: JobType)
    requires RoutesAlike(s, s', t) && HasTask(s, u) && HasTask(s', u)
    ensures RoutesAlike(Apply(s, u, d), Apply(s', u, d), t)
  {
    hide ScopesOf, DlqId, ScopeOf;
    ScopesOfSnoc(s.scopes, Scope(u, ScopeOf(d.job)), t);
    ScopesOfSnoc(s'.scopes, Scope(u, ScopeOf(d.job)), t);
  }

  lemma OtherDeltaRoutesAlike(s: State, s': State, u: TaskId, d: Delta, t: JobType)
    requires RoutesAlike(s, s', t) && HasTask(s, u) && u.jobType != t
    ensures RoutesAlike(Apply(s, u, d), s', t)
  {
    hide ScopesOf, DlqId, ScopeOf;
    ScopesOfSnoc(s.scopes, Scope(u, ScopeOf(d.job)), t);
  }

  lemma SameMove(s: State, s': State, ref: Ref, e: JobEvent)
    requires Indexed(s) && Indexed(s') && AgreeOn(s, s', ref.jobName)
    ensures Find(s, ref) == Find(s', ref) && Move(s, ref, e) == Move(s', ref, e)
  {
    if Find(s, ref).Some? {
      var u := Find(s, ref).value;
      JobIdIsInjective(ref, JobOf(s, u).ref);
      assert JobOf(s, u) == JobOf(s', u);
    }
  }

  lemma MoveRoutesAlike(s: State, s': State, ref: Ref, e: JobEvent, t: JobType)
    requires Indexed(s) && Indexed(s') && AgreeOn(s, s', t) && RoutesAlike(s, s', t)
    ensures RoutesAlike(AfterJob(s, ref, e), if ref.jobName == t then AfterJob(s', ref, e) else s', t)
  {
    hide RoutesAlike, AgreeOn, JobStep, Apply, DlqId, JobId;
    if ref.jobName == t {
      SameMove(s, s', ref, e);
    }
    if Move(s, ref, e).Some? {
      MoveFits(s, ref, e);
      var u := Find(s, ref).value;
      if ref.jobName == t {
        MoveFits(s', ref, e);
        OwnDeltaRoutesAlike(s, s', u, Move(s, ref, e).value, t);
      } else {
        OtherDeltaRoutesAlike(s, s', u, Move(s, ref, e).value, t);
      }
    }
  }

  /** A dead job of the type, to speak of entries at all. */
  function SomeDead(t: JobType): (j: Job)
    ensures j.stage.Dead? && j.ref.jobName == t
  {
    Job(Slot(t, ""), Data("", None), 0, 0, 0, Dead(0, ""))
  }

  lemma LandingInPoints(s: State, task: TaskId, x: TaskId, j: Job)
    requires j.stage.Dead?
    ensures
      var s1 := AfterDlqLands(s, task);
      var sends := IsRouting(s, task) && Progress(s, task) == Some(Sending);
      && s1.scopes == s.scopes
      && Progress(s1, x)
         == (if x != task || !sends then Progress(s, x)
             else Some(if EntryOf(s, JobOf(s, task)).Some? then Swallowed else Landed(0)))
      && EntryOf(s1, j)
         == if sends && DlqId(j) == DlqId(JobOf(s, task)) && EntryOf(s, j).None?
            then Some(DlqPayloadOf(JobOf(s, task))) else EntryOf(s, j)
  {
    hide DlqId, DlqPayloadOf;
  }

  lemma OwnLandingAlike(s: State, s': State, task: TaskId, t: JobType)
    requires Indexed(s) && s.jobs.Get(t) == s'.jobs.Get(t) && RoutesAlike(s, s', t) && task.jobType == t
    ensures RoutesAlike(AfterDlqLands(s, task), AfterDlqLands(s', task), t)
  {
    hide ScopesOf, DlqId, DlqPayloadOf, JobId, AfterDlqLands, Progress, EntryOf;
    assert Progress(s, task) == Progress(s', task);
    assert task in s.handlers <==> task in s'.handlers by {
      ProgressTells(s, task);
      ProgressTells(s', task);
    }
    assert IsRouting(s, task) <==> IsRouting(s', task);
    assert IsRouting(s, task) ==> JobOf(s, task) == JobOf(s', task) && JobOf(s, task).ref.jobName == t;
    hide Indexed;
    forall x: TaskId | x.jobType == t
      ensures Progress(AfterDlqLands(s, task), x) == Progress(AfterDlqLands(s', task), x)
    {
      LandingInPoints(s, task, x, SomeDead(t));
      LandingInPoints(s', task, x, SomeDead(t));
    }
    forall j: Job | j.stage.Dead? && j.ref.jobName == t
      ensures EntryOf(AfterDlqLands(s, task), j) == EntryOf(AfterDlqLands(s', task), j)
    {
      LandingInPoints(s, task, task, j);
      LandingInPoints(s', task, task, j);
    }
    var dead := SomeDead(t);
    LandingInPoints(s, task, task, dead);
    LandingInPoints(s', task, task, dead);
  }

  lemma ProgressTells(s: State, task: TaskId)
    ensures Progress(s, task).Some? <==> task in s.handlers
  {
  }

  /** How a handler goes on when the reply to its write arrives, or the write throws. */
  function Resumed(h: Handler, answered: bool): Handler {
    match h
    case Sending => if answered then Sending else Dropped
    case Landed(_) => if answered then Announced(0) else Unannounced(0)
    case _ => h
  }

  lemma HandlerStepInPoints(s: State, e: Event, x: TaskId, j: Job)
    requires (e.DlqReturns? || e.DlqFails?) && j.stage.Dead?
    ensures
      var s1 := Step(s, e);
      && s1.scopes == s.scopes && EntryOf(s1, j) == EntryOf(s, j)
      && Progress(s1, x)
         == if x != e.task || Progress(s, x).None? then Progress(s, x)
            else Some(Resumed(Progress(s, x).value, e.DlqReturns?))
  {
    hide AfterDlqLands, AfterDlqReturns, AfterDlqFails, AfterJob, AfterEnqueue, EntryOf, Progress;
    match e
    case DlqReturns(task) => ReturnInPoints(s, task, x, j);
    case DlqFails(task) => FailureInPoints(s, task, x, j);
  }

  lemma ReturnInPoints(s: State, task: TaskId, x: TaskId, j: Job)
    requires j.stage.Dead?
    ensures
      var s1 := AfterDlqReturns(s, task);
      && s1.scopes == s.scopes && EntryOf(s1, j) == EntryOf(s, j)
      && Progress(s1, x)
         == if x != task || Progress(s, x).None? then Progress(s, x) else Some(Resumed(Progress(s, x).value, true))
  {
    hide DlqId;
  }

  lemma FailureInPoints(s: State, task: TaskId, x: TaskId, j: Job)
    requires j.stage.Dead?
    ensures
      var s1 := AfterDlqFails(s, task);
      && s1.scopes == s.scopes && EntryOf(s1, j) == EntryOf(s, j)
      && Progress(s1, x)
         == if x != task || Progress(s, x).None? then Progress(s, x) else Some(Resumed(Progress(s, x).value, false))
  {
    hide DlqId;
  }

  lemma HandlerStepAlike(s: State, s': State, e: Event, t: JobType)
    requires RoutesAlike(s, s', t) && (e.DlqReturns? || e.DlqFails?) && e.task.jobType == t
    ensures RoutesAlike(Step(s, e), Step(s', e), t)
  {
    hide ScopesOf, Step, Progress, EntryOf, Resumed;
    forall x: TaskId | x.jobType == t
      ensures Progress(Step(s, e), x) == Progress(Step(s', e), x)
    {
      HandlerStepInPoints(s, e, x, SomeDead(t));
      HandlerStepInPoints(s', e, x, SomeDead(t));
    }
    forall j: Job | j.stage.Dead? && j.ref.jobName == t
      ensures EntryOf(Step(s, e), j) == EntryOf(Step(s', e), j)
    {
      HandlerStepInPoints(s, e, e.task, j);
      HandlerStepInPoints(s', e, e.task, j);
    }
    var dead := SomeDead(t);
    HandlerStepInPoints(s, e, e.task, dead);
    HandlerStepInPoints(s', e, e.task, dead);
  }

  /** A change confined to a handler and an entry of the other type. */
  lemma ElsewhereRoutesAlike(s: State, s1: State, s': State, t: JobType)
    requires RoutesAlike(s, s', t)
    requires s1.scopes == s.scopes
    requires forall task: TaskId | task.jobType == t :: Progress(s1, task) == Progress(s, task)
    requires forall j: Job | j.stage.Dead? && j.ref.jobName == t :: EntryOf(s1, j) == EntryOf(s, j)
    ensures RoutesAlike(s1, s', t)
  {
    hide Progress, EntryOf, ScopesOf;
  }

  lemma OtherLandingAlike(s: State, s': State, task: TaskId, t: JobType)
    requires Indexed(s) && RoutesAlike(s, s', t) && task.jobType != t
    ensures RoutesAlike(AfterDlqLands(s, task), s', t)
  {
    hide RoutesAlike, ScopesOf, DlqId, DlqPayloadOf, JobId, AfterDlqLands, Progress, EntryOf;
    assert IsRouting(s, task) ==> JobOf(s, task).ref.jobName == task.jobType;
    hide Indexed;
    var dead := SomeDead(t);
    forall x: TaskId | x.jobType == t
      ensures Progress(AfterDlqLands(s, task), x) == Progress(s, x)
    {
      LandingInPoints(s, task, x, dead);
    }
    forall j: Job | j.stage.Dead? && j.ref.jobName == t
      ensures EntryOf(AfterDlqLands(s, task), j) == EntryOf(s, j)
    {
      LandingInPoints(s, task, task, j);
      if IsRouting(s, task) && DlqId(j) == DlqId(JobOf(s, task)) {
        DlqIdIsReadable(j, JobOf(s, task));
      }
    }
    LandingInPoints(s, task, task, dead);
    ElsewhereRoutesAlike(s, AfterDlqLands(s, task), s', t);
  }

  lemma OtherHandlerStepAlike(s: State, s': State, e: Event, t: JobType)
    requires RoutesAlike(s, s', t) && (e.DlqReturns? || e.DlqFails?) && e.task.jobType != t
    ensures RoutesAlike(Step(s, e), s', t)
  {
    hide RoutesAlike, ScopesOf, Step, Progress, EntryOf, Resumed;
    forall x: TaskId | x.jobType == t
      ensures Progress(Step(s, e), x) == Progress(s, x)
    {
      HandlerStepInPoints(s, e, x, SomeDead(t));
    }
    forall j: Job | j.stage.Dead?
      ensures EntryOf(Step(s, e), j) == EntryOf(s, j)
    {
      HandlerStepInPoints(s, e, e.task, j);
    }
    HandlerStepInPoints(s, e, e.task, SomeDead(t));
    ElsewhereRoutesAlike(s, Step(s, e), s', t);
  }

  lemma StepRoutesAlike(s: State, s': State, e: Event, t: JobType)
    requires Indexed(s) && Indexed(s') && AgreeOn(s, s', t) && RoutesAlike(s, s', t)
    ensures RoutesAlike(Step(s, e), if Concerns(e, t) then Step(s', e) else s', t)
  {
    hide RoutesAlike, AgreeOn, Indexed;
    match e
    case OnJob(ref, je) => MoveRoutesAlike(s, s', ref, je, t);
    case DlqLands(_) => RoutingAlike(s, s', e, t);
    case DlqReturns(_) => RoutingAlike(s, s', e, t);
    case DlqFails(_) => RoutingAlike(s, s', e, t);
    case _ =>
      UnroutedKeeps(s, e);
      UnroutedKeeps(s', e);
      FramedRoutesAlike(s, s', Step(s, e), if Concerns(e, t) then Step(s', e) else s', t);
  }

  lemma UnroutedKeeps(s: State, e: Event)
    requires !e.OnJob? && !e.DlqLands? && !e.DlqReturns? && !e.DlqFails?
    ensures Step(s, e).handlers == s.handlers && Step(s, e).dlq == s.dlq && Step(s, e).scopes == s.scopes
  {
    hide JobId;
  }

  lemma FramedRoutesAlike(s: State, s': State, s1: State, s1': State, t: JobType)
    requires RoutesAlike(s, s', t)
    requires s1.handlers == s.handlers && s1.dlq == s.dlq && s1.scopes == s.scopes
    requires s1'.handlers == s'.handlers && s1'.dlq == s'.dlq && s1'.scopes == s'.scopes
    ensures RoutesAlike(s1, s1', t)
  {
    hide DlqId, Unnumbered, ScopesOf;
    assert forall task: TaskId :: Progress(s1, task) == Progress(s, task);
    assert forall task: TaskId :: Progress(s1', task) == Progress(s', task);
    assert forall j: Job | j.stage.Dead? :: EntryOf(s1, j) == EntryOf(s, j);
    assert forall j: Job | j.stage.Dead? :: EntryOf(s1', j) == EntryOf(s', j);
  }

  lemma RoutingAlike(s: State, s': State, e: Event, t: JobType)
    requires Indexed(s) && AgreeOn(s, s', t) && RoutesAlike(s, s', t)
    requires e.DlqLands? || e.DlqReturns? || e.DlqFails?
    ensures RoutesAlike(Step(s, e), if Concerns(e, t) then Step(s', e) else s', t)
  {
    hide RoutesAlike, Indexed, AfterDlqLands, AfterDlqReturns, AfterDlqFails;
    if e.task.jobType == t {
      if e.DlqLands? {
        OwnLandingAlike(s, s', e.task, t);
      } else {
        HandlerStepAlike(s, s', e, t);
      }
    } else if e.DlqLands? {
      OtherLandingAlike(s, s', e.task, t);
    } else {
      OtherHandlerStepAlike(s, s', e, t);
    }
  }

  /**
   * Nor does it change how far this type's failure handlers got, which dead letter
   * entries there are and what they say, or which correlation scopes were entered.
   */
  lemma {:induction false} TypesRouteAlike(start: nat, events: seq<Event>, t: JobType)
    ensures RoutesAlike(Run(Init(start), events), Run(Init(start), EventsOf(events, t)), t)
  {
    hide RoutesAlike, AgreeOn, Step, Indexed;
    if events == [] {
      NothingRoutesAlike(Init(start), t);
    } else {
      var before, e := events[..|events| - 1], events[|events| - 1];
      TypesRouteAlike(start, before, t);
      TypesDoNotInterfere(start, before, t);
      var s, s' := Run(Init(start), before), Run(Init(start), EventsOf(before, t));
      StepRoutesAlike(s, s', e, t);
      assert events == before + [e];
      KeepSnoc(before, e, (e: Event) => Concerns(e, t));
      if Concerns(e, t) {
        assert EventsOf(events, t)[..|EventsOf(before, t)|] == EventsOf(before, t);
      }
    }
  }

  lemma NothingRoutesAlike(s: State, t: JobType)
    ensures RoutesAlike(s, s, t)
  {
  }
}
