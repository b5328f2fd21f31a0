/**
 * The life of a job: enqueued under an id derived from its type and key, executed at
 * least once, recorded, retried, and finally completed or moved to the dead letter
 * queue. The message broker is the environment: it holds at most one live job per id,
 * runs it in one place at a time, counts an attempt before announcing its failure, and
 * may lose a worker and redeliver at any moment.
 */
module Pipeline {
  import opened Basics
  import opened IdempotencyStore

  const ATTEMPTS: nat := 3
  const BACKOFF_MS: nat := 1000

  datatype JobType = Email | Webhook

  /** A job type and an idempotency key: what the store is keyed by. */
  type Ref = Slot<JobType>

  function JobId(ref: Ref): string {
    (match ref.jobName case Email => "email_" case Webhook => "webhook_") + ref.key
  }

  /** The validated fields, and the correlation id stamped at the enqueue. */
  datatype Data = Data(fields: string, correlationId: Option<string>)

  datatype ExecutionResult = ExecutionResult(ref: Ref, data: string, processedAt: int, isDuplicate: bool)

  /** Where a job stands. Waiting includes a retry waiting out its backoff. */
  datatype Stage =
    | Waiting
    | Checking
    | Acting
    | Acted(data: string)
    | Returning(result: ExecutionResult)
    | Throwing(reason: string)
    | Finished(result: ExecutionResult)
    | Dead(at: nat, reason: string)

  datatype Job = Job(ref: Ref, data: Data, enqueuedAt: nat, attemptsMade: nat, readyAt: nat, stage: Stage) {
    predicate Live() {
      !stage.Finished? && !stage.Dead?
    }
  }

  /** How the side effect ended, as the processor sees it, and what really happened. */
  datatype Outcome =
    | Done(data: string)
    | Rejected(reason: string)
    | Lost(reason: string, delivered: bool, data: string)

  /** What the broker, the network and the disk can make happen to one job. */
  datatype JobEvent =
    | Start
    | Check
    | Act(outcome: Outcome)
    | Commit(failure: Option<string>, lag: nat)
    | Acknowledge
    | Fail(recorded: bool)
    | Crash

  /**
   * What one event does: the job afterwards, a row to write, a side effect performed,
   * a side effect cut off from its record, a result returned, a failure counted, a
   * correlation scope entered, whether the board changes, whether its snapshots are invalidated with it.
   */
  datatype Delta = Delta(
    job: Job, write: Option<Record>, effect: Option<string>, cut: bool, result: Option<ExecutionResult>,
    failed: bool, scoped: bool, lands: bool, announces: bool)

  function Quiet(j: Job): Delta {
    Delta(j, None, None, false, None, false, false, false, false)
  }

  /** Exponential: one second, then two. */
  function Backoff(attemptsMade: nat): nat
    requires attemptsMade > 0
    ensures Backoff(attemptsMade) >= BACKOFF_MS
  {
    if attemptsMade == 1 then BACKOFF_MS else 2 * Backoff(attemptsMade - 1)
  }

  function Started(j: Job, now: nat): Option<Delta> {
    if j.stage.Waiting? && j.readyAt <= now
    then Some(Quiet(j.(stage := Checking)).(scoped := true, lands := true))
    else None
  }

  function Checked(j: Job, row: Option<Record>, now: nat): Option<Delta> {
    if !j.stage.Checking? then None
    else if row.Some? && row.value.status == COMPLETED then
      var created := if row.value.createdAt.Some? then row.value.createdAt.value else now;
      var r := ExecutionResult(j.ref, row.value.result, created, true);
      Some(Quiet(j.(stage := Returning(r))).(result := Some(r)))
    else Some(Quiet(j.(stage := Acting)))
  }

  /** The email effect is local and cannot fail; a webhook may be refused or its answer lost. */
  function ActedOn(j: Job, outcome: Outcome): Option<Delta> {
    if !j.stage.Acting? then None
    else match outcome
      case Done(d) => Some(Quiet(j.(stage := Acted(d))).(effect := Some(d)))
      case Rejected(reason) =>
        if j.ref.jobName.Webhook? then Some(Quiet(j.(stage := Throwing(reason)))) else None
      case Lost(reason, delivered, d) =>
        if j.ref.jobName.Webhook? then
          Some(Quiet(j.(stage := Throwing(reason))).(effect := if delivered then Some(d) else None, cut := delivered))
        else None
  }

  /** The write of the record: it is there, or it threw and is not. */
  function Committed(j: Job, failure: Option<string>, lag: nat, now: nat): Option<Delta> {
    if !j.stage.Acted? then None
    else if failure.None? then
      var r := ExecutionResult(j.ref, j.stage.data, now + lag, false);
      var row := Record(COMPLETED, j.stage.data, Some(now));
      Some(Quiet(j.(stage := Returning(r))).(write := Some(row), result := Some(r)))
    else Some(Quiet(j.(stage := Throwing(failure.value))).(cut := true))
  }

  function Acknowledged(j: Job): Option<Delta> {
    if j.stage.Returning?
    then Some(Quiet(j.(stage := Finished(j.stage.result))).(lands := true))
    else None
  }

  /** The broker's move and the synchronous part of the `failed` handler. */
  function Failed(j: Job, recorded: bool, now: nat): Option<Delta> {
    if !j.stage.Throwing? then None
    else
      var made := j.attemptsMade + 1;
      var terminal := made >= ATTEMPTS;
      var j' := j.(attemptsMade := made,
                   readyAt := if terminal then j.readyAt else now + Backoff(made),
                   stage := if terminal then Dead(now, j.stage.reason) else Waiting);
      var row := Record(FAILED, j.stage.reason, Some(now));
      var write := if terminal && recorded && j.ref.key != "" then Some(row) else None;
      Some(Quiet(j').(write := write, failed := true, scoped := true, lands := true, announces := true))
  }

  /** The worker is gone; the broker puts the job back without counting an attempt. */
  function Crashed(j: Job): Option<Delta> {
    if j.stage.Waiting? || !j.Live() then None
    else Some(Quiet(j.(stage := Waiting)).(cut := j.stage.Acted?, lands := true))
  }

  /** None when the event cannot happen to the job as it stands. */
  function JobStep(j: Job, row: Option<Record>, now: nat, e: JobEvent): Option<Delta> {
    match e
    case Start => Started(j, now)
    case Check => Checked(j, row, now)
    case Act(outcome) => ActedOn(j, outcome)
    case Commit(failure, lag) => Committed(j, failure, lag, now)
    case Acknowledge => Acknowledged(j)
    case Fail(recorded) => Failed(j, recorded, now)
    case Crash => Crashed(j)
  }

  // ----- The whole system -----

  datatype PerType<T> = PerType(email: T, webhook: T) {
    function Get(t: JobType): T {
      match t case Email => email case Webhook => webhook
    }

    function Set(t: JobType, v: T): PerType<T> {
      match t case Email => PerType(v, webhook) case Webhook => PerType(email, v)
    }
  }

  /** An accepted job, by type and order of acceptance. */
  datatype TaskId = TaskId(jobType: JobType, serial: nat)

  datatype DlqPayload = DlqPayload(
    originalJobId: string, jobName: JobType, data: Data, failedReason: string, failedAt: nat, attemptsMade: nat)

  /**
   * How far the `failed` handler of a terminal failure got in routing it: the write is
   * under way, has landed as a numbered change, is followed by its invalidation; or the
   * write failed before or after landing; or the broker took its id for a duplicate.
   */
  datatype Handler =
    | Sending
    | Landed(mutation: nat)
    | Announced(mutation: nat)
    | Dropped
    | Unannounced(mutation: nat)
    | Swallowed

  datatype Effect = Effect(ref: Ref, data: string)
  datatype Scope = Scope(task: TaskId, correlationId: string)

  /**
   * `jobs` holds every accepted job; `live` is the broker's index of ids in use;
   * `effects`, `cutOff`, `results` and `scopes` are histories. `landed` counts changes
   * to what the dashboard shows, `settled` is that count at the last invalidation.
   */
  datatype State = State(
    clock: nat,
    jobs: PerType<seq<Job>>,
    live: map<string, TaskId>,
    store: map<Ref, Record>,
    effects: seq<Effect>,
    cutOff: seq<Ref>,
    results: seq<ExecutionResult>,
    scopes: seq<Scope>,
    failedTotal: nat,
    handlers: map<TaskId, Handler>,
    dlq: map<string, DlqPayload>,
    landed: nat,
    settled: nat,
    invalidations: nat)

  datatype Event =
    | Enqueue(ref: Ref, data: Data, retained: bool)
    | EnqueueReturns
    | CompletedHandler
    | OnJob(ref: Ref, event: JobEvent)
    | DlqLands(task: TaskId)
    | DlqReturns(task: TaskId)
    | DlqFails(task: TaskId)
    | Drift
    | Tick(ms: nat)

  function Init(start: nat): State {
    State(start, PerType([], []), map[], map[], [], [], [], [], 0, map[], map[], 0, 0, 0)
  }

  predicate HasTask(s: State, t: TaskId) {
    t.serial < |s.jobs.Get(t.jobType)|
  }

  function JobOf(s: State, t: TaskId): Job
    requires HasTask(s, t)
  {
    s.jobs.Get(t.jobType)[t.serial]
  }

  function Put(jobs: PerType<seq<Job>>, t: TaskId, j: Job): PerType<seq<Job>>
    requires t.serial < |jobs.Get(t.jobType)|
  {
    jobs.Set(t.jobType, jobs.Get(t.jobType)[t.serial := j])
  }

  function Find(s: State, ref: Ref): Option<TaskId> {
    if JobId(ref) in s.live && HasTask(s, s.live[JobId(ref)]) then Some(s.live[JobId(ref)]) else None
  }

  function ScopeOf(j: Job): string {
    if j.data.correlationId.Some? then j.data.correlationId.value else "job-" + JobId(j.ref)
  }

  /** `taskQueue.add`: an id that is live, or still retained from an earlier job, adds nothing. */
  function AfterEnqueue(s: State, ref: Ref, data: Data, retained: bool): State {
    if JobId(ref) in s.live || retained then s
    else
      var t := TaskId(ref.jobName, |s.jobs.Get(ref.jobName)|);
      var j := Job(ref, data, s.clock, 0, s.clock, Waiting);
      s.(jobs := s.jobs.Set(ref.jobName, s.jobs.Get(ref.jobName) + [j]),
         live := s.live[JobId(ref) := t],
         landed := s.landed + 1)
  }

  /** An invalidation on its own: the rest of `enqueue` after its add, or a `completed` handler. */
  function AfterInvalidation(s: State): State {
    s.(invalidations := s.invalidations + 1, settled := s.landed)
  }

  function Apply(s: State, t: TaskId, d: Delta): State
    requires HasTask(s, t)
  {
    var ref := d.job.ref;
    var landed := if d.lands then s.landed + 1 else s.landed;
    s.(jobs := Put(s.jobs, t, d.job),
       live := if d.job.Live() then s.live else s.live - {JobId(ref)},
       store := if d.write.Some? then s.store[ref := d.write.value] else s.store,
       effects := if d.effect.Some? then s.effects + [Effect(ref, d.effect.value)] else s.effects,
       cutOff := if d.cut then s.cutOff + [ref] else s.cutOff,
       results := if d.result.Some? then s.results + [d.result.value] else s.results,
       scopes := if d.scoped then s.scopes + [Scope(t, ScopeOf(d.job))] else s.scopes,
       failedTotal := if d.failed then s.failedTotal + 1 else s.failedTotal,
       handlers := if d.job.stage.Dead? then s.handlers[t := Sending] else s.handlers,
       landed := landed,
       settled := if d.announces then landed else s.settled,
       invalidations := if d.announces then s.invalidations + 1 else s.invalidations)
  }

  /** The job an event addressed to (type, key) reaches, if it can happen to it now. */
  function Move(s: State, ref: Ref, e: JobEvent): Option<Delta> {
    match Find(s, ref)
    case None => None
    case Some(t) => JobStep(JobOf(s, t), RecordAt(s.store, JobOf(s, t).ref), s.clock, e)
  }

  function AfterJob(s: State, ref: Ref, e: JobEvent): State {
    if Move(s, ref, e).None? then s else Apply(s, Find(s, ref).value, Move(s, ref, e).value)
  }

  function DlqId(j: Job): string
    requires j.stage.Dead?
  {
    "dlq_" + JobId(j.ref) + "_" + Decimal(j.stage.at)
  }

  function DlqPayloadOf(j: Job): DlqPayload
    requires j.stage.Dead?
  {
    var reason := if j.stage.reason == "" then "Unknown error" else j.stage.reason;
    DlqPayload(JobId(j.ref), j.ref.jobName, j.data, reason, j.stage.at, j.attemptsMade)
  }

  predicate IsRouting(s: State, t: TaskId) {
    t in s.handlers && HasTask(s, t) && JobOf(s, t).stage.Dead?
  }

  /** `dlqQueue.add` takes effect; like any add it ignores an id already there. */
  function AfterDlqLands(s: State, t: TaskId): State {
    if !IsRouting(s, t) || !s.handlers[t].Sending? then s
    else
      var id := DlqId(JobOf(s, t));
      if id in s.dlq then s.(handlers := s.handlers[t := Swallowed])
      else s.(dlq := s.dlq[id := DlqPayloadOf(JobOf(s, t))],
              handlers := s.handlers[t := Landed(s.landed)],
              landed := s.landed + 1)
  }

  /** The rest of `sendToDLQ`: the invalidation after the write. */
  function AfterDlqReturns(s: State, t: TaskId): State {
    if t !in s.handlers || !s.handlers[t].Landed? then s
    else
      var m := s.handlers[t].mutation;
      s.(handlers := s.handlers[t := Announced(m)], settled := s.landed, invalidations := s.invalidations + 1)
  }

  /** The write throws, whether or not it took effect; the handler logs and ends. */
  function AfterDlqFails(s: State, t: TaskId): State {
    if t !in s.handlers then s
    else match s.handlers[t]
      case Sending => s.(handlers := s.handlers[t := Dropped])
      case Landed(m) => s.(handlers := s.handlers[t := Unannounced(m)])
      case _ => s
  }

  /** Drift is any change of the board that no code announces, such as a delayed job becoming ready. */
  function Step(s: State, e: Event): State {
    match e
    case Enqueue(ref, data, retained) => AfterEnqueue(s, ref, data, retained)
    case EnqueueReturns => AfterInvalidation(s)
    case CompletedHandler => AfterInvalidation(s)
    case OnJob(ref, je) => AfterJob(s, ref, je)
    case DlqLands(t) => AfterDlqLands(s, t)
    case DlqReturns(t) => AfterDlqReturns(s, t)
    case DlqFails(t) => AfterDlqFails(s, t)
    case Drift => s.(landed := s.landed + 1)
    case Tick(ms) => s.(clock := s.clock + ms)
  }

  function Run(s: State, events: seq<Event>): State {
    if events == [] then s
    else Step(Run(s, events[..|events| - 1]), events[|events| - 1])
  }

  lemma {:induction false} RunAppend(s: State, first: seq<Event>, second: seq<Event>)
    ensures Run(s, first + second) == Run(Run(s, first), second)
  {
    hide Step;
    var all := first + second;
    if second == [] {
      assert all == first;
    } else {
      assert all[..|all| - 1] == first + second[..|second| - 1];
      RunAppend(s, first, second[..|second| - 1]);
    }
  }

  ghost predicate Reachable(s: State) {
    exists start, events :: s == Run(Init(start), events)
  }

  // ----- Identity -----

  /** No two (type, key) pairs share a job id, whatever the keys are. */
  lemma JobIdIsInjective(a: Ref, b: Ref)
    ensures JobId(a) == JobId(b) <==> a == b
  {
    if JobId(a) == JobId(b) {
      assert JobId(a)[0] == JobId(b)[0];
      var n := if a.jobName.Email? then 6 else 8;
      assert JobId(a)[n..] == a.key && JobId(b)[n..] == b.key;
    }
  }

  // ----- The broker's index, and what a step leaves alone -----

  /** Live ids and live jobs correspond one to one. */
  ghost predicate Indexed(s: State) {
    && (forall id | id in s.live :: HasTask(s, s.live[id]) && JobId(JobOf(s, s.live[id]).ref) == id)
    && (forall id | id in s.live :: JobOf(s, s.live[id]).Live())
    && (forall t | HasTask(s, t) :: JobOf(s, t).ref.jobName == t.jobType)
    && (forall t | HasTask(s, t) && JobOf(s, t).Live() ::
          JobId(JobOf(s, t).ref) in s.live && s.live[JobId(JobOf(s, t).ref)] == t)
  }

  /** The precondition under which a delta is applied: it is the indexed live job's own. */
  ghost predicate Fits(s: State, t: TaskId, d: Delta) {
    && HasTask(s, t)
    && JobOf(s, t).Live()
    && d.job.ref == JobOf(s, t).ref
    && d.job.data == JobOf(s, t).data
    && d.job.enqueuedAt == JobOf(s, t).enqueuedAt
  }

  lemma MoveFits(s: State, ref: Ref, e: JobEvent)
    requires Indexed(s) && Move(s, ref, e).Some?
    ensures Find(s, ref).Some? && Fits(s, Find(s, ref).value, Move(s, ref, e).value)
    ensures JobOf(s, Find(s, ref).value).ref == ref
  {
    var t := Find(s, ref).value;
    JobStepKeepsIdentity(JobOf(s, t), RecordAt(s.store, JobOf(s, t).ref), s.clock, e);
    JobIdIsInjective(ref, JobOf(s, t).ref);
  }

  lemma JobStepKeepsIdentity(j: Job, row: Option<Record>, now: nat, e: JobEvent)
    requires JobStep(j, row, now, e).Some?
    ensures
      var j' := JobStep(j, row, now, e).value.job;
      j'.ref == j.ref && j'.data == j.data && j'.enqueuedAt == j.enqueuedAt
  {
  }

  lemma AfterApply(s: State, t: TaskId, d: Delta, u: TaskId)
    requires HasTask(s, t)
    ensures HasTask(Apply(s, t, d), u) <==> HasTask(s, u)
    ensures HasTask(s, u) ==> JobOf(Apply(s, t, d), u) == if u == t then d.job else JobOf(s, u)
  {
  }

  lemma ApplyKeepsIndexed(s: State, t: TaskId, d: Delta)
    requires Indexed(s) && Fits(s, t, d)
    ensures Indexed(Apply(s, t, d))
  {
    var s' := Apply(s, t, d);
    forall u
      ensures HasTask(s', u) <==> HasTask(s, u)
      ensures HasTask(s, u) ==> JobOf(s', u) == if u == t then d.job else JobOf(s, u)
    {
      AfterApply(s, t, d, u);
    }
  }

  lemma EnqueueKeepsIndexed(s: State, ref: Ref, data: Data, retained: bool)
    requires Indexed(s)
    ensures Indexed(AfterEnqueue(s, ref, data, retained))
  {
    hide JobId;
    if JobId(ref) !in s.live && !retained {
      var s' := AfterEnqueue(s, ref, data, retained);
      var newcomer := s'.live[JobId(ref)];
      forall u
        ensures HasTask(s', u) <==> HasTask(s, u) || u == newcomer
        ensures HasTask(s, u) ==> u != newcomer && JobOf(s', u) == JobOf(s, u)
      {
      }
    }
  }

  lemma StepKeepsIndexed(s: State, e: Event)
    requires Indexed(s)
    ensures Indexed(Step(s, e))
  {
    match e
    case Enqueue(ref, data, retained) => EnqueueKeepsIndexed(s, ref, data, retained);
    case OnJob(ref, je) =>
      if Move(s, ref, je).Some? {
        MoveFits(s, ref, je);
        ApplyKeepsIndexed(s, Find(s, ref).value, Move(s, ref, je).value);
      }
    case _ => ElsewhereKeepsJobs(s, e);
  }

  /** Events that concern neither a job nor an enqueue leave jobs, rows and histories alone. */
  lemma ElsewhereKeepsJobs(s: State, e: Event)
    requires !e.OnJob? && !e.Enqueue?
    ensures
      var s' := Step(s, e);
      && s'.jobs == s.jobs && s'.live == s.live && s'.store == s.store
      && s'.effects == s.effects && s'.cutOff == s.cutOff && s'.results == s.results && s'.scopes == s.scopes
      && s'.failedTotal == s.failedTotal && s'.clock >= s.clock
      && (forall t | HasTask(s, t) :: HasTask(s', t) && JobOf(s', t) == JobOf(s, t))
      && (forall t | HasTask(s', t) :: HasTask(s, t))
      && (forall ref :: Find(s', ref) == Find(s, ref))
  {
    hide Step, JobId;
    ElsewhereKeepsFields(s, e);
  }

  lemma ElsewhereKeepsFields(s: State, e: Event)
    requires !e.OnJob? && !e.Enqueue?
    ensures
      var s' := Step(s, e);
      && s'.jobs == s.jobs && s'.live == s.live && s'.store == s.store
      && s'.effects == s.effects && s'.cutOff == s.cutOff && s'.results == s.results && s'.scopes == s.scopes
      && s'.failedTotal == s.failedTotal && s'.clock >= s.clock
  {
    hide DlqId, DlqPayloadOf, IsRouting, AfterJob, AfterEnqueue, JobId;
  }

  /** An accepted enqueue adds one waiting job under an id that was free. */
  lemma EnqueueAddsOneJob(s: State, ref: Ref, data: Data, retained: bool)
    requires Indexed(s)
    ensures
      var s' := AfterEnqueue(s, ref, data, retained);
      var newcomer := TaskId(ref.jobName, |s.jobs.Get(ref.jobName)|);
      && s'.store == s.store && s'.effects == s.effects && s'.cutOff == s.cutOff && s'.results == s.results
      && (forall t | HasTask(s, t) :: HasTask(s', t) && JobOf(s', t) == JobOf(s, t))
      && (forall t | HasTask(s', t) && !HasTask(s, t) ::
            t == newcomer && JobOf(s', t) == Job(ref, data, s.clock, 0, s.clock, Waiting)
            && (forall u | HasTask(s, u) && JobOf(s, u).ref == ref :: !JobOf(s, u).Live()))
      && (forall r ::
            Find(s', r) == Find(s, r) || (r == ref && Find(s', r) == Some(newcomer) && !HasTask(s, newcomer)))
  {
    forall r
      ensures JobId(r) == JobId(ref) <==> r == ref
    {
      JobIdIsInjective(r, ref);
    }
  }
}
