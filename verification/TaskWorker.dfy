/**
 * The code the pipeline's events stand for: both processors, the worker's event
 * handlers, dead letter routing and the shared enqueue. Each method is proved to do to
 * its fields what the corresponding events do to the machine.
 */
module TaskWorker {
  import opened Basics
  import opened IdempotencyStore
  import opened Pipeline
  import opened EffectLedger
  import L = DeadLetters
  import Admission

  /** A processor resolves with a result or throws. */
  datatype Reply = Resolved(result: ExecutionResult) | Thrown(message: string)

  /** What one attempt amounts to: the job after it, the row it leaves, the side effects it had. */
  datatype Aftermath = Aftermath(job: Job, row: Option<Record>, effects: seq<Effect>)

  /** One attempt that nothing interrupts, as the machine's own events. */
  function Attempt(j: Job, row: Option<Record>, now: nat, outcome: Outcome, failure: Option<string>, lag: nat)
    : Aftermath
    requires j.stage.Checking? && (j.ref.jobName.Email? ==> outcome.Done?)
  {
    var checked := JobStep(j, row, now, Check).value.job;
    if checked.stage.Returning? then Aftermath(checked, row, [])
    else
      var d := JobStep(checked, row, now, Act(outcome)).value;
      var effects := if d.effect.Some? then [Effect(j.ref, d.effect.value)] else [];
      if d.job.stage.Throwing? then Aftermath(d.job, row, effects)
      else
        var d' := JobStep(d.job, row, now, Commit(failure, lag)).value;
        Aftermath(d'.job, RowAfter(row, d'), effects)
  }

  predicate Reports(reply: Reply, j: Job) {
    match reply
    case Resolved(result) => j.stage == Returning(result)
    case Thrown(message) => j.stage == Throwing(message)
  }

  /** How an `add` ends for its caller; a reply may be lost after the add took effect. */
  datatype BrokerReply = Accepted | Unreachable | ReplyLost

  /** The dead letter queue after an add; an id it holds already adds nothing. */
  function Filed(dlq: map<string, DlqPayload>, j: Job): map<string, DlqPayload>
    requires j.stage.Dead?
  {
    if DlqId(j) in dlq then dlq else dlq[DlqId(j) := DlqPayloadOf(j)]
  }

  class Worker {
    const db: IdempotencyDatabase<JobType>
    /** What the world outside has received. */
    var effects: seq<Effect>
    var dlq: map<string, DlqPayload>
    var failedTotal: nat
    var completedTotal: nat
    /** What the duration histogram was shown, in milliseconds. */
    var durations: seq<nat>
    var generation: nat

    constructor (db: IdempotencyDatabase<JobType>)
      ensures this.db == db && effects == [] && dlq == map[] && durations == []
      ensures failedTotal == completedTotal == generation == 0
    {
      this.db := db;
      effects, dlq, durations := [], map[], [];
      failedTotal, completedTotal, generation := 0, 0, 0;
    }

    /** The answer to a job whose row is already COMPLETED. */
    method ReplayIfProcessed(ref: Ref, now: nat) returns (replay: Option<ExecutionResult>)
      requires db.Valid()
      ensures
        var row := RecordAt(db.Records(), ref);
        && (replay.Some? <==> IsDone(row))
        && (IsDone(row) ==>
              replay.value == ExecutionResult(ref, row.value.result,
                if row.value.createdAt.Some? then row.value.createdAt.value else now, true))
    {
      var processed := db.HasBeenProcessed(ref.jobName, ref.key);
      if !processed {
        return None;
      }
      var existing := db.GetRecord(ref.jobName, ref.key);
      var processedAt := if existing.value.createdAt.Some? then existing.value.createdAt.value else now;
      return Some(ExecutionResult(ref, existing.value.result, processedAt, true));
    }

    /** `failure` is what the store throws, if it does; `lag` is the time until the answer is built. */
    method ProcessEmailJob(j: Job, messageId: string, failure: Option<string>, now: nat, lag: nat)
      returns (reply: Reply)
      requires db.Valid() && j.stage.Checking? && j.ref.jobName.Email?
      modifies this`effects, db
      ensures db.Valid()
      ensures
        var after := Attempt(j, RecordAt(old(db.Records()), j.ref), now, Done(messageId), failure, lag);
        && Reports(reply, after.job)
        && effects == old(effects) + after.effects
        && db.Records() == if after.row.Some? then old(db.Records())[j.ref := after.row.value] else old(db.Records())
    {
      var replay := ReplayIfProcessed(j.ref, now);
      if replay.Some? {
        return Resolved(replay.value);
      }
      effects := effects + [Effect(j.ref, messageId)];
      if failure.Some? {
        return Thrown(failure.value);
      }
      db.RecordSuccess(j.ref.key, Email, messageId, now);
      return Resolved(ExecutionResult(j.ref, messageId, now + lag, false));
    }

    method ProcessWebhookJob(j: Job, response: Outcome, failure: Option<string>, now: nat, lag: nat)
      returns (reply: Reply)
      requires db.Valid() && j.stage.Checking? && j.ref.jobName.Webhook?
      modifies this`effects, db
      ensures db.Valid()
      ensures
        var after := Attempt(j, RecordAt(old(db.Records()), j.ref), now, response, failure, lag);
        && Reports(reply, after.job)
        && effects == old(effects) + after.effects
        && db.Records() == if after.row.Some? then old(db.Records())[j.ref := after.row.value] else old(db.Records())
    {
      var replay := ReplayIfProcessed(j.ref, now);
      if replay.Some? {
        return Resolved(replay.value);
      }
      match response {
        case Rejected(reason) => return Thrown(reason);
        case Lost(reason, delivered, delivery) =>
          if delivered {
            effects := effects + [Effect(j.ref, delivery)];
          }
          return Thrown(reason);
        case Done(delivery) =>
          effects := effects + [Effect(j.ref, delivery)];
          if failure.Some? {
            return Thrown(failure.value);
          }
          db.RecordSuccess(j.ref.key, Webhook, delivery, now);
          return Resolved(ExecutionResult(j.ref, delivery, now + lag, false));
      }
    }

    /** The `completed` handler: the invalidation that follows an acknowledgement, and the two metrics. */
    method OnCompleted(durationMs: nat)
      modifies this`generation, this`completedTotal, this`durations
      ensures forall s: State | s.invalidations == old(generation) ::
        generation == Step(s, CompletedHandler).invalidations
      ensures generation == old(generation) + 1 && completedTotal == old(completedTotal) + 1
      ensures durations == old(durations) + [durationMs]
    {
      generation := generation + 1;
      durations := durations + [durationMs];
      completedTotal := completedTotal + 1;
    }

    /**
     * The `failed` handler up to its first await, for an attempt the broker has already
     * counted; `recorded` says whether the store accepts the write. Tells whether the job
     * goes on to the dead letter queue.
     */
    method OnFailed(j: Job, attemptsMade: nat, recorded: bool, now: nat) returns (terminal: bool)
      requires db.Valid() && j.stage.Throwing? && attemptsMade == j.attemptsMade + 1
      modifies this`generation, this`failedTotal, db
      ensures db.Valid() && generation == old(generation) + 1
      ensures
        var d := Failed(j, recorded, now).value;
        && terminal == d.job.stage.Dead?
        && failedTotal == old(failedTotal) + (if d.failed then 1 else 0)
        && db.Records() == if d.write.Some? then old(db.Records())[j.ref := d.write.value] else old(db.Records())
    {
      generation := generation + 1;
      failedTotal := failedTotal + 1;
      if attemptsMade < ATTEMPTS {
        return false;
      }
      if j.ref.key != "" && recorded {
        db.RecordFailure(j.ref.key, j.ref.jobName, j.stage.reason, now);
      }
      return true;
    }

    /** `sendToDLQ`: the write, and the invalidation only after its reply; a throw skips the invalidation. */
    method SendToDlq(j: Job, reply: BrokerReply) returns (ok: bool)
      requires j.stage.Dead?
      modifies this`dlq, this`generation
      ensures ok == reply.Accepted?
      ensures generation == old(generation) + One(ok)
      ensures dlq == if reply.Unreachable? then old(dlq) else Filed(old(dlq), j)
    {
      if reply.Unreachable? {
        return false;
      }
      var id := "dlq_" + JobId(j.ref) + "_" + Decimal(j.stage.at);
      if id !in dlq {
        var reason := if j.stage.reason == "" then "Unknown error" else j.stage.reason;
        dlq := dlq[id := DlqPayload(JobId(j.ref), j.ref.jobName, j.data, reason, j.stage.at, j.attemptsMade)];
      }
      if reply.ReplyLost? {
        return false;
      }
      generation := generation + 1;
      return true;
    }
  }

  /** How a dispatch answers its caller. */
  datatype Dispatched = Dispatched(jobId: string) | Refused(verdict: Admission.Verdict)

  /** `{ ...data, correlationId }`, unless there is no id or it is empty. */
  function Stamped(fields: string, correlationId: Option<string>): (d: Data)
    ensures d.fields == fields
    ensures forall id | id != "" :: d.correlationId == Some(id) <==> correlationId == Some(id)
    ensures d.correlationId != Some("")
  {
    Data(fields, if correlationId.Some? && correlationId.value != "" then correlationId else None)
  }

  /** The queued jobs after an add; a live or retained id adds nothing. */
  function Queued(queued: map<string, Data>, id: string, data: Data, retained: bool): map<string, Data> {
    if id in queued || retained then queued else queued[id := data]
  }

  class Dispatcher {
    /** The live jobs, by id. */
    var queued: map<string, Data>
    var generation: nat

    constructor ()
      ensures queued == map[] && generation == 0
    {
      queued, generation := map[], 0;
    }

    /**
     * The shared enqueue after the capacity check: stamp, add, invalidate. `retained`
     * says whether the broker still knows the id from an earlier job.
     */
    method Enqueue(ref: Ref, fields: string, correlationId: Option<string>, verdict: Admission.Verdict,
                   reply: BrokerReply, retained: bool)
      returns (r: Dispatched)
      modifies this
      ensures r == if !verdict.Admitted? then Refused(verdict)
                   else if reply.Accepted? then Dispatched(JobId(ref)) else Refused(Admission.Unavailable)
      ensures generation == old(generation) + One(r.Dispatched?)
      ensures queued == if verdict.Admitted? && !reply.Unreachable?
                        then Queued(old(queued), JobId(ref), Stamped(fields, correlationId), retained) else old(queued)
    {
      if !verdict.Admitted? {
        return Refused(verdict);
      }
      var payload := Data(fields, None);
      if correlationId.Some? && correlationId.value != "" {
        payload := payload.(correlationId := correlationId);
      }
      if reply.Unreachable? {
        return Refused(Admission.Unavailable);
      }
      var id := JobId(ref);
      if id !in queued && !retained {
        queued := queued[id := payload];
      }
      if reply.ReplyLost? {
        return Refused(Admission.Unavailable);
      }
      generation := generation + 1;
      return Dispatched(id);
    }
  }

  // ----- Dispatch and routing are the machine's -----

  /** The dispatcher's picture of the machine: the payloads of the live jobs. */
  ghost predicate Mirrors(s: State, queued: map<string, Data>) {
    && queued.Keys == s.live.Keys
    && (forall id | id in queued :: HasTask(s, s.live[id]) && queued[id] == JobOf(s, s.live[id]).data)
  }

  lemma EnqueueIsMirrored(s: State, queued: map<string, Data>, ref: Ref, data: Data, retained: bool)
    requires Indexed(s) && Mirrors(s, queued)
    ensures Mirrors(AfterEnqueue(s, ref, data, retained), Queued(queued, JobId(ref), data, retained))
  {
    hide JobId, Find;
    EnqueueAddsOneJob(s, ref, data, retained);
    hide Indexed;
    var s' := AfterEnqueue(s, ref, data, retained);
    forall id | id in Queued(queued, JobId(ref), data, retained)
      ensures HasTask(s', s'.live[id]) && Queued(queued, JobId(ref), data, retained)[id] == JobOf(s', s'.live[id]).data
    {
      if id in queued {
        assert s'.live[id] == s.live[id] && HasTask(s, s.live[id]);
      }
    }
  }

  /**
   * What Enqueue does to its fields, the machine's enqueue does to its jobs, and the
   * machine's return of it to the generation.
   */
  lemma DispatchIsTheMachines(s: State, queued: map<string, Data>, ref: Ref, data: Data, retained: bool)
    requires Indexed(s) && Mirrors(s, queued)
    ensures
      var added := Step(s, Enqueue(ref, data, retained));
      var returned := Step(added, EnqueueReturns);
      && Mirrors(added, Queued(queued, JobId(ref), data, retained))
      && added.invalidations == s.invalidations
      && returned == added.(invalidations := s.invalidations + 1, settled := added.landed)
  {
    hide JobId, Indexed, Mirrors;
    EnqueueIsMirrored(s, queued, ref, data, retained);
  }

  /** The machine's events for the three ways an add to the dead letter queue can end. */
  function AfterRouting(s: State, t: TaskId, reply: BrokerReply): State {
    match reply
    case Accepted => Step(Step(s, DlqLands(t)), DlqReturns(t))
    case Unreachable => Step(s, DlqFails(t))
    case ReplyLost => Step(Step(s, DlqLands(t)), DlqFails(t))
  }

  /** What SendToDlq does to its fields, the machine's routing does to the queue and the generation. */
  lemma RoutingIsTheMachines(s: State, t: TaskId, reply: BrokerReply)
    requires Reachable(s) && IsRouting(s, t) && s.handlers[t].Sending?
    ensures
      var s' := AfterRouting(s, t, reply);
      && s'.dlq == (if reply.Unreachable? then s.dlq else Filed(s.dlq, JobOf(s, t)))
      && s'.invalidations == s.invalidations + One(reply.Accepted?)
      && t in s'.handlers
      && s'.handlers[t] == match reply
                           case Accepted => Announced(s.landed)
                           case Unreachable => Dropped
                           case ReplyLost => Unannounced(s.landed)
  {
    hide DlqId, DlqPayloadOf, Reachable, AfterDlqLands, AfterJob, AfterEnqueue;
    L.LandingInFull(s, t);
  }

  // ----- What one uninterrupted attempt amounts to -----

  /**
   * An attempt succeeds exactly when the row was COMPLETED before it or is made so by
   * it, and then its answer is what the row says: a replay touches nothing outside, a
   * first success reports the one effect it had. A failed attempt leaves the row alone.
   */
  lemma AttemptIsAllOrNothing(
    j: Job, row: Option<Record>, now: nat, outcome: Outcome, failure: Option<string>, lag: nat)
    requires j.stage.Checking? && (j.ref.jobName.Email? ==> outcome.Done?)
    requires row.Some? ==> row.value.createdAt.Some?
    ensures
      var after := Attempt(j, row, now, outcome, failure, lag);
      var end := after.job.stage;
      && (end.Returning? || end.Throwing?)
      && (end.Returning? <==> IsDone(after.row))
      && (end.Returning? <==> IsDone(row) || (outcome.Done? && failure.None?))
      && (end.Returning? ==> end.result.ref == j.ref && Replays(end.result, after.row)
                             && (end.result.isDuplicate <==> IsDone(row)))
      && (IsDone(row) || end.Throwing? ==> after.row == row)
      && (IsDone(row) ==> after.effects == [])
      && (!IsDone(row) && end.Returning? ==> after.effects == [Effect(j.ref, end.result.data)])
  {
  }

  /**
   * What the processors are proved to do is what the machine does: a check, an act and
   * a commit in a row leave the job, its row and the outside world as Attempt says, and
   * every other row alone.
   */
  lemma AttemptIsThreeEvents(s: State, t: TaskId, outcome: Outcome, failure: Option<string>, lag: nat)
    requires Reachable(s) && HasTask(s, t)
    requires JobOf(s, t).stage.Checking? && (JobOf(s, t).ref.jobName.Email? ==> outcome.Done?)
    ensures
      var j := JobOf(s, t);
      var after := Attempt(j, RecordAt(s.store, j.ref), s.clock, outcome, failure, lag);
      var acted := Step(Step(s, OnJob(j.ref, Check)), OnJob(j.ref, Act(outcome)));
      var s' := Step(acted, OnJob(j.ref, Commit(failure, lag)));
      && HasTask(s', t) && JobOf(s', t) == after.job
      && RecordAt(s'.store, j.ref) == after.row
      && (forall other | other != j.ref :: RecordAt(s'.store, other) == RecordAt(s.store, other))
      && s'.effects == s.effects + after.effects
  {
    hide Step, Indexed, JobId, Find, Move;
    ReachableIsConsistent(s);
    var j := JobOf(s, t);
    var s1 := Step(s, OnJob(j.ref, Check));
    var s2 := Step(s1, OnJob(j.ref, Act(outcome)));
    OneEvent(s, t, Check);
    assert RecordAt(s1.store, j.ref) == RecordAt(s.store, j.ref) && s1.effects == s.effects;
    OneEvent(s1, t, Act(outcome));
    assert RecordAt(s2.store, j.ref) == RecordAt(s.store, j.ref);
    OneEvent(s2, t, Commit(failure, lag));
  }
}
