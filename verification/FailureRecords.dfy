/**
 * What is left on record of a terminal failure: the row in the store, and that it, or a
 * success that replaced it, is there for good.
 */
module FailureRecords {
  import opened Basics
  import opened IdempotencyStore
  import opened Pipeline
  import opened EffectLedger
  import opened Attempts
  import opened DeadLetters

  /** What an event makes an attempt throw: the refusal, the lost answer, or the failed write, in its own words. */
  function Cause(e: JobEvent): Option<string> {
    match e
    case Act(Rejected(reason)) => Some(reason)
    case Act(Lost(reason, _, _)) => Some(reason)
    case Commit(Some(reason), _) => Some(reason)
    case _ => None
  }

  /**
   * An attempt throws exactly where something went wrong, and what it throws is what went
   * wrong; only the broker's verdict or a crash moves it on from there.
   */
  lemma AttemptsThrowTheirCause(s: State, ref: Ref, e: JobEvent)
    requires Reachable(s) && Move(s, ref, e).Some?
    ensures
      var t := Find(s, ref).value;
      var s' := Step(s, OnJob(ref, e));
      && HasTask(s', t)
      && (Cause(e).Some? ==> JobOf(s', t).stage == Throwing(Cause(e).value))
      && (JobOf(s', t).stage.Throwing? ==> Cause(e).Some?)
      && (JobOf(s, t).stage.Throwing? ==> e.Fail? || e.Crash?)
  {
    hide JobId;
    ReachableIsConsistent(s);
    MoveFits(s, ref, e);
    var t := Find(s, ref).value;
    AfterApply(s, t, Move(s, ref, e).value, t);
  }

  /**
   * The third failure of a job ends it, at this moment, with the text its attempt threw;
   * if the store accepts the write and the job has a key, that is what the store says.
   * An earlier failure, or one the store refused, leaves the row as it was.
   */
  lemma TerminalFailureIsRecorded(s: State, ref: Ref, recorded: bool)
    requires Reachable(s) && Move(s, ref, Fail(recorded)).Some?
    ensures
      var t := Find(s, ref).value;
      var j := JobOf(s, t);
      var s' := Step(s, OnJob(ref, Fail(recorded)));
      var last := j.attemptsMade == 2;
      && j.stage.Throwing? && HasTask(s', t)
      && JobOf(s', t).stage == (if last then Dead(s.clock, j.stage.reason) else Waiting)
      && RecordAt(s'.store, ref)
         == (if last && recorded && ref.key != "" then Some(Record(FAILED, j.stage.reason, Some(s.clock)))
             else RecordAt(s.store, ref))
      && (forall other | other != ref :: RecordAt(s'.store, other) == RecordAt(s.store, other))
  {
    var start, events :| s == Run(Init(start), events);
    RunKeepsAccounts(start, events);
    MoveFits(s, ref, Fail(recorded));
    var t := Find(s, ref).value;
    assert CountedRight(JobOf(s, t));
    AfterApply(s, t, Move(s, ref, Fail(recorded)).value, t);
  }

  lemma {:induction false} RowsStay(s: State, events: seq<Event>, ref: Ref)
    requires RecordAt(s.store, ref).Some?
    ensures RecordAt(Run(s, events).store, ref).Some?
  {
    hide Step;
    if events != [] {
      RowsStay(s, events[..|events| - 1], ref);
      RowStay(Run(s, events[..|events| - 1]), events[|events| - 1], ref);
    }
  }

  lemma RowStay(s: State, e: Event, ref: Ref)
    requires RecordAt(s.store, ref).Some?
    ensures RecordAt(Step(s, e).store, ref).Some?
  {
    hide JobStep, JobId;
    if !e.OnJob? && !e.Enqueue? {
      ElsewhereKeepsJobs(s, e);
    }
  }

  lemma OnlyEndsWrite(j: Job, row: Option<Record>, now: nat, e: JobEvent)
    requires JobStep(j, row, now, e).Some?
    ensures
      var d := JobStep(j, row, now, e).value;
      d.write.Some? ==>
        || (e.Commit? && d.write.value.status == COMPLETED)
        || (e == Fail(true) && d.job.stage.Dead? && d.write.value.status == FAILED)
  {
  }

  /** A row may change only by a success, or by the terminal failure of a job of its own type and key. */
  lemma RowChangesOnlyAtEnds(s: State, e: Event, ref: Ref)
    requires Reachable(s) && RecordAt(Step(s, e).store, ref) != RecordAt(s.store, ref)
    ensures e.OnJob? && e.ref == ref && Move(s, ref, e.event).Some?
    ensures
      || (e.event.Commit? && DoneAt(Step(s, e), ref))
      || (e.event == Fail(true) && Move(s, ref, e.event).value.job.stage.Dead?)
  {
    hide JobId, JobStep;
    ReachableIsConsistent(s);
    match e
    case OnJob(r, je) =>
      if Move(s, r, je).Some? {
        MoveFits(s, r, je);
        OnlyEndsWrite(JobOf(s, Find(s, r).value), RecordAt(s.store, r), s.clock, je);
      }
    case Enqueue(r, data, retained) => EnqueueAddsOneJob(s, r, data, retained);
    case _ => ElsewhereKeepsJobs(s, e);
  }

  /**
   * A dead job whose failure was recorded is never without a row again: whatever happens
   * later the store says FAILED, or COMPLETED where the key was submitted anew and got
   * through.
   */
  lemma DeadStayOnRecord(s: State, ref: Ref, later: seq<Event>)
    requires Reachable(s) && Move(s, ref, Fail(true)).Some? && ref.key != ""
    requires JobOf(s, Find(s, ref).value).attemptsMade == 2
    ensures
      var s' := Run(Step(s, OnJob(ref, Fail(true))), later);
      RecordAt(s'.store, ref).Some?
  {
    hide Step, Run, Move, JobId, Reachable;
    TerminalFailureIsRecorded(s, ref, true);
    RowsStay(Step(s, OnJob(ref, Fail(true))), later, ref);
  }

  // ----- The dead letter entry -----

  /** What an entry must say: everything a job was, when it died, why, and after how many attempts. */
  predicate Tells(p: DlqPayload, ref: Ref, data: Data, at: nat, reason: string) {
    && p.originalJobId == (if ref.jobName.Email? then "email_" else "webhook_") + ref.key
    && p.jobName == ref.jobName
    && p.data == data
    && p.failedAt == at
    && p.attemptsMade == 3
    && (reason != "" ==> p.failedReason == reason)
    && (reason == "" ==> p.failedReason == "Unknown error")
  }

  function EntryId(ref: Ref, at: nat): string {
    "dlq_" + (if ref.jobName.Email? then "email_" else "webhook_") + ref.key + "_" + Decimal(at)
  }

  /** The entry of every dead job whose write took effect, field by field. */
  lemma EntriesTellTheirJob(s: State, t: TaskId)
    requires Reachable(s) && HasTask(s, t) && JobOf(s, t).stage.Dead?
    requires t in s.handlers && HasLanded(s.handlers[t])
    ensures
      var j := JobOf(s, t);
      EntryId(j.ref, j.stage.at) in s.dlq
      && Tells(s.dlq[EntryId(j.ref, j.stage.at)], j.ref, j.data, j.stage.at, j.stage.reason)
  {
    hide DlqId, DlqPayloadOf, Tells, EntryId;
    var start, events :| s == Run(Init(start), events);
    RunKeepsAccounts(start, events);
    DeadJobsAreConserved(s);
    PayloadTells(JobOf(s, t));
  }

  lemma PayloadTells(j: Job)
    requires j.stage.Dead? && CountedRight(j)
    ensures DlqId(j) == EntryId(j.ref, j.stage.at) && Tells(DlqPayloadOf(j), j.ref, j.data, j.stage.at, j.stage.reason)
  {
  }

  lemma {:induction false} EndedJobsStay(s: State, t: TaskId, events: seq<Event>)
    requires Indexed(s) && HasTask(s, t) && !JobOf(s, t).Live()
    ensures
      var s' := Run(s, events);
      Indexed(s') && HasTask(s', t) && JobOf(s', t) == JobOf(s, t)
  {
    hide Step, Indexed;
    if events != [] {
      var before, e := events[..|events| - 1], events[|events| - 1];
      EndedJobsStay(s, t, before);
      StepKeepsIndexed(Run(s, before), e);
      EndedJobStays(Run(s, before), t, e);
    }
  }

  lemma EndedJobStays(s: State, t: TaskId, e: Event)
    requires Indexed(s) && HasTask(s, t) && !JobOf(s, t).Live()
    ensures HasTask(Step(s, e), t) && JobOf(Step(s, e), t) == JobOf(s, t)
  {
    hide JobId, JobStep;
    match e
    case OnJob(r, je) =>
      if Move(s, r, je).Some? {
        MoveFits(s, r, je);
        AfterApply(s, Find(s, r).value, Move(s, r, je).value, t);
      }
    case Enqueue(r, data, retained) => EnqueueAddsOneJob(s, r, data, retained);
    case _ => ElsewhereKeepsJobs(s, e);
  }

  /**
   * From the last attempt to the dead letter: the entry names the moment at which the
   * third attempt failed and the text it threw, however much later it lands.
   */
  lemma LastWordsAreKept(s: State, ref: Ref, recorded: bool, later: seq<Event>)
    requires Reachable(s) && Move(s, ref, Fail(recorded)).Some?
    requires JobOf(s, Find(s, ref).value).attemptsMade == 2
    ensures
      var t := Find(s, ref).value;
      var j := JobOf(s, t);
      var s' := Run(Step(s, OnJob(ref, Fail(recorded))), later);
      && t in s'.handlers
      && (HasLanded(s'.handlers[t]) ==>
            && EntryId(ref, s.clock) in s'.dlq
            && Tells(s'.dlq[EntryId(ref, s.clock)], ref, j.data, s.clock, j.stage.reason))
  {
    hide JobId, Tells, EntryId, JobStep, Apply;
    var start, events :| s == Run(Init(start), events);
    RunKeepsAccounts(start, events);
    TerminalFailureIsRecorded(s, ref, recorded);
    var e := OnJob(ref, Fail(recorded));
    var t := Find(s, ref).value;
    MoveFits(s, ref, Fail(recorded));
    AfterApply(s, t, Move(s, ref, Fail(recorded)).value, t);
    StepKeepsIndexed(s, e);
    EndedJobsStay(Step(s, e), t, later);
    assert (events + [e])[..|events|] == events;
    RunAppend(Init(start), events + [e], later);
    var s' := Run(Step(s, e), later);
    assert s' == Run(Init(start), events + [e] + later);
    DeadJobsAreConserved(s');
    if HasLanded(s'.handlers[t]) {
      EntriesTellTheirJob(s', t);
    }
  }
}
