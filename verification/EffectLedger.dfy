/**
 * What the idempotency store is for: no success without work, duplicates only where
 * they are paid for, and completed records that never change.
 */
module EffectLedger {
  import opened Basics
  import opened IdempotencyStore
  import opened Pipeline

  function One(b: bool): nat {
    if b then 1 else 0
  }

  predicate DoneAt(s: State, ref: Ref) {
    IsDone(RecordAt(s.store, ref))
  }

  /** A result agrees with the row that backs it; a replay repeats its time, a first answer is no earlier. */
  predicate Replays(r: ExecutionResult, row: Option<Record>) {
    && IsDone(row)
    && row.value.result == r.data
    && row.value.createdAt.Some?
    && (if r.isDuplicate then r.processedAt == row.value.createdAt.value
        else row.value.createdAt.value <= r.processedAt)
  }

  /** Between its check and its record a job's row is not yet COMPLETED; after, it backs the result. */
  predicate StageFits(j: Job, row: Option<Record>) {
    match j.stage
    case Acting => !IsDone(row)
    case Acted(_) => !IsDone(row)
    case Throwing(_) => !IsDone(row)
    case Returning(r) => r.ref == j.ref && Replays(r, row)
    case Finished(r) => r.ref == j.ref && Replays(r, row)
    case _ => true
  }

  ghost predicate RowsDated(s: State) {
    forall ref | ref in s.store :: s.store[ref].createdAt.Some?
  }

  ghost predicate Consistent(s: State) {
    && RowsDated(s)
    && (forall t | HasTask(s, t) :: StageFits(JobOf(s, t), RecordAt(s.store, JobOf(s, t).ref)))
    && (forall i | 0 <= i < |s.results| :: Replays(s.results[i], RecordAt(s.store, s.results[i].ref)))
  }

  function RowAfter(row: Option<Record>, d: Delta): Option<Record> {
    if d.write.Some? then d.write else row
  }

  /** What one event does to one job and its row, with everything else out of sight. */
  lemma JobStepIsConsistent(j: Job, row: Option<Record>, now: nat, e: JobEvent)
    requires StageFits(j, row) && (row.Some? ==> row.value.createdAt.Some?)
    requires JobStep(j, row, now, e).Some?
    ensures
      var d := JobStep(j, row, now, e).value;
      && StageFits(d.job, RowAfter(row, d))
      && (d.write.Some? ==> !IsDone(row) && d.write.value.createdAt.Some?)
      && (d.result.Some? ==> d.result.value.ref == j.ref && Replays(d.result.value, RowAfter(row, d)))
  {
  }

  lemma JobStepBalances(j: Job, row: Option<Record>, now: nat, e: JobEvent)
    requires StageFits(j, row) && JobStep(j, row, now, e).Some?
    ensures
      var d := JobStep(j, row, now, e).value;
      && One(d.effect.Some?) + One(IsDone(row)) + One(j.stage.Acted?)
         == One(d.cut) + One(IsDone(RowAfter(row, d))) + One(d.job.stage.Acted?)
  {
  }

  lemma ApplyKeepsConsistent(s: State, t: TaskId, d: Delta)
    requires Indexed(s) && Consistent(s) && Fits(s, t, d)
    requires StageFits(d.job, RowAfter(RecordAt(s.store, d.job.ref), d))
    requires d.write.Some? ==> !DoneAt(s, d.job.ref) && d.write.value.createdAt.Some?
    requires d.result.Some? ==>
      d.result.value.ref == d.job.ref && Replays(d.result.value, RowAfter(RecordAt(s.store, d.job.ref), d))
    ensures Consistent(Apply(s, t, d))
  {
    var s' := Apply(s, t, d);
    forall u | HasTask(s', u)
      ensures StageFits(JobOf(s', u), RecordAt(s'.store, JobOf(s', u).ref))
    {
      AfterApply(s, t, d, u);
      assert StageFits(JobOf(s, u), RecordAt(s.store, JobOf(s, u).ref));
      if u != t && JobOf(s, u).ref == d.job.ref {
        assert !JobOf(s, u).Live();
      }
    }
    forall i | 0 <= i < |s'.results|
      ensures Replays(s'.results[i], RecordAt(s'.store, s'.results[i].ref))
    {
      if i < |s.results| {
        assert Replays(s.results[i], RecordAt(s.store, s.results[i].ref));
      }
    }
  }

  /** The local view of an event that happens to the job for `ref`. */
  lemma MoveIsConsistent(s: State, ref: Ref, e: JobEvent)
    requires Indexed(s) && Consistent(s) && Move(s, ref, e).Some?
    ensures Find(s, ref).Some? && Fits(s, Find(s, ref).value, Move(s, ref, e).value)
    ensures Move(s, ref, e).value.job.ref == ref
    ensures
      var d := Move(s, ref, e).value;
      var row := RecordAt(s.store, ref);
      && StageFits(d.job, RowAfter(row, d))
      && (d.write.Some? ==> !IsDone(row) && d.write.value.createdAt.Some?)
      && (d.result.Some? ==> d.result.value.ref == ref && Replays(d.result.value, RowAfter(row, d)))
      && One(d.effect.Some?) + One(IsDone(row)) + One(JobOf(s, Find(s, ref).value).stage.Acted?)
         == One(d.cut) + One(IsDone(RowAfter(row, d))) + One(d.job.stage.Acted?)
  {
    MoveFits(s, ref, e);
    var j := JobOf(s, Find(s, ref).value);
    assert StageFits(j, RecordAt(s.store, j.ref));
    JobStepIsConsistent(j, RecordAt(s.store, ref), s.clock, e);
    JobStepBalances(j, RecordAt(s.store, ref), s.clock, e);
  }

  lemma StepKeepsConsistent(s: State, e: Event)
    requires Indexed(s) && Consistent(s)
    ensures Consistent(Step(s, e))
  {
    match e
    case OnJob(ref, je) =>
      if Move(s, ref, je).Some? {
        MoveIsConsistent(s, ref, je);
        ApplyKeepsConsistent(s, Find(s, ref).value, Move(s, ref, je).value);
      }
    case Enqueue(ref, data, retained) =>
      EnqueueAddsOneJob(s, ref, data, retained);
      var s' := AfterEnqueue(s, ref, data, retained);
      forall u | HasTask(s', u)
        ensures StageFits(JobOf(s', u), RecordAt(s'.store, JobOf(s', u).ref))
      {
        if HasTask(s, u) {
          assert StageFits(JobOf(s, u), RecordAt(s.store, JobOf(s, u).ref));
        }
      }
    case _ =>
      ElsewhereKeepsJobs(s, e);
  }

  lemma {:induction false} RunIsConsistent(start: nat, events: seq<Event>)
    ensures Indexed(Run(Init(start), events)) && Consistent(Run(Init(start), events))
  {
    if events != [] {
      var before := events[..|events| - 1];
      RunIsConsistent(start, before);
      StepKeepsIndexed(Run(Init(start), before), events[|events| - 1]);
      StepKeepsConsistent(Run(Init(start), before), events[|events| - 1]);
    }
  }

  lemma ReachableIsConsistent(s: State)
    requires Reachable(s)
    ensures Indexed(s) && Consistent(s)
  {
    var start, events :| s == Run(Init(start), events);
    RunIsConsistent(start, events);
  }

  // ----- Permanence -----

  /**
   * A COMPLETED row is never touched again, although the failure upsert carries no
   * guard of its own: no job can fail while its row is COMPLETED.
   */
  lemma CompletedIsPermanent(s: State, e: Event, ref: Ref)
    requires Reachable(s) && DoneAt(s, ref)
    ensures RecordAt(Step(s, e).store, ref) == RecordAt(s.store, ref)
  {
    ReachableIsConsistent(s);
    CompletedStays(s, e, ref);
  }

  lemma CompletedStays(s: State, e: Event, ref: Ref)
    requires Indexed(s) && Consistent(s) && DoneAt(s, ref)
    ensures RecordAt(Step(s, e).store, ref) == RecordAt(s.store, ref)
  {
    match e
    case OnJob(r, je) =>
      if Move(s, r, je).Some? {
        MoveIsConsistent(s, r, je);
      }
    case Enqueue(r, data, retained) => EnqueueAddsOneJob(s, r, data, retained);
    case _ => ElsewhereKeepsJobs(s, e);
  }

  /**
   * Every execution of one (type, key) that ever returned reports the same data, and
   * all duplicates the same time: that of the row, for good, and no later than the time
   * the first answer gave.
   */
  lemma ReplayIsStable(s: State, i: nat, k: nat)
    requires Reachable(s) && i < |s.results| && k < |s.results| && s.results[i].ref == s.results[k].ref
    ensures s.results[i].data == s.results[k].data
    ensures s.results[i].isDuplicate && s.results[k].isDuplicate
            ==> s.results[i].processedAt == s.results[k].processedAt
    ensures s.results[i].isDuplicate && !s.results[k].isDuplicate
            ==> s.results[i].processedAt <= s.results[k].processedAt
  {
    ReachableIsConsistent(s);
    assert Replays(s.results[i], RecordAt(s.store, s.results[i].ref));
    assert Replays(s.results[k], RecordAt(s.store, s.results[k].ref));
  }

  // ----- Accounting for effects -----

  function EffectCount(effects: seq<Effect>, ref: Ref): nat {
    if effects == [] then 0
    else EffectCount(effects[..|effects| - 1], ref) + (if effects[|effects| - 1].ref == ref then 1 else 0)
  }

  lemma EffectCountSnoc(effects: seq<Effect>, x: Effect, ref: Ref)
    ensures EffectCount(effects + [x], ref) == EffectCount(effects, ref) + (if x.ref == ref then 1 else 0)
  {
    assert (effects + [x])[..|effects|] == effects;
  }

  /** The job for this ref has performed its effect and not yet recorded it. */
  predicate Pending(s: State, ref: Ref) {
    Find(s, ref).Some? && JobOf(s, Find(s, ref).value).stage.Acted?
  }

  ghost predicate BooksBalance(s: State, ref: Ref) {
    EffectCount(s.effects, ref) == Count(s.cutOff, ref) + One(DoneAt(s, ref)) + One(Pending(s, ref))
  }

  lemma PendingAfterApply(s: State, t: TaskId, d: Delta, ref: Ref)
    requires Indexed(s) && Fits(s, t, d)
    ensures Pending(Apply(s, t, d), ref) == if ref == d.job.ref then d.job.stage.Acted? else Pending(s, ref)
  {
    JobIdIsInjective(ref, d.job.ref);
    AfterApply(s, t, d, t);
    if ref == d.job.ref {
      assert Find(s, ref) == Some(t);
    } else if Find(s, ref).Some? {
      AfterApply(s, t, d, Find(s, ref).value);
    }
  }

  lemma CountsAfterApply(s: State, t: TaskId, d: Delta, ref: Ref)
    requires HasTask(s, t)
    ensures
      var s' := Apply(s, t, d);
      && EffectCount(s'.effects, ref) == EffectCount(s.effects, ref) + One(ref == d.job.ref && d.effect.Some?)
      && Count(s'.cutOff, ref) == Count(s.cutOff, ref) + One(ref == d.job.ref && d.cut)
      && RecordAt(s'.store, ref)
         == if ref == d.job.ref then RowAfter(RecordAt(s.store, ref), d) else RecordAt(s.store, ref)
  {
    if d.effect.Some? {
      EffectCountSnoc(s.effects, Effect(d.job.ref, d.effect.value), ref);
    }
    CountSnoc(s.cutOff, d.job.ref, ref);
  }

  lemma ApplyKeepsBooks(s: State, t: TaskId, d: Delta, ref: Ref)
    requires Indexed(s) && Fits(s, t, d) && BooksBalance(s, ref)
    requires
      var row := RecordAt(s.store, d.job.ref);
      One(d.effect.Some?) + One(IsDone(row)) + One(JobOf(s, t).stage.Acted?)
        == One(d.cut) + One(IsDone(RowAfter(row, d))) + One(d.job.stage.Acted?)
    ensures BooksBalance(Apply(s, t, d), ref)
  {
    PendingAfterApply(s, t, d, ref);
    CountsAfterApply(s, t, d, ref);
    assert Find(s, d.job.ref) == Some(t);
  }

  lemma StepKeepsBooks(s: State, e: Event, ref: Ref)
    requires Indexed(s) && Consistent(s) && BooksBalance(s, ref)
    ensures BooksBalance(Step(s, e), ref)
  {
    match e
    case OnJob(r, je) =>
      if Move(s, r, je).Some? {
        MoveIsConsistent(s, r, je);
        ApplyKeepsBooks(s, Find(s, r).value, Move(s, r, je).value, ref);
      }
    case Enqueue(r, data, retained) =>
      EnqueueAddsOneJob(s, r, data, retained);
      var s' := AfterEnqueue(s, r, data, retained);
      assert Pending(s', ref) == Pending(s, ref);
    case _ =>
      ElsewhereKeepsJobs(s, e);
      var s' := Step(s, e);
      assert Find(s', ref) == Find(s, ref);
  }

  lemma {:induction false} RunKeepsBooks(start: nat, events: seq<Event>, ref: Ref)
    ensures BooksBalance(Run(Init(start), events), ref)
  {
    if events != [] {
      var before := events[..|events| - 1];
      RunIsConsistent(start, before);
      RunKeepsBooks(start, before, ref);
      StepKeepsBooks(Run(Init(start), before), events[|events| - 1], ref);
    }
  }

  /**
   * Exact accounting in every reachable state: each effect for a (type, key) is the
   * recorded one, or the one about to be recorded, or was cut off from its record by a
   * crash, a failed write or a lost answer.
   */
  lemma EffectsArePaidFor(s: State, ref: Ref)
    requires Reachable(s)
    ensures EffectCount(s.effects, ref) == Count(s.cutOff, ref) + One(DoneAt(s, ref)) + One(Pending(s, ref))
    ensures !(DoneAt(s, ref) && Pending(s, ref))
    ensures EffectCount(s.effects, ref) <= 1 + Count(s.cutOff, ref)
  {
    var start, events :| s == Run(Init(start), events);
    RunKeepsBooks(start, events, ref);
    RunIsConsistent(start, events);
    if Pending(s, ref) {
      var t := Find(s, ref).value;
      JobIdIsInjective(ref, JobOf(s, t).ref);
      assert StageFits(JobOf(s, t), RecordAt(s.store, ref));
    }
  }

  // ----- No success without work -----

  predicate Performed(s: State, ref: Ref, data: string) {
    Effect(ref, data) in s.effects
  }

  ghost predicate Backed(s: State) {
    && (forall ref | DoneAt(s, ref) :: Performed(s, ref, s.store[ref].result))
    && (forall t | HasTask(s, t) && JobOf(s, t).stage.Acted? :: Performed(s, JobOf(s, t).ref, JobOf(s, t).stage.data))
  }

  lemma JobStepIsBacked(j: Job, row: Option<Record>, now: nat, e: JobEvent)
    requires JobStep(j, row, now, e).Some?
    ensures
      var d := JobStep(j, row, now, e).value;
      && (d.job.stage.Acted? ==> d.effect == Some(d.job.stage.data))
      && (d.write.Some? && d.write.value.status == COMPLETED ==>
            j.stage.Acted? && d.write.value.result == j.stage.data)
  {
  }

  lemma ApplyKeepsBacked(s: State, t: TaskId, d: Delta)
    requires Indexed(s) && Fits(s, t, d) && Backed(s)
    requires d.job.stage.Acted? ==> d.effect == Some(d.job.stage.data)
    requires d.write.Some? && d.write.value.status == COMPLETED
             ==> JobOf(s, t).stage.Acted? && d.write.value.result == JobOf(s, t).stage.data
    ensures Backed(Apply(s, t, d))
  {
    var s' := Apply(s, t, d);
    assert forall x | x in s.effects :: x in s'.effects;
    assert d.effect.Some? ==> s'.effects[|s.effects|] == Effect(d.job.ref, d.effect.value);
    forall u | HasTask(s', u) && JobOf(s', u).stage.Acted?
      ensures Performed(s', JobOf(s', u).ref, JobOf(s', u).stage.data)
    {
      AfterApply(s, t, d, u);
    }
    forall ref | DoneAt(s', ref)
      ensures Performed(s', ref, s'.store[ref].result)
    {
      if ref == d.job.ref && d.write.Some? {
        assert Performed(s, ref, JobOf(s, t).stage.data);
      } else {
        assert DoneAt(s, ref);
      }
    }
  }

  lemma StepKeepsBacked(s: State, e: Event)
    requires Indexed(s) && Backed(s)
    ensures Backed(Step(s, e))
  {
    match e
    case OnJob(r, je) =>
      if Move(s, r, je).Some? {
        MoveFits(s, r, je);
        JobStepIsBacked(JobOf(s, Find(s, r).value), RecordAt(s.store, r), s.clock, je);
        ApplyKeepsBacked(s, Find(s, r).value, Move(s, r, je).value);
      }
    case Enqueue(r, data, retained) =>
      EnqueueAddsOneJob(s, r, data, retained);
      var s' := AfterEnqueue(s, r, data, retained);
      assert forall ref | DoneAt(s', ref) :: DoneAt(s, ref);
    case _ =>
      ElsewhereKeepsJobs(s, e);
      var s' := Step(s, e);
      assert forall ref | DoneAt(s', ref) :: DoneAt(s, ref);
  }

  lemma {:induction false} RunIsBacked(start: nat, events: seq<Event>)
    ensures Backed(Run(Init(start), events))
  {
    if events != [] {
      var before := events[..|events| - 1];
      RunIsConsistent(start, before);
      RunIsBacked(start, before);
      StepKeepsBacked(Run(Init(start), before), events[|events| - 1]);
    }
  }

  /**
   * Every success ever returned, first-hand or replayed, names work that was really
   * done for the same type and key with the same outcome; so does every COMPLETED row.
   */
  lemma NoSuccessWithoutWork(s: State)
    requires Reachable(s)
    ensures forall i | 0 <= i < |s.results| :: Performed(s, s.results[i].ref, s.results[i].data)
    ensures forall ref | DoneAt(s, ref) :: Performed(s, ref, s.store[ref].result)
  {
    var start, events :| s == Run(Init(start), events);
    RunIsBacked(start, events);
    RunIsConsistent(start, events);
    forall i | 0 <= i < |s.results|
      ensures Performed(s, s.results[i].ref, s.results[i].data)
    {
      assert Replays(s.results[i], RecordAt(s.store, s.results[i].ref));
      assert DoneAt(s, s.results[i].ref);
    }
  }

  // ----- The histories are complete -----

  /** The result a job is about to return, or has returned, is on record. */
  ghost predicate ResultsLogged(s: State) {
    forall t | HasTask(s, t) ::
      match JobOf(s, t).stage
      case Returning(r) => r in s.results
      case Finished(r) => r in s.results
      case _ => true
  }

  lemma JobStepLogs(j: Job, row: Option<Record>, now: nat, e: JobEvent)
    requires JobStep(j, row, now, e).Some?
    ensures
      var d := JobStep(j, row, now, e).value;
      && (d.job.stage.Returning? ==> d.result == Some(d.job.stage.result))
      && (d.job.stage.Finished? ==> j.stage == Returning(d.job.stage.result))
  {
  }

  lemma ApplyKeepsLogged(s: State, t: TaskId, d: Delta)
    requires ResultsLogged(s) && HasTask(s, t)
    requires d.job.stage.Returning? ==> d.result == Some(d.job.stage.result)
    requires d.job.stage.Finished? ==> JobOf(s, t).stage == Returning(d.job.stage.result)
    ensures ResultsLogged(Apply(s, t, d))
  {
    var s' := Apply(s, t, d);
    assert forall r | r in s.results :: r in s'.results;
    assert d.result.Some? ==> s'.results[|s.results|] == d.result.value;
    forall u | HasTask(s', u)
      ensures match JobOf(s', u).stage
              case Returning(r) => r in s'.results
              case Finished(r) => r in s'.results
              case _ => true
    {
      AfterApply(s, t, d, u);
    }
  }

  lemma StepKeepsLogged(s: State, e: Event)
    requires Indexed(s) && ResultsLogged(s)
    ensures ResultsLogged(Step(s, e))
  {
    hide JobStep, JobId, Apply;
    match e
    case OnJob(r, je) =>
      if Move(s, r, je).Some? {
        MoveFits(s, r, je);
        JobStepLogs(JobOf(s, Find(s, r).value), RecordAt(s.store, r), s.clock, je);
        ApplyKeepsLogged(s, Find(s, r).value, Move(s, r, je).value);
      }
    case Enqueue(r, data, retained) => EnqueueAddsOneJob(s, r, data, retained);
    case _ => ElsewhereKeepsJobs(s, e);
  }

  lemma {:induction false} RunKeepsLogged(start: nat, events: seq<Event>)
    ensures ResultsLogged(Run(Init(start), events))
  {
    if events != [] {
      var before := events[..|events| - 1];
      RunIsConsistent(start, before);
      RunKeepsLogged(start, before);
      StepKeepsLogged(Run(Init(start), before), events[|events| - 1]);
    }
  }

  /** A finished job's result is among those the theorems above speak of: it is backed by its row and by work done. */
  lemma FinishedJobsAreBacked(s: State, t: TaskId)
    requires Reachable(s) && HasTask(s, t) && JobOf(s, t).stage.Finished?
    ensures
      var r := JobOf(s, t).stage.result;
      && r in s.results && r.ref == JobOf(s, t).ref
      && Replays(r, RecordAt(s.store, r.ref)) && Performed(s, r.ref, r.data)
  {
    var start, events :| s == Run(Init(start), events);
    RunKeepsLogged(start, events);
    ReachableIsConsistent(s);
    NoSuccessWithoutWork(s);
    assert StageFits(JobOf(s, t), RecordAt(s.store, JobOf(s, t).ref));
  }

  /**
   * The times: a first success is recorded at the moment of the write and answers with
   * the moment of the answer, `lag` later; a replay answers with the recorded moment.
   */
  lemma SuccessesAreDated(s: State, ref: Ref, e: JobEvent)
    requires Reachable(s) && Move(s, ref, e).Some? && Move(s, ref, e).value.result.Some?
    ensures
      var j := JobOf(s, Find(s, ref).value);
      var s' := Step(s, OnJob(ref, e));
      && (e.Check? || e.Commit?)
      && (e.Commit? ==>
            && RecordAt(s'.store, ref) == Some(Record(COMPLETED, j.stage.data, Some(s.clock)))
            && s'.results == s.results + [ExecutionResult(ref, j.stage.data, s.clock + e.lag, false)])
      && (e.Check? ==>
            && s'.store == s.store && DoneAt(s, ref) && s.store[ref].createdAt.Some?
            && s'.results
               == s.results + [ExecutionResult(ref, s.store[ref].result, s.store[ref].createdAt.value, true)])
  {
    hide JobStep, JobId, Apply;
    ReachableIsConsistent(s);
    MoveFits(s, ref, e);
    var t := Find(s, ref).value;
    assert RowsDated(s);
    JobStepDates(JobOf(s, t), RecordAt(s.store, ref), s.clock, e);
    HistoriesAfterMove(s, t, Move(s, ref, e).value);
  }

  lemma JobStepDates(j: Job, row: Option<Record>, now: nat, e: JobEvent)
    requires JobStep(j, row, now, e).Some? && JobStep(j, row, now, e).value.result.Some?
    requires row.Some? ==> row.value.createdAt.Some?
    ensures
      var d := JobStep(j, row, now, e).value;
      && (e.Check? || e.Commit?)
      && (e.Commit? ==>
            && j.stage.Acted? && d.write == Some(Record(COMPLETED, j.stage.data, Some(now)))
            && d.result == Some(ExecutionResult(j.ref, j.stage.data, now + e.lag, false)))
      && (e.Check? ==>
            && d.write.None? && IsDone(row)
            && d.result == Some(ExecutionResult(j.ref, row.value.result, row.value.createdAt.value, true)))
  {
  }

  lemma HistoriesAfterMove(s: State, t: TaskId, d: Delta)
    requires HasTask(s, t) && d.result.Some?
    ensures Apply(s, t, d).results == s.results + [d.result.value]
    ensures Apply(s, t, d).store == if d.write.Some? then s.store[d.job.ref := d.write.value] else s.store
  {
  }

  // ----- Why duplicates cannot be ruled out -----

  /** One event of the machine, seen from the job it happens to. */
  lemma OneEvent(s: State, t: TaskId, e: JobEvent)
    requires Indexed(s) && HasTask(s, t) && JobOf(s, t).Live()
    ensures
      var j := JobOf(s, t);
      var d := JobStep(j, RecordAt(s.store, j.ref), s.clock, e);
      var s' := Step(s, OnJob(j.ref, e));
      && Find(s, j.ref) == Some(t) && Move(s, j.ref, e) == d
      && (d.None? ==> s' == s)
      && (d.Some? ==>
            && Indexed(s') && HasTask(s', t) && JobOf(s', t) == d.value.job && d.value.job.ref == j.ref
            && s'.clock == s.clock
            && RecordAt(s'.store, j.ref) == RowAfter(RecordAt(s.store, j.ref), d.value)
            && (forall other | other != j.ref :: RecordAt(s'.store, other) == RecordAt(s.store, other))
            && s'.handlers == (if d.value.job.stage.Dead? then s.handlers[t := Sending] else s.handlers)
            && s'.effects == s.effects + (if d.value.effect.Some? then [Effect(j.ref, d.value.effect.value)] else []))
  {
    hide JobStep, JobId;
    var j := JobOf(s, t);
    StepKeepsIndexed(s, OnJob(j.ref, e));
    if Move(s, j.ref, e).Some? {
      MoveFits(s, j.ref, e);
      AfterApply(s, t, Move(s, j.ref, e).value, t);
    }
  }

  /** A delivery up to its side effect: the row is still what it was. */
  lemma DeliveryPerforms(s: State, t: TaskId, d: string)
    requires Indexed(s) && HasTask(s, t)
    requires JobOf(s, t).stage.Waiting? && JobOf(s, t).readyAt <= s.clock && !DoneAt(s, JobOf(s, t).ref)
    ensures
      var ref := JobOf(s, t).ref;
      var s' := Step(Step(Step(s, OnJob(ref, Start)), OnJob(ref, Check)), OnJob(ref, Act(Done(d))));
      && Indexed(s') && HasTask(s', t) && JobOf(s', t) == JobOf(s, t).(stage := Acted(d))
      && s'.clock == s.clock && !DoneAt(s', ref)
      && s'.effects == s.effects + [Effect(ref, d)]
  {
    hide Step, Indexed, JobId, Find, Move;
    var ref := JobOf(s, t).ref;
    var s1 := Step(s, OnJob(ref, Start));
    var s2 := Step(s1, OnJob(ref, Check));
    OneEvent(s, t, Start);
    assert JobOf(s1, t) == JobOf(s, t).(stage := Checking);
    OneEvent(s1, t, Check);
    assert JobOf(s2, t) == JobOf(s, t).(stage := Acting);
    OneEvent(s2, t, Act(Done(d)));
  }

  /** Whether an attempt that ends this way has had its side effect, as far as it gets one. */
  predicate TakesEffect(outcome: Outcome) {
    match outcome
    case Done(_) => true
    case Rejected(_) => false
    case Lost(_, delivered, _) => delivered
  }

  /**
   * A delivery whose side effect would take place skips it exactly when it is on record:
   * having happened is not enough.
   */
  lemma DeliverySkipsIffRecorded(s: State, t: TaskId, outcome: Outcome)
    requires Reachable(s) && HasTask(s, t)
    requires JobOf(s, t).stage.Waiting? && JobOf(s, t).readyAt <= s.clock
    requires JobOf(s, t).ref.jobName.Email? ==> outcome.Done?
    ensures
      var ref := JobOf(s, t).ref;
      var s' := Step(Step(Step(s, OnJob(ref, Start)), OnJob(ref, Check)), OnJob(ref, Act(outcome)));
      s'.effects == s.effects <==> DoneAt(s, ref) || !TakesEffect(outcome)
  {
    hide Step, Indexed, JobId, Find, Move;
    ReachableIsConsistent(s);
    var ref := JobOf(s, t).ref;
    var s1 := Step(s, OnJob(ref, Start));
    var s2 := Step(s1, OnJob(ref, Check));
    OneEvent(s, t, Start);
    assert JobOf(s1, t) == JobOf(s, t).(stage := Checking) && s1.effects == s.effects;
    OneEvent(s1, t, Check);
    assert (JobOf(s2, t).stage.Acting? <==> !DoneAt(s, ref)) && JobOf(s2, t).ref == ref && s2.effects == s.effects;
    OneEvent(s2, t, Act(outcome));
  }

  /**
   * A worker lost between the side effect and its record: whatever the job and its
   * history, the redelivery performs the effect again, because the check looks only at
   * the record.
   */
  lemma CrashRepeatsTheEffect(s: State, t: TaskId, first: string, second: string)
    requires Reachable(s) && HasTask(s, t)
    requires JobOf(s, t).stage.Waiting? && JobOf(s, t).readyAt <= s.clock && !DoneAt(s, JobOf(s, t).ref)
    ensures
      var ref := JobOf(s, t).ref;
      var acted := Step(Step(Step(s, OnJob(ref, Start)), OnJob(ref, Check)), OnJob(ref, Act(Done(first))));
      var cut := Step(acted, OnJob(ref, Crash));
      var s' := Step(Step(Step(cut, OnJob(ref, Start)), OnJob(ref, Check)), OnJob(ref, Act(Done(second))));
      s'.effects == s.effects + [Effect(ref, first), Effect(ref, second)]
  {
    hide Step, Indexed, JobId, Find, Move;
    ReachableIsConsistent(s);
    var ref := JobOf(s, t).ref;
    DeliveryPerforms(s, t, first);
    var acted := Step(Step(Step(s, OnJob(ref, Start)), OnJob(ref, Check)), OnJob(ref, Act(Done(first))));
    OneEvent(acted, t, Crash);
    DeliveryPerforms(Step(acted, OnJob(ref, Crash)), t, second);
  }
}
