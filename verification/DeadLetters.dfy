/**
 * The dead letter queue keeps exactly what died: no entry without a terminal failure,
 * none lost except to a failed write, none swallowed by an id already taken.
 */
module DeadLetters {
  import opened Basics
  import opened IdempotencyStore
  import opened Pipeline
  import opened Attempts

  // ----- Time: two deaths under one id are never simultaneous -----

  predicate InHand(stage: Stage) {
    stage.Checking? || stage.Acting? || stage.Acted? || stage.Returning? || stage.Throwing?
  }

  /** Once an attempt has failed, its backoff separates everything later from the enqueue. */
  predicate Timed(j: Job, now: nat) {
    && j.enqueuedAt <= j.readyAt
    && j.enqueuedAt <= now
    && (j.attemptsMade > 0 && j.Live() ==> j.enqueuedAt < j.readyAt)
    && (j.attemptsMade > 0 && InHand(j.stage) ==> j.enqueuedAt < now)
    && (j.stage.Dead? ==> j.enqueuedAt < j.stage.at <= now)
  }

  /** An earlier job under the same id is over before a later one is enqueued. */
  predicate Succeeds(j: Job, later: Job) {
    j.ref == later.ref ==> !j.Live() && (j.stage.Dead? ==> j.stage.at <= later.enqueuedAt)
  }

  ghost predicate Timeline(s: State) {
    && (forall t | HasTask(s, t) :: Timed(JobOf(s, t), s.clock))
    && (forall t, u | HasTask(s, t) && HasTask(s, u) && t.jobType == u.jobType && t.serial < u.serial ::
          Succeeds(JobOf(s, t), JobOf(s, u)))
  }

  lemma JobStepIsTimed(j: Job, row: Option<Record>, now: nat, e: JobEvent)
    requires j.Live() && CountedRight(j) && Timed(j, now) && JobStep(j, row, now, e).Some?
    ensures Timed(JobStep(j, row, now, e).value.job, now)
  {
  }

  lemma ApplyKeepsTimeline(s: State, t: TaskId, d: Delta)
    requires Indexed(s) && Timeline(s) && Fits(s, t, d) && Timed(d.job, s.clock)
    ensures Timeline(Apply(s, t, d))
  {
    var s' := Apply(s, t, d);
    forall u | HasTask(s', u)
      ensures Timed(JobOf(s', u), s'.clock)
    {
      AfterApply(s, t, d, u);
      assert HasTask(s, u) ==> Timed(JobOf(s, u), s.clock);
    }
    forall u, v | HasTask(s', u) && HasTask(s', v) && u.jobType == v.jobType && u.serial < v.serial
      ensures Succeeds(JobOf(s', u), JobOf(s', v))
    {
      AfterApply(s, t, d, u);
      AfterApply(s, t, d, v);
      assert Succeeds(JobOf(s, u), JobOf(s, v));
    }
  }

  lemma EnqueueKeepsTimeline(s: State, ref: Ref, data: Data, retained: bool)
    requires Indexed(s) && Timeline(s)
    ensures Timeline(AfterEnqueue(s, ref, data, retained))
  {
    EnqueueAddsOneJob(s, ref, data, retained);
    var s' := AfterEnqueue(s, ref, data, retained);
    forall u | HasTask(s', u)
      ensures Timed(JobOf(s', u), s'.clock)
    {
      assert HasTask(s, u) ==> Timed(JobOf(s, u), s.clock);
    }
    forall u, v | HasTask(s', u) && HasTask(s', v) && u.jobType == v.jobType && u.serial < v.serial
      ensures Succeeds(JobOf(s', u), JobOf(s', v))
    {
      assert HasTask(s, u) && Timed(JobOf(s, u), s.clock);
      if HasTask(s, v) {
        assert Succeeds(JobOf(s, u), JobOf(s, v));
      }
    }
  }

  lemma StepKeepsTimeline(s: State, e: Event)
    requires Indexed(s) && Accounts(s) && Timeline(s)
    ensures Timeline(Step(s, e))
  {
    hide Indexed, JobStep;
    match e
    case OnJob(r, je) =>
      if Move(s, r, je).Some? {
        MoveFits(s, r, je);
        var t := Find(s, r).value;
        assert CountedRight(JobOf(s, t)) && Timed(JobOf(s, t), s.clock);
        JobStepIsTimed(JobOf(s, t), RecordAt(s.store, r), s.clock, je);
        ApplyKeepsTimeline(s, t, Move(s, r, je).value);
      }
    case Enqueue(r, data, retained) => EnqueueKeepsTimeline(s, r, data, retained);
    case _ =>
      ElsewhereKeepsJobs(s, e);
      var s' := Step(s, e);
      forall u | HasTask(s', u)
        ensures Timed(JobOf(s', u), s'.clock)
      {
        assert Timed(JobOf(s, u), s.clock);
      }
      forall u, v | HasTask(s', u) && HasTask(s', v) && u.jobType == v.jobType && u.serial < v.serial
        ensures Succeeds(JobOf(s', u), JobOf(s', v))
      {
        assert Succeeds(JobOf(s, u), JobOf(s, v));
      }
  }

  // ----- Ids -----

  lemma {:induction false} LastUnderscoreSplits(x: string, m: string, y: string, n: string)
    requires '_' !in m && '_' !in n
    requires x + "_" + m == y + "_" + n
    ensures x == y && m == n
  {
    var a, b := x + "_" + m, y + "_" + n;
    assert a[|a| - 1] == (if m == "" then '_' else m[|m| - 1]);
    assert b[|b| - 1] == (if n == "" then '_' else n[|n| - 1]);
    if m != "" {
      assert a[..|a| - 1] == x + "_" + m[..|m| - 1];
      assert b[..|b| - 1] == y + "_" + n[..|n| - 1];
      LastUnderscoreSplits(x, m[..|m| - 1], y, n[..|n| - 1]);
      assert m == m[..|m| - 1] + [m[|m| - 1]] && n == n[..|n| - 1] + [n[|n| - 1]];
    } else {
      assert a[..|a| - 1] == x && b[..|b| - 1] == y;
    }
  }

  /** An entry's id can be read back: which job, and when it died. */
  lemma DlqIdIsReadable(j: Job, k: Job)
    requires j.stage.Dead? && k.stage.Dead? && DlqId(j) == DlqId(k)
    ensures j.ref == k.ref && j.stage.at == k.stage.at
  {
    DecimalIsDigits(j.stage.at);
    DecimalIsDigits(k.stage.at);
    LastUnderscoreSplits("dlq_" + JobId(j.ref), Decimal(j.stage.at), "dlq_" + JobId(k.ref), Decimal(k.stage.at));
    assert ("dlq_" + JobId(j.ref))[4..] == JobId(j.ref) && ("dlq_" + JobId(k.ref))[4..] == JobId(k.ref);
    JobIdIsInjective(j.ref, k.ref);
    DecimalIsInjective(j.stage.at, k.stage.at);
  }

  lemma DeathsAreOrdered(s: State, t: TaskId, u: TaskId)
    requires Timeline(s) && HasTask(s, t) && HasTask(s, u) && t.jobType == u.jobType && t.serial < u.serial
    requires JobOf(s, t).stage.Dead? && JobOf(s, u).stage.Dead? && JobOf(s, t).ref == JobOf(s, u).ref
    ensures JobOf(s, t).stage.at < JobOf(s, u).stage.at
  {
    assert Succeeds(JobOf(s, t), JobOf(s, u)) && Timed(JobOf(s, u), s.clock);
  }

  lemma DlqIdsAreDistinct(s: State, t: TaskId, u: TaskId)
    requires Indexed(s) && Timeline(s) && HasTask(s, t) && HasTask(s, u)
    requires JobOf(s, t).stage.Dead? && JobOf(s, u).stage.Dead? && DlqId(JobOf(s, t)) == DlqId(JobOf(s, u))
    ensures t == u
  {
    DlqIdIsReadable(JobOf(s, t), JobOf(s, u));
    assert t.jobType == u.jobType;
    if t.serial < u.serial {
      DeathsAreOrdered(s, t, u);
    } else if u.serial < t.serial {
      DeathsAreOrdered(s, u, t);
    }
  }

  // ----- Conservation -----

  predicate HasLanded(h: Handler) {
    h.Landed? || h.Announced? || h.Unannounced?
  }

  /** The entry for a routed job is there, complete, and its landing is on record. */
  ghost predicate Routed(s: State, t: TaskId)
    requires HasTask(s, t)
  {
    && t in s.handlers
    && JobOf(s, t).stage.Dead?
    && !s.handlers[t].Swallowed?
    && (HasLanded(s.handlers[t]) ==>
          && DlqId(JobOf(s, t)) in s.dlq
          && s.dlq[DlqId(JobOf(s, t))] == DlqPayloadOf(JobOf(s, t))
          && s.handlers[t].mutation < s.landed)
    && (s.handlers[t].Announced? ==> s.handlers[t].mutation < s.settled)
  }

  predicate Holds(s: State, t: TaskId, id: string) {
    t in s.handlers && HasTask(s, t) && JobOf(s, t).stage.Dead? && HasLanded(s.handlers[t]) && DlqId(JobOf(s, t)) == id
  }

  /** Some dead job's landed write put this entry here. */
  ghost predicate Explained(s: State, id: string) {
    exists t :: Holds(s, t, id)
  }

  ghost predicate Conserved(s: State) {
    && (forall t | t in s.handlers :: HasTask(s, t) && Routed(s, t))
    && (forall t | HasTask(s, t) && JobOf(s, t).stage.Dead? :: t in s.handlers)
    && (forall id | id in s.dlq :: Explained(s, id))
    && s.settled <= s.landed
  }

  lemma ExplainedStays(s: State, s': State)
    requires forall id | id in s.dlq :: Explained(s, id)
    requires forall t | t in s.handlers && HasTask(s, t) && JobOf(s, t).stage.Dead? && HasLanded(s.handlers[t]) ::
      t in s'.handlers && HasLanded(s'.handlers[t]) && HasTask(s', t) && JobOf(s', t) == JobOf(s, t)
    ensures forall id | id in s.dlq :: Explained(s', id)
  {
    forall id | id in s.dlq
      ensures Explained(s', id)
    {
      var t :| Holds(s, t, id);
      assert Holds(s', t, id);
    }
  }

  lemma ApplyKeepsConserved(s: State, t: TaskId, d: Delta)
    requires Indexed(s) && Conserved(s) && Fits(s, t, d)
    ensures Conserved(Apply(s, t, d))
  {
    hide DlqId, DlqPayloadOf, JobId, ScopeOf;
    var s' := Apply(s, t, d);
    assert t !in s.handlers;
    forall u | u in s'.handlers
      ensures HasTask(s', u) && Routed(s', u)
    {
      AfterApply(s, t, d, u);
      assert u != t ==> Routed(s, u);
    }
    forall u | HasTask(s', u) && JobOf(s', u).stage.Dead?
      ensures u in s'.handlers
    {
      AfterApply(s, t, d, u);
    }
    forall u | HasTask(s, u) && JobOf(s, u).stage.Dead?
      ensures HasTask(s', u) && JobOf(s', u) == JobOf(s, u)
    {
      AfterApply(s, t, d, u);
    }
    ExplainedStays(s, s');
  }

  lemma FrozenKeepsConserved(s: State, s': State)
    requires Conserved(s)
    requires forall t | HasTask(s, t) :: HasTask(s', t) && JobOf(s', t) == JobOf(s, t)
    requires forall t | HasTask(s', t) && !HasTask(s, t) :: JobOf(s', t).Live()
    requires s'.handlers == s.handlers && s'.dlq == s.dlq
    requires s.landed <= s'.landed && s.settled <= s'.settled <= s'.landed
    ensures Conserved(s')
  {
    hide DlqId, DlqPayloadOf;
    forall u | u in s'.handlers
      ensures HasTask(s', u) && Routed(s', u)
    {
      assert Routed(s, u);
    }
    ExplainedStays(s, s');
  }

  lemma LandingIsNew(s: State, t: TaskId)
    requires Indexed(s) && Timeline(s) && Conserved(s) && IsRouting(s, t) && s.handlers[t].Sending?
    ensures DlqId(JobOf(s, t)) !in s.dlq
  {
    var id := DlqId(JobOf(s, t));
    if id in s.dlq {
      assert Explained(s, id);
      var u :| Holds(s, u, id);
      DlqIdsAreDistinct(s, t, u);
    }
  }

  /** The write takes effect as a new entry under an id of its own. */
  lemma LandingInFull(s: State, t: TaskId)
    requires Reachable(s) && IsRouting(s, t) && s.handlers[t].Sending?
    ensures
      var j := JobOf(s, t);
      && DlqId(j) !in s.dlq
      && AfterDlqLands(s, t) == s.(dlq := s.dlq[DlqId(j) := DlqPayloadOf(j)],
                                   handlers := s.handlers[t := Landed(s.landed)],
                                   landed := s.landed + 1)
  {
    hide DlqId, DlqPayloadOf, Run;
    var start, events :| s == Run(Init(start), events);
    RunKeepsAccounts(start, events);
    RunIsConserved(start, events);
    LandingIsNew(s, t);
  }

  lemma LandingKeepsConserved(s: State, t: TaskId)
    requires Indexed(s) && Timeline(s) && Conserved(s) && IsRouting(s, t) && s.handlers[t].Sending?
    ensures Conserved(AfterDlqLands(s, t))
  {
    hide DlqId, DlqPayloadOf, Indexed, Timeline;
    LandingIsNew(s, t);
    var s' := AfterDlqLands(s, t);
    assert s'.handlers == s.handlers[t := Landed(s.landed)];
    assert forall u | HasTask(s, u) :: HasTask(s', u) && JobOf(s', u) == JobOf(s, u);
    forall u | u in s'.handlers
      ensures HasTask(s', u) && Routed(s', u)
    {
      assert Routed(s, u);
    }
    ExplainedStays(s, s');
    assert Holds(s', t, DlqId(JobOf(s, t)));
  }

  /** A handler that moves on after its write, or gives up, changes no entry. */
  lemma HandlerMoveKeepsConserved(s: State, s': State, t: TaskId)
    requires Conserved(s) && t in s.handlers && t in s'.handlers
    requires s' == s.(handlers := s.handlers[t := s'.handlers[t]],
                      settled := s'.settled, invalidations := s'.invalidations)
    requires HasLanded(s'.handlers[t]) <==> HasLanded(s.handlers[t])
    requires HasLanded(s.handlers[t]) ==> s'.handlers[t].mutation == s.handlers[t].mutation
    requires !s'.handlers[t].Swallowed?
    requires s.settled <= s'.settled <= s.landed
    requires s'.handlers[t].Announced? ==> s'.handlers[t].mutation < s'.settled
    ensures Conserved(s')
  {
    hide DlqId, DlqPayloadOf;
    assert forall u | HasTask(s, u) :: HasTask(s', u) && JobOf(s', u) == JobOf(s, u);
    forall u | u in s'.handlers
      ensures HasTask(s', u) && Routed(s', u)
    {
      assert Routed(s, u);
    }
    ExplainedStays(s, s');
  }

  lemma RoutingKeepsConserved(s: State, e: Event)
    requires Indexed(s) && Timeline(s) && Conserved(s) && (e.DlqLands? || e.DlqReturns? || e.DlqFails?)
    ensures Conserved(Step(s, e))
  {
    hide DlqId, DlqPayloadOf, Indexed, Timeline;
    var t := e.task;
    if t in s.handlers {
      assert Routed(s, t);
      if e.DlqLands? && s.handlers[t].Sending? {
        LandingKeepsConserved(s, t);
      } else if e.DlqReturns? && s.handlers[t].Landed? {
        HandlerMoveKeepsConserved(s, AfterDlqReturns(s, t), t);
      } else if e.DlqFails? && (s.handlers[t].Sending? || s.handlers[t].Landed?) {
        HandlerMoveKeepsConserved(s, AfterDlqFails(s, t), t);
      }
    }
  }

  lemma StepKeepsConserved(s: State, e: Event)
    requires Indexed(s) && Timeline(s) && Conserved(s)
    ensures Conserved(Step(s, e))
  {
    hide DlqId, DlqPayloadOf, Timeline, Routed, Explained, JobStep;
    match e
    case OnJob(r, je) =>
      if Move(s, r, je).Some? {
        MoveFits(s, r, je);
        ApplyKeepsConserved(s, Find(s, r).value, Move(s, r, je).value);
      }
    case Enqueue(r, data, retained) =>
      EnqueueAddsOneJob(s, r, data, retained);
      FrozenKeepsConserved(s, AfterEnqueue(s, r, data, retained));
    case EnqueueReturns =>
      ElsewhereKeepsJobs(s, e);
      FrozenKeepsConserved(s, Step(s, e));
    case CompletedHandler =>
      ElsewhereKeepsJobs(s, e);
      FrozenKeepsConserved(s, Step(s, e));
    case Drift =>
      ElsewhereKeepsJobs(s, e);
      FrozenKeepsConserved(s, Step(s, e));
    case Tick(_) =>
      ElsewhereKeepsJobs(s, e);
      FrozenKeepsConserved(s, Step(s, e));
    case _ =>
      RoutingKeepsConserved(s, e);
  }

  lemma {:induction false} RunIsConserved(start: nat, events: seq<Event>)
    ensures Timeline(Run(Init(start), events)) && Conserved(Run(Init(start), events))
  {
    if events != [] {
      var before := events[..|events| - 1];
      var e := events[|events| - 1];
      RunKeepsAccounts(start, before);
      RunIsConserved(start, before);
      StepKeepsTimeline(Run(Init(start), before), e);
      StepKeepsConserved(Run(Init(start), before), e);
    }
  }

  /**
   * Every job that used up its attempts has its own entry, with its id, data, reason
   * and attempt count, from the moment the write takes effect; the entry is missing
   * only while the write is under way or when the write failed. No entry is anyone
   * else's, and whether the failure could be recorded in the store plays no part.
   */
  lemma DeadJobsAreConserved(s: State)
    requires Reachable(s)
    ensures forall t | HasTask(s, t) && JobOf(s, t).stage.Dead? ::
      && t in s.handlers && !s.handlers[t].Swallowed?
      && (DlqId(JobOf(s, t)) in s.dlq <==> HasLanded(s.handlers[t]))
      && (HasLanded(s.handlers[t]) ==> s.dlq[DlqId(JobOf(s, t))] == DlqPayloadOf(JobOf(s, t)))
    ensures forall id | id in s.dlq :: Explained(s, id)
    ensures forall t, u | HasTask(s, t) && HasTask(s, u) && JobOf(s, t).stage.Dead? && JobOf(s, u).stage.Dead? ::
      DlqId(JobOf(s, t)) == DlqId(JobOf(s, u)) ==> t == u
  {
    var start, events :| s == Run(Init(start), events);
    RunKeepsAccounts(start, events);
    RunIsConserved(start, events);
    forall t, u | HasTask(s, t) && HasTask(s, u) && JobOf(s, t).stage.Dead? && JobOf(s, u).stage.Dead?
      ensures DlqId(JobOf(s, t)) == DlqId(JobOf(s, u)) ==> t == u
    {
      if DlqId(JobOf(s, t)) == DlqId(JobOf(s, u)) {
        DlqIdsAreDistinct(s, t, u);
      }
    }
    forall t | HasTask(s, t) && JobOf(s, t).stage.Dead?
      ensures t in s.handlers && Routed(s, t)
      ensures DlqId(JobOf(s, t)) in s.dlq ==> HasLanded(s.handlers[t])
    {
      assert Routed(s, t);
      assert DlqId(JobOf(s, t)) in s.dlq ==> Explained(s, DlqId(JobOf(s, t)));
    }
  }
}
