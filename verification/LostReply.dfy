/**
 * One run in full: a webhook job fails three times, the board is looked at, and the
 * reply to the dead letter write is lost. The next look is a HIT without the entry.
 */
module LostReply {
  import opened Basics
  import opened IdempotencyStore
  import opened Pipeline
  import opened EffectLedger
  import C = SnapshotCache
  import K = SnapshotKeys
  import R = SnapshotRuns
  import O = OverlappingRebuilds
  import B = Board

  // ----- The job -----

  /** An attempt whose delivery is answered with an error. */
  function RefusedAttempt(ref: Ref): seq<Event> {
    [OnJob(ref, Start), OnJob(ref, Check), OnJob(ref, Act(Rejected("HTTP 404"))), OnJob(ref, Fail(true))]
  }

  /** Accepted, and refused at each attempt as soon as its backoff is over. */
  function ThreeFailures(ref: Ref, data: Data): seq<Event> {
    [Enqueue(ref, data, false)] + RefusedAttempt(ref)
    + [Tick(1000)] + RefusedAttempt(ref)
    + [Tick(2000)] + RefusedAttempt(ref)
  }

  predicate IsReady(s: State, t: TaskId, made: nat) {
    && HasTask(s, t) && JobOf(s, t).stage.Waiting? && JobOf(s, t).attemptsMade == made
    && JobOf(s, t).readyAt <= s.clock && !DoneAt(s, JobOf(s, t).ref)
  }

  lemma RunOne(s: State, e: Event)
    ensures Run(s, [e]) == Step(s, e)
  {
    assert Run(s, []) == s;
  }

  lemma RunFour(s: State, a: Event, b: Event, c: Event, d: Event)
    ensures Run(s, [a, b, c, d]) == Step(Step(Step(Step(s, a), b), c), d)
  {
    hide Step;
    RunOne(s, a);
    assert [a, b] == [a] + [b] && [a, b, c] == [a, b] + [c] && [a, b, c, d] == [a, b, c] + [d];
    RunAppend(s, [a], [b]);
    RunOne(Step(s, a), b);
    RunAppend(s, [a, b], [c]);
    RunOne(Step(Step(s, a), b), c);
    RunAppend(s, [a, b, c], [d]);
    RunOne(Step(Step(Step(s, a), b), c), d);
  }

  lemma AttemptFails(s: State, t: TaskId, ref: Ref, made: nat)
    requires Indexed(s) && IsReady(s, t, made) && made < ATTEMPTS && JobOf(s, t).ref == ref && ref.jobName.Webhook?
    ensures
      var s' := Run(s, RefusedAttempt(ref));
      && Indexed(s') && HasTask(s', t) && JobOf(s', t).ref == ref && s'.clock == s.clock
      && if made + 1 < ATTEMPTS
         then JobOf(s', t).stage.Waiting? && JobOf(s', t).attemptsMade == made + 1 && !DoneAt(s', ref)
              && JobOf(s', t).readyAt == s.clock + Backoff(made + 1)
         else JobOf(s', t).stage.Dead? && t in s'.handlers && s'.handlers[t] == Sending
  {
    hide Step, Indexed, JobId, Find, Move, Run;
    RunFour(s, OnJob(ref, Start), OnJob(ref, Check), OnJob(ref, Act(Rejected("HTTP 404"))), OnJob(ref, Fail(true)));
    var s1 := Step(s, OnJob(ref, Start));
    var s2 := Step(s1, OnJob(ref, Check));
    var s3 := Step(s2, OnJob(ref, Act(Rejected("HTTP 404"))));
    OneEvent(s, t, Start);
    assert JobOf(s1, t) == JobOf(s, t).(stage := Checking) && !DoneAt(s1, ref);
    OneEvent(s1, t, Check);
    assert JobOf(s2, t) == JobOf(s, t).(stage := Acting) && !DoneAt(s2, ref);
    OneEvent(s2, t, Act(Rejected("HTTP 404")));
    assert JobOf(s3, t) == JobOf(s, t).(stage := Throwing("HTTP 404")) && !DoneAt(s3, ref);
    OneEvent(s3, t, Fail(true));
  }

  /** Waiting out the backoff makes the job ready again. */
  lemma WaitMakesReady(s: State, t: TaskId, ref: Ref, made: nat, ms: nat)
    requires Indexed(s) && HasTask(s, t) && JobOf(s, t).stage.Waiting? && JobOf(s, t).attemptsMade == made
    requires JobOf(s, t).ref == ref && !DoneAt(s, ref) && JobOf(s, t).readyAt <= s.clock + ms
    ensures
      var s' := Run(s, [Tick(ms)]);
      Indexed(s') && IsReady(s', t, made) && JobOf(s', t).ref == ref
  {
    RunOne(s, Tick(ms));
    StepKeepsIndexed(s, Tick(ms));
  }

  lemma AcceptedIsReady(start: nat, ref: Ref, data: Data)
    ensures
      var s := Run(Init(start), [Enqueue(ref, data, false)]);
      var t := TaskId(ref.jobName, 0);
      Indexed(s) && IsReady(s, t, 0) && JobOf(s, t).ref == ref
  {
    RunOne(Init(start), Enqueue(ref, data, false));
    StepKeepsIndexed(Init(start), Enqueue(ref, data, false));
  }

  lemma ThreeFailuresKill(start: nat, ref: Ref, data: Data)
    requires ref.jobName.Webhook?
    ensures
      var s := Run(Init(start), ThreeFailures(ref, data));
      var t := TaskId(Webhook, 0);
      IsRouting(s, t) && s.handlers[t] == Sending
  {
    hide Run, Step, Indexed, IsReady, RefusedAttempt, DoneAt;
    var t := TaskId(Webhook, 0);
    var attempt := RefusedAttempt(ref);
    var e0 := [Enqueue(ref, data, false)];
    var e1 := e0 + attempt;
    var e2 := e1 + [Tick(1000)];
    var e3 := e2 + attempt;
    var e4 := e3 + [Tick(2000)];
    assert ThreeFailures(ref, data) == e4 + attempt;
    AcceptedIsReady(start, ref, data);
    RunAppend(Init(start), e0, attempt);
    AttemptFails(Run(Init(start), e0), t, ref, 0);
    RunAppend(Init(start), e1, [Tick(1000)]);
    WaitMakesReady(Run(Init(start), e1), t, ref, 1, 1000);
    RunAppend(Init(start), e2, attempt);
    AttemptFails(Run(Init(start), e2), t, ref, 1);
    RunAppend(Init(start), e3, [Tick(2000)]);
    WaitMakesReady(Run(Init(start), e3), t, ref, 2, 2000);
    RunAppend(Init(start), e4, attempt);
    AttemptFails(Run(Init(start), e4), t, ref, 2);
  }

  // ----- The board meanwhile -----

  function Works(events: seq<Event>): seq<B.Event> {
    if events == [] then [] else Works(events[..|events| - 1]) + [B.Work(events[|events| - 1])]
  }

  /** No one has looked at the board yet. */
  predicate IsUntouched(w: R.World) {
    w.cache.entries == map[] && w.cache.budget == C.Budget(0, 0) && w.flights == map[] && w.dispatched == []
  }

  lemma {:induction false} WorkLeavesBoardUntouched(cfg: C.Config, start: nat, events: seq<Event>)
    requires cfg.Valid()
    ensures
      var sys := B.Run(cfg, B.Init(start), Works(events));
      sys.jobs == Run(Init(start), events) && IsUntouched(sys.board) && B.Good(cfg, sys)
  {
    hide B.Good, Step, R.Run;
    if events == [] {
      B.InitIsGood(cfg, start);
    } else {
      var front, e := events[..|events| - 1], events[|events| - 1];
      WorkLeavesBoardUntouched(cfg, start, front);
      var sys := B.Run(cfg, B.Init(start), Works(front));
      B.RunSnoc(cfg, B.Init(start), Works(front), B.Work(e));
      B.StepKeepsGood(cfg, sys, B.Work(e));
      B.WorkReachesBoard(cfg, sys, e);
    }
  }

  /** The first look at the board: let through, read once, stored. */
  lemma FirstLook(cfg: C.Config, w: R.World, query: K.Query)
    requires cfg.Valid() && IsUntouched(w)
    ensures
      var poll := O.PollOf(query);
      var w' := R.Step(cfg, R.Step(cfg, R.Step(cfg, w, poll), R.Read(0)), R.Finish(0, 200));
      R.Answer(cfg, w', poll) == C.Hit(R.Body(cfg.viewOf(query), [w.landed]))
  {
    var poll := O.PollOf(query);
    var view := cfg.viewOf(query);
    var w1 := R.Step(cfg, w, poll);
    O.MissInFull(cfg, w, query);
    var w2 := R.Step(cfg, w1, R.Read(0));
    assert w2.flights[0] == R.Rebuild(cfg.keyOf(view), view, w.cache.generation, [w.landed]);
    assert w2.cache == w1.cache && w2.clock == w.clock;
  }

  // ----- Together -----

  function Looking(query: K.Query): seq<B.Event> {
    [B.View(O.PollOf(query)), B.View(R.Read(0)), B.View(R.Finish(0, 200))]
  }

  /** The three failures, a look at the board, then the write takes effect and its reply is lost. */
  function Scenario(ref: Ref, data: Data, query: K.Query): seq<B.Event> {
    Works(ThreeFailures(ref, data)) + Looking(query)
    + [B.Work(DlqLands(TaskId(Webhook, 0))), B.Work(DlqFails(TaskId(Webhook, 0)))]
  }

  lemma LookingUnfolds(cfg: C.Config, sys: B.System, query: K.Query)
    ensures
      var w := R.Step(cfg, R.Step(cfg, R.Step(cfg, sys.board, O.PollOf(query)), R.Read(0)), R.Finish(0, 200));
      B.Run(cfg, sys, Looking(query)) == sys.(board := w)
  {
    hide R.Step, B.Run;
    var a, b, c := B.View(O.PollOf(query)), B.View(R.Read(0)), B.View(R.Finish(0, 200));
    B.RunNothing(cfg, sys);
    assert [] + [a] == [a] && [a] + [b] == [a, b] && [a, b] + [c] == Looking(query);
    B.RunSnoc(cfg, sys, [], a);
    B.RunSnoc(cfg, sys, [a], b);
    B.RunSnoc(cfg, sys, [a, b], c);
  }

  lemma RunIsReachable(cfg: C.Config, start: nat, events: seq<B.Event>)
    ensures B.Reachable(cfg, B.Run(cfg, B.Init(start), events))
  {
  }

  lemma ReplyIsLost(cfg: C.Config, start: nat, before: seq<B.Event>, t: TaskId)
    ensures
      var seen := B.Run(cfg, B.Init(start), before);
      var after := B.Routing(cfg, seen, t, false);
      && B.Run(cfg, B.Init(start), before + [B.Work(DlqLands(t)), B.Work(DlqFails(t))]) == after
      && (HasTask(seen.jobs, t) ==> HasTask(after.jobs, t) && JobOf(after.jobs, t) == JobOf(seen.jobs, t))
  {
    hide B.Run, Step, R.Run;
    var seen := B.Run(cfg, B.Init(start), before);
    assert before + [B.Work(DlqLands(t)), B.Work(DlqFails(t))]
        == before + [B.Work(DlqLands(t))] + [B.Work(DlqFails(t))];
    B.RunSnoc(cfg, B.Init(start), before, B.Work(DlqLands(t)));
    B.RunSnoc(cfg, B.Init(start), before + [B.Work(DlqLands(t))], B.Work(DlqFails(t)));
    ElsewhereKeepsJobs(seen.jobs, DlqLands(t));
    ElsewhereKeepsJobs(Step(seen.jobs, DlqLands(t)), DlqFails(t));
  }

  lemma HitIsHeld(cfg: C.Config, sys: B.System, after: B.System, poll: R.Event)
    requires B.ServesOn(cfg, sys, after)
    requires poll.Poll? && R.Answer(cfg, sys.board, poll).Hit? && R.Answer(cfg, sys.board, poll).body.seen != []
    ensures R.Answer(cfg, after.board, poll) == R.Answer(cfg, sys.board, poll) && !B.NothingHeld(cfg, sys)
  {
  }

  /**
   * For every configuration, start, key, payload and view: at the end of the scenario
   * the entry is in the dead letter queue and its handler is over, and the board answers
   * with a HIT read when exactly the changes before the entry had landed.
   */
  lemma EntryIsHidden(cfg: C.Config, start: nat, key: string, data: Data, query: K.Query)
    requires cfg.Valid()
    ensures
      var sys := B.Run(cfg, B.Init(start), Scenario(Slot(Webhook, key), data, query));
      var t := TaskId(Webhook, 0);
      && HasTask(sys.jobs, t) && JobOf(sys.jobs, t).stage.Dead? && DlqId(JobOf(sys.jobs, t)) in sys.jobs.dlq
      && t in sys.jobs.handlers && sys.jobs.handlers[t].Unannounced?
      && R.Answer(cfg, sys.board, O.PollOf(query))
         == C.Hit(R.Body(cfg.viewOf(query), [sys.jobs.handlers[t].mutation]))
      && !B.HitsShow(cfg, sys, sys.jobs.handlers[t].mutation)
  {
    hide B.Run, B.Step, B.HitsShow, B.ServesOn, B.NothingHeld, B.Reachable, B.Routing;
    hide R.Step, R.Answer, Run, Step, ThreeFailures, IsUntouched, DlqId, Looking;
    var t := TaskId(Webhook, 0);
    var work := Works(ThreeFailures(Slot(Webhook, key), data));
    var dead := B.Run(cfg, B.Init(start), work);
    WorkLeavesBoardUntouched(cfg, start, ThreeFailures(Slot(Webhook, key), data));
    ThreeFailuresKill(start, Slot(Webhook, key), data);
    B.RunAppend(cfg, B.Init(start), work, Looking(query));
    LookingUnfolds(cfg, dead, query);
    FirstLook(cfg, dead.board, query);
    var seen := B.Run(cfg, B.Init(start), work + Looking(query));
    assert seen.jobs == dead.jobs && dead.jobs.landed == dead.board.landed;
    RunIsReachable(cfg, start, work + Looking(query));
    B.EntryShowsIffAcknowledged(cfg, seen, t, false);
    ReplyIsLost(cfg, start, work + Looking(query), t);
    HitIsHeld(cfg, seen, B.Routing(cfg, seen, t, false), O.PollOf(query));
  }
}
