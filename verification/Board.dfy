/**
 * The two machines together: the job pipeline changes what the board shows and bumps
 * the snapshot generation; the cache answers polls. Everything interleaves.
 */
module Board {
  import opened Basics
  import S = IdempotencyStore
  import P = Pipeline
  import L = DeadLetters
  import C = SnapshotCache
  import R = SnapshotRuns

  datatype System = System(jobs: P.State, board: R.World)

  /** Work is anything that happens to jobs, or time passing; View is a poll or a rebuild in progress. */
  datatype Event = Work(work: P.Event) | View(view: R.Event)

  function Init(start: nat): System {
    System(P.Init(start), R.Init(start))
  }

  /** What a step of the pipeline means to the cache: a change landing, an invalidation, time. */
  function Signals(s: P.State, s': P.State): seq<R.Event> {
    LandSignal(s, s') + AnnounceSignal(s, s') + TickSignal(s, s')
  }

  function LandSignal(s: P.State, s': P.State): seq<R.Event> {
    if s'.landed > s.landed then [R.Land] else []
  }

  function AnnounceSignal(s: P.State, s': P.State): seq<R.Event> {
    if s'.invalidations > s.invalidations then [R.Announce] else []
  }

  function TickSignal(s: P.State, s': P.State): seq<R.Event> {
    if s'.clock > s.clock then [R.Tick(s'.clock - s.clock)] else []
  }

  function Step(cfg: C.Config, sys: System, e: Event): System {
    match e
    case Work(w) =>
      var jobs := P.Step(sys.jobs, w);
      System(jobs, R.Run(cfg, sys.board, Signals(sys.jobs, jobs)))
    case View(v) =>
      if v.Poll? || v.Read? || v.Finish? then sys.(board := R.Step(cfg, sys.board, v)) else sys
  }

  function Run(cfg: C.Config, sys: System, events: seq<Event>): System {
    if events == [] then sys
    else Step(cfg, Run(cfg, sys, events[..|events| - 1]), events[|events| - 1])
  }

  ghost predicate Coupled(sys: System) {
    && sys.board.landed == sys.jobs.landed
    && sys.board.clock == sys.jobs.clock
    && R.Settled(sys.board) == sys.jobs.settled <= sys.jobs.landed
    && |sys.board.settled| > 0
    && sys.board.cache.generation == sys.jobs.invalidations
  }

  ghost predicate Good(cfg: C.Config, sys: System) {
    Coupled(sys) && P.Reachable(sys.jobs) && R.Reachable(cfg, sys.board)
  }

  // ----- The coupling holds throughout -----

  lemma WorkCounters(s: P.State, e: P.Event)
    requires s.settled <= s.landed
    ensures
      var s' := P.Step(s, e);
      && s.landed <= s'.landed <= s.landed + 1
      && s.invalidations <= s'.invalidations <= s.invalidations + 1
      && s.clock <= s'.clock
      && s'.settled == if s'.invalidations == s.invalidations then s.settled else s'.landed
  {
  }

  lemma PipelineReachableStep(s: P.State, e: P.Event)
    requires P.Reachable(s)
    ensures P.Reachable(P.Step(s, e))
  {
    var start, events :| s == P.Run(P.Init(start), events);
    assert (events + [e])[..|events|] == events;
    assert P.Step(s, e) == P.Run(P.Init(start), events + [e]);
  }

  lemma BoardReachableStep(cfg: C.Config, w: R.World, e: R.Event)
    requires R.Reachable(cfg, w)
    ensures R.Reachable(cfg, R.Step(cfg, w, e))
  {
    var start, events :| w == R.Run(cfg, R.Init(start), events);
    assert (events + [e])[..|events|] == events;
    assert R.Step(cfg, w, e) == R.Run(cfg, R.Init(start), events + [e]);
  }

  lemma {:induction false} BoardReachableRun(cfg: C.Config, w: R.World, events: seq<R.Event>)
    requires R.Reachable(cfg, w)
    ensures R.Reachable(cfg, R.Run(cfg, w, events))
  {
    if events != [] {
      BoardReachableRun(cfg, w, events[..|events| - 1]);
      BoardReachableStep(cfg, R.Run(cfg, w, events[..|events| - 1]), events[|events| - 1]);
    }
  }

  function Landing(cfg: C.Config, w: R.World, s: P.State, s': P.State): R.World {
    if s'.landed > s.landed then R.Step(cfg, w, R.Land) else w
  }

  function Announcing(cfg: C.Config, w: R.World, s: P.State, s': P.State): R.World {
    if s'.invalidations > s.invalidations then R.Step(cfg, w, R.Announce) else w
  }

  function Ticking(cfg: C.Config, w: R.World, s: P.State, s': P.State): R.World {
    if s'.clock > s.clock then R.Step(cfg, w, R.Tick(s'.clock - s.clock)) else w
  }

  lemma SignalsAreSteps(cfg: C.Config, w: R.World, s: P.State, s': P.State)
    ensures R.Run(cfg, w, Signals(s, s')) == Ticking(cfg, Announcing(cfg, Landing(cfg, w, s, s'), s, s'), s, s')
  {
    hide R.Step, R.Run;
    var a, b, c := LandSignal(s, s'), AnnounceSignal(s, s'), TickSignal(s, s');
    R.RunNothing(cfg, w);
    assert [] + a == a;
    RunOptional(cfg, w, [], a);
    RunOptional(cfg, w, a, b);
    RunOptional(cfg, w, a + b, c);
  }

  /** The board after the signals of one step, spelled out. */
  lemma SignalsDeliver(cfg: C.Config, w: R.World, s: P.State, s': P.State)
    requires s.landed <= s'.landed <= s.landed + 1 && s.invalidations <= s'.invalidations <= s.invalidations + 1
    requires s.clock <= s'.clock
    requires w.landed == s.landed && w.clock == s.clock && |w.settled| > 0 && R.Settled(w) == s.settled
    requires s'.settled == if s'.invalidations == s.invalidations then s.settled else s'.landed
    ensures
      var w' := R.Run(cfg, w, Signals(s, s'));
      && w'.landed == s'.landed && w'.clock == s'.clock && |w'.settled| > 0
      && R.Settled(w') == s'.settled
      && w'.cache == w.cache.(generation := w.cache.generation + (s'.invalidations - s.invalidations))
      && w'.flights == w.flights && w'.dispatched == w.dispatched
  {
    hide R.Run;
    SignalsAreSteps(cfg, w, s, s');
    var w1 := Landing(cfg, w, s, s');
    assert w1 == w.(landed := s'.landed);
    var w2 := Announcing(cfg, w1, s, s');
    assert R.Settled(w2) == s'.settled && w2.landed == s'.landed && w2.clock == s.clock && |w2.settled| > 0;
    assert w2.cache == w.cache.(generation := w.cache.generation + (s'.invalidations - s.invalidations));
    assert w2.flights == w.flights && w2.dispatched == w.dispatched;
    var w3 := Ticking(cfg, w2, s, s');
    assert w3 == w2.(clock := s'.clock);
  }

  lemma RunOptional(cfg: C.Config, w: R.World, before: seq<R.Event>, more: seq<R.Event>)
    requires |more| <= 1
    ensures
      var w' := R.Run(cfg, w, before);
      R.Run(cfg, w, before + more) == if more == [] then w' else R.Step(cfg, w', more[0])
  {
    if more == [] {
      assert before + more == before;
    } else {
      assert (before + more)[..|before|] == before;
    }
  }

  lemma StepKeepsGood(cfg: C.Config, sys: System, e: Event)
    requires cfg.Valid() && Good(cfg, sys)
    ensures Good(cfg, Step(cfg, sys, e))
  {
    match e
    case Work(w) =>
      WorkCounters(sys.jobs, w);
      PipelineReachableStep(sys.jobs, w);
      SignalsDeliver(cfg, sys.board, sys.jobs, P.Step(sys.jobs, w));
      BoardReachableRun(cfg, sys.board, Signals(sys.jobs, P.Step(sys.jobs, w)));
    case View(v) =>
      if v.Poll? || v.Read? || v.Finish? {
        BoardReachableStep(cfg, sys.board, v);
        ViewLeavesCouplingAlone(cfg, sys.board, v);
      }
  }

  lemma ViewLeavesCouplingAlone(cfg: C.Config, w: R.World, v: R.Event)
    requires v.Poll? || v.Read? || v.Finish?
    ensures
      var w' := R.Step(cfg, w, v);
      && w'.landed == w.landed && w'.clock == w.clock
      && w'.settled == w.settled && w'.cache.generation == w.cache.generation
  {
  }

  lemma {:induction false} RunKeepsGood(cfg: C.Config, sys: System, events: seq<Event>)
    requires cfg.Valid() && Good(cfg, sys)
    ensures Good(cfg, Run(cfg, sys, events))
    ensures sys.jobs.landed <= Run(cfg, sys, events).jobs.landed
    ensures sys.jobs.settled <= Run(cfg, sys, events).jobs.settled
  {
    if events != [] {
      var mid := Run(cfg, sys, events[..|events| - 1]);
      RunKeepsGood(cfg, sys, events[..|events| - 1]);
      StepKeepsGood(cfg, mid, events[|events| - 1]);
      if events[|events| - 1].Work? {
        WorkCounters(mid.jobs, events[|events| - 1].work);
      }
    }
  }

  ghost predicate Reachable(cfg: C.Config, sys: System) {
    exists start, events :: sys == Run(cfg, Init(start), events)
  }

  lemma ReachableIsGood(cfg: C.Config, sys: System)
    requires cfg.Valid() && Reachable(cfg, sys)
    ensures Good(cfg, sys)
  {
    var start, events :| sys == Run(cfg, Init(start), events);
    InitIsGood(cfg, start);
    RunKeepsGood(cfg, Init(start), events);
  }

  lemma InitIsGood(cfg: C.Config, start: nat)
    ensures Good(cfg, Init(start))
  {
    assert P.Init(start) == P.Run(P.Init(start), []);
    assert R.Init(start) == R.Run(cfg, R.Init(start), []);
  }

  /** What happens to jobs reaches the board as changes, invalidations and time, and touches nothing else there. */
  lemma WorkReachesBoard(cfg: C.Config, sys: System, w: P.Event)
    requires Good(cfg, sys)
    ensures
      var sys' := Step(cfg, sys, Work(w));
      && sys'.jobs == P.Step(sys.jobs, w)
      && sys'.board.cache.entries == sys.board.cache.entries && sys'.board.cache.budget == sys.board.cache.budget
      && sys'.board.flights == sys.board.flights && sys'.board.dispatched == sys.board.dispatched
  {
    hide P.Step, R.Run;
    WorkCounters(sys.jobs, w);
    SignalsDeliver(cfg, sys.board, sys.jobs, P.Step(sys.jobs, w));
  }

  lemma RunNothing(cfg: C.Config, sys: System)
    ensures Run(cfg, sys, []) == sys
  {
  }

  lemma RunSnoc(cfg: C.Config, sys: System, events: seq<Event>, e: Event)
    ensures Run(cfg, sys, events + [e]) == Step(cfg, Run(cfg, sys, events), e)
  {
    assert (events + [e])[..|events|] == events;
  }

  lemma {:induction false} RunAppend(cfg: C.Config, sys: System, first: seq<Event>, second: seq<Event>)
    ensures Run(cfg, sys, first + second) == Run(cfg, Run(cfg, sys, first), second)
  {
    hide Step;
    var all := first + second;
    if second == [] {
      assert all == first;
    } else {
      assert all[..|all| - 1] == first + second[..|second| - 1];
      RunAppend(cfg, sys, first, second[..|second| - 1]);
    }
  }

  // ----- What a viewer sees -----

  /** Every queue state behind this answer already contained change number m. */
  ghost predicate Shows(body: R.Body, m: nat) {
    forall r | r in body.seen :: m < r
  }

  /** The number the next change of the board will get. */
  function Upcoming(sys: System): nat {
    sys.jobs.landed
  }

  /** Whatever is polled for now, a HIT already contains change number m. */
  ghost predicate HitsShow(cfg: C.Config, sys: System, m: nat) {
    forall poll: R.Event | poll.Poll? && R.Answer(cfg, sys.board, poll).Hit? ::
      Shows(R.Answer(cfg, sys.board, poll).body, m)
  }

  /** Once any invalidation has run after a change landed, every HIT contains the change. */
  lemma HitsShowSettled(cfg: C.Config, sys: System, m: nat)
    requires cfg.Valid() && Good(cfg, sys) && m < sys.jobs.settled
    ensures HitsShow(cfg, sys, m)
  {
    forall poll: R.Event | poll.Poll? && R.Answer(cfg, sys.board, poll).Hit?
      ensures Shows(R.Answer(cfg, sys.board, poll).body, m)
    {
      R.HitIsFresh(cfg, sys.board, poll);
    }
  }

  /**
   * Once the handler of a terminal failure has finished and its write was acknowledged,
   * no HIT, now or later, serves a body read before the dead letter entry landed.
   */
  lemma DeadLettersShow(cfg: C.Config, sys: System, t: P.TaskId, later: seq<Event>)
    requires cfg.Valid() && Reachable(cfg, sys)
    requires t in sys.jobs.handlers && sys.jobs.handlers[t].Announced?
    ensures HitsShow(cfg, Run(cfg, sys, later), sys.jobs.handlers[t].mutation)
  {
    ReachableIsGood(cfg, sys);
    var start, events :| sys.jobs == P.Run(P.Init(start), events);
    L.RunIsConserved(start, events);
    assert L.Routed(sys.jobs, t);
    RunKeepsGood(cfg, sys, later);
    HitsShowSettled(cfg, Run(cfg, sys, later), sys.jobs.handlers[t].mutation);
  }

  /** The entry lands, and the handler's wait for it ends one way or the other. */
  function Routing(cfg: C.Config, sys: System, t: P.TaskId, acknowledged: bool): System {
    Step(cfg, Step(cfg, sys, Work(P.DlqLands(t))), Work(if acknowledged then P.DlqReturns(t) else P.DlqFails(t)))
  }

  /** Every poll is answered alike in both states, and a HIT was read before the next change of the first. */
  ghost predicate ServesOn(cfg: C.Config, sys: System, after: System) {
    forall poll: R.Event | poll.Poll? ::
      && R.Answer(cfg, after.board, poll) == R.Answer(cfg, sys.board, poll)
      && (R.Answer(cfg, sys.board, poll).Hit? ==>
            forall r | r in R.Answer(cfg, sys.board, poll).body.seen :: r <= Upcoming(sys))
  }

  /** No poll would be a HIT, except on a body rendered without reading the queue at all. */
  ghost predicate NothingHeld(cfg: C.Config, sys: System) {
    forall poll: R.Event | poll.Poll? && R.Answer(cfg, sys.board, poll).Hit? ::
      R.Answer(cfg, sys.board, poll).body.seen == []
  }

  /**
   * Of the handlers whose entry landed, exactly those whose write was acknowledged
   * guarantee that it is seen. If the reply was lost the handler is over all the same,
   * every poll is answered as before the entry landed, and the entry is missing from
   * some HIT if and only if there was any body to be hit.
   */
  lemma EntryShowsIffAcknowledged(cfg: C.Config, sys: System, t: P.TaskId, acknowledged: bool)
    requires cfg.Valid() && Reachable(cfg, sys)
    requires P.IsRouting(sys.jobs, t) && sys.jobs.handlers[t].Sending?
    ensures
      var after := Routing(cfg, sys, t, acknowledged);
      var m := Upcoming(sys);
      && t in after.jobs.handlers
      && after.jobs.handlers[t] == (if acknowledged then P.Announced(m) else P.Unannounced(m))
      && P.DlqId(P.JobOf(sys.jobs, t)) in after.jobs.dlq
      && (!acknowledged ==> ServesOn(cfg, sys, after))
      && (HitsShow(cfg, after, m) <==> acknowledged || NothingHeld(cfg, sys))
  {
    hide P.Step, R.Run, P.DlqId, P.DlqPayloadOf, P.Reachable, R.Reachable, R.Inv, R.Answer;
    hide HitsShow, ServesOn, NothingHeld;
    ReachableIsGood(cfg, sys);
    LandsThenEnds(sys.jobs, t, acknowledged);
    var landed := Step(cfg, sys, Work(P.DlqLands(t)));
    var after := Routing(cfg, sys, t, acknowledged);
    StepKeepsGood(cfg, sys, Work(P.DlqLands(t)));
    if acknowledged {
      StepKeepsGood(cfg, landed, Work(P.DlqReturns(t)));
      HitsShowSettled(cfg, after, Upcoming(sys));
    } else {
      SignalsDeliver(cfg, sys.board, sys.jobs, landed.jobs);
      SignalsDeliver(cfg, landed.board, landed.jobs, after.jobs);
      UntouchedServesOn(cfg, sys, after);
      ServedOnShowsIff(cfg, sys, after);
    }
  }

  lemma UntouchedServesOn(cfg: C.Config, sys: System, after: System)
    requires cfg.Valid() && Good(cfg, sys)
    requires after.board.clock == sys.board.clock && after.board.cache == sys.board.cache
    ensures ServesOn(cfg, sys, after)
  {
    R.ReachableKeepsInv(cfg, sys.board);
    forall poll: R.Event | poll.Poll? && R.Answer(cfg, sys.board, poll).Hit?
      ensures forall r | r in R.Answer(cfg, sys.board, poll).body.seen :: r <= Upcoming(sys)
    {
      R.HitComesFromEntry(cfg, sys.board, poll);
    }
  }

  lemma ServedOnShowsIff(cfg: C.Config, sys: System, after: System)
    requires ServesOn(cfg, sys, after)
    ensures HitsShow(cfg, after, Upcoming(sys)) <==> NothingHeld(cfg, sys)
  {
    hide R.Answer;
    if HitsShow(cfg, after, Upcoming(sys)) {
      forall poll: R.Event | poll.Poll? && R.Answer(cfg, sys.board, poll).Hit?
        ensures R.Answer(cfg, sys.board, poll).body.seen == []
      {
        var seen := R.Answer(cfg, sys.board, poll).body.seen;
        assert R.Answer(cfg, after.board, poll) == R.Answer(cfg, sys.board, poll);
        HeadIsMember(seen);
      }
    }
    if NothingHeld(cfg, sys) {
      forall poll: R.Event | poll.Poll? && R.Answer(cfg, after.board, poll).Hit?
        ensures Shows(R.Answer(cfg, after.board, poll).body, Upcoming(sys))
      {
        assert R.Answer(cfg, after.board, poll) == R.Answer(cfg, sys.board, poll);
      }
    }
  }

  lemma LandsThenEnds(s: P.State, t: P.TaskId, acknowledged: bool)
    requires P.Reachable(s) && P.IsRouting(s, t) && s.handlers[t].Sending?
    ensures
      var s' := P.Step(s, P.DlqLands(t));
      var s'' := P.Step(s', if acknowledged then P.DlqReturns(t) else P.DlqFails(t));
      && s'.clock == s''.clock == s.clock
      && s'.landed == s''.landed == s.landed + 1
      && s'.invalidations == s.invalidations && s'.settled == s.settled
      && s''.invalidations == s.invalidations + (if acknowledged then 1 else 0)
      && s''.settled == (if acknowledged then s''.landed else s.settled)
      && t in s''.handlers
      && s''.handlers[t] == (if acknowledged then P.Announced(s.landed) else P.Unannounced(s.landed))
      && P.DlqId(P.JobOf(s, t)) in s''.dlq
  {
    hide P.DlqId, P.DlqPayloadOf, P.Reachable, P.AfterDlqLands, P.AfterJob, P.AfterEnqueue;
    L.LandingInFull(s, t);
  }

  /** When an attempt fails, every HIT from that moment on was read from states that contain its end. */
  lemma FailuresShow(cfg: C.Config, sys: System, ref: P.Ref, recorded: bool, later: seq<Event>)
    requires cfg.Valid() && Reachable(cfg, sys)
    requires P.Move(sys.jobs, ref, P.Fail(recorded)).Some?
    ensures HitsShow(cfg, Run(cfg, Step(cfg, sys, Work(P.OnJob(ref, P.Fail(recorded)))), later), Upcoming(sys))
  {
    hide Run, Good, HitsShow, P.JobId;
    ReachableIsGood(cfg, sys);
    var now := Step(cfg, sys, Work(P.OnJob(ref, P.Fail(recorded))));
    StepKeepsGood(cfg, sys, Work(P.OnJob(ref, P.Fail(recorded))));
    assert Upcoming(sys) < now.jobs.settled;
    RunKeepsGood(cfg, now, later);
    HitsShowSettled(cfg, Run(cfg, now, later), Upcoming(sys));
  }

  /** The events whose invalidation comes as a step of its own, once their caller or handler gets to it. */
  predicate IsFollowedUp(s: P.State, e: P.Event) {
    (e.Enqueue? || (e.OnJob? && e.event.Acknowledge?)) && IsQuiet(s, e)
  }

  /**
   * From the moment an enqueue returns, or the handler of a success runs, however long
   * either took, every HIT was read from states that contain the job or its success.
   */
  lemma FollowUpsShow(
    cfg: C.Config, sys: System, e: P.Event, between: seq<Event>, followUp: P.Event, later: seq<Event>)
    requires cfg.Valid() && Reachable(cfg, sys)
    requires IsFollowedUp(sys.jobs, e) && followUp == if e.Enqueue? then P.EnqueueReturns else P.CompletedHandler
    ensures
      var landed := Run(cfg, Step(cfg, sys, Work(e)), between);
      HitsShow(cfg, Run(cfg, Step(cfg, landed, Work(followUp)), later), Upcoming(sys))
  {
    hide Run, Good, HitsShow, P.JobId, IsQuiet;
    ReachableIsGood(cfg, sys);
    QuietEventsLandUnannounced(sys.jobs, e) by {
      GoodIsReachable(cfg, sys);
    }
    StepKeepsGood(cfg, sys, Work(e));
    RunKeepsGood(cfg, Step(cfg, sys, Work(e)), between);
    var landed := Run(cfg, Step(cfg, sys, Work(e)), between);
    StepKeepsGood(cfg, landed, Work(followUp));
    var now := Step(cfg, landed, Work(followUp));
    assert Upcoming(sys) < landed.jobs.landed == now.jobs.settled;
    RunKeepsGood(cfg, now, later);
    HitsShowSettled(cfg, Run(cfg, now, later), Upcoming(sys));
  }

  lemma GoodIsReachable(cfg: C.Config, sys: System)
    requires Good(cfg, sys)
    ensures P.Reachable(sys.jobs)
  {
  }

  // ----- Changes no one announces -----

  /** The events that change the board and leave its snapshots alone. */
  predicate IsQuiet(s: P.State, e: P.Event) {
    match e
    case Enqueue(ref, _, retained) => P.JobId(ref) !in s.live && !retained
    case OnJob(ref, je) => (je.Start? || je.Crash? || je.Acknowledge?) && P.Move(s, ref, je).Some?
    case DlqLands(t) => P.IsRouting(s, t) && s.handlers[t].Sending?
    case Drift => true
    case _ => false
  }

  lemma QuietJobEvents(j: P.Job, row: Option<S.Record>, now: nat, e: P.JobEvent)
    requires P.JobStep(j, row, now, e).Some?
    ensures
      var d := P.JobStep(j, row, now, e).value;
      && (e.Start? || e.Crash? || e.Acknowledge? ==> d.lands && !d.announces)
      && (e.Fail? ==> d.lands && d.announces)
      && (e.Check? || e.Act? || e.Commit? ==> !d.lands && !d.announces)
  {
  }

  lemma QuietEventsLandUnannounced(s: P.State, e: P.Event)
    requires P.Reachable(s)
    ensures IsQuiet(s, e) <==> P.Step(s, e).landed > s.landed && P.Step(s, e).invalidations == s.invalidations
  {
    match e
    case OnJob(ref, je) =>
      if P.Move(s, ref, je).Some? {
        var t := P.Find(s, ref).value;
        QuietJobEvents(P.JobOf(s, t), S.RecordAt(s.store, P.JobOf(s, t).ref), s.clock, je);
      }
    case DlqLands(t) =>
      if IsQuiet(s, e) {
        L.LandingInFull(s, t);
      }
    case _ =>
  }

  /**
   * A poll that would be a HIT stops being one after a change exactly when the change
   * was announced. A job starting, a crash and redelivery, a retry becoming ready, a
   * success whose handler has not run, and an add or dead letter write whose caller has
   * not resumed are not.
   */
  lemma NextPollMissesIffAnnounced(cfg: C.Config, sys: System, e: P.Event, poll: R.Event)
    requires cfg.Valid() && Reachable(cfg, sys) && poll.Poll?
    requires R.Answer(cfg, sys.board, poll).Hit?
    requires P.Step(sys.jobs, e).landed > sys.jobs.landed
    ensures R.Answer(cfg, Step(cfg, sys, Work(e)).board, poll).Hit? <==> IsQuiet(sys.jobs, e)
  {
    NextPollReachesQueueIff(cfg, sys, e, poll);
  }

  /** The budget would grant a rebuild now. */
  predicate Grants(cfg: C.Config, sys: System) {
    C.Claim(sys.board.cache.budget, cfg, sys.board.clock).1
  }

  /** Even after an announced change it goes to the queue only if the budget grants a rebuild; if not, it is STALE. */
  lemma NextPollReachesQueueIff(cfg: C.Config, sys: System, e: P.Event, poll: R.Event)
    requires cfg.Valid() && Reachable(cfg, sys) && poll.Poll?
    requires R.Answer(cfg, sys.board, poll).Hit?
    requires P.Step(sys.jobs, e).landed > sys.jobs.landed
    ensures
      var reply := R.Answer(cfg, Step(cfg, sys, Work(e)).board, poll);
      && (reply.Hit? <==> IsQuiet(sys.jobs, e))
      && (reply.Miss? <==> !IsQuiet(sys.jobs, e) && Grants(cfg, sys))
      && (reply.Stale? <==> !IsQuiet(sys.jobs, e) && !Grants(cfg, sys))
  {
    hide P.Step, R.Run, C.Claim, IsQuiet, C.Fresh;
    ReachableIsGood(cfg, sys);
    var jobs := P.Step(sys.jobs, e);
    QuietEventsLandUnannounced(sys.jobs, e);
    WorkCounters(sys.jobs, e);
    LandingTakesNoTime(sys.jobs, e);
    SignalsDeliver(cfg, sys.board, sys.jobs, jobs);
    var bumps := jobs.invalidations - sys.jobs.invalidations;
    HitSurvivesUnlessInvalidated(cfg, sys.board, Step(cfg, sys, Work(e)).board, bumps, poll);
  }

  lemma HitSurvivesUnlessInvalidated(cfg: C.Config, w: R.World, w': R.World, bumps: nat, poll: R.Event)
    requires poll.Poll? && R.Answer(cfg, w, poll).Hit?
    requires w'.clock == w.clock && w'.cache == w.cache.(generation := w.cache.generation + bumps)
    ensures
      var granted := C.Claim(w.cache.budget, cfg, w.clock).1;
      var reply := R.Answer(cfg, w', poll);
      && (bumps == 0 ==> reply == R.Answer(cfg, w, poll))
      && (bumps > 0 ==> if granted then reply.Miss? else reply == C.Stale(R.Answer(cfg, w, poll).body))
  {
  }

  lemma LandingTakesNoTime(s: P.State, e: P.Event)
    requires P.Step(s, e).landed > s.landed
    ensures P.Step(s, e).clock == s.clock
  {
  }
}
