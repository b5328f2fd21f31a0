/**
 * Rebuilds of one view that overlap: the cache neither joins them nor keeps the newer
 * of two results. What that costs, when it happens, and what holds all the same.
 */
module OverlappingRebuilds {
  import opened Basics
  import opened SnapshotKeys
  import opened SnapshotCache
  import opened SnapshotRuns
  import opened RebuildBounds

  // ----- Simultaneous viewers -----

  function PollOf(query: Query): Event {
    Poll("GET", "/api/queues", query)
  }

  /** Polls of one view, none of them answered before the next. */
  function Burst(query: Query, n: nat): seq<Event> {
    Repeat(PollOf(query), n)
  }

  predicate IsFresh(cfg: Config, w: World, query: Query) {
    Fresh(w.cache, cfg.keyOf(cfg.viewOf(query)), w.clock)
  }

  /** How many more rebuilds the budget grants at this moment. */
  function Room(cfg: Config, w: World): nat {
    var used := Roll(w.cache.budget, cfg, w.clock).used;
    if used < cfg.maxRefreshes then cfg.maxRefreshes - used else 0
  }

  function BurstCost(cfg: Config, w: World, query: Query, n: nat): nat {
    if IsFresh(cfg, w, query) then 0 else if n <= Room(cfg, w) then n else Room(cfg, w)
  }

  /**
   * Concurrent misses are not coalesced: from any state whatsoever, n viewers of one
   * view who arrive before a rebuild is stored cost n rebuilds, as far as the budget
   * goes; they cost none only where the view is fresh already.
   */
  lemma {:induction false} OverlappingMissesAllRebuild(cfg: Config, w: World, query: Query, n: nat)
    requires cfg.Valid()
    ensures
      var w' := Run(cfg, w, Burst(query, n));
      && |w'.dispatched| == |w.dispatched| + BurstCost(cfg, w, query, n)
      && IsFresh(cfg, w', query) == IsFresh(cfg, w, query)
      && Room(cfg, w') == Room(cfg, w) - BurstCost(cfg, w, query, n)
  {
    hide Step, Room, IsFresh, Run;
    if n == 0 {
      RunNothing(cfg, w);
    } else {
      OverlappingMissesAllRebuild(cfg, w, query, n - 1);
      OnePollMore(cfg, Run(cfg, w, Burst(query, n - 1)), query);
      RunSnoc(cfg, w, Burst(query, n - 1), PollOf(query));
    }
  }

  lemma OnePollMore(cfg: Config, w: World, query: Query)
    requires cfg.Valid()
    ensures
      var w' := Step(cfg, w, PollOf(query));
      var cost := if IsFresh(cfg, w, query) || Room(cfg, w) == 0 then 0 else 1;
      && |w'.dispatched| == |w.dispatched| + cost
      && IsFresh(cfg, w', query) == IsFresh(cfg, w, query)
      && Room(cfg, w') == Room(cfg, w) - cost
  {
  }

  /** Exactly when any number of simultaneous viewers costs what one costs. */
  lemma ManyCostWhatOneCostsIff(cfg: Config, w: World, query: Query, n: nat)
    requires cfg.Valid() && n > 0
    ensures |Run(cfg, w, Burst(query, n)).dispatched| == |Run(cfg, w, Burst(query, 1)).dispatched|
         <==> n == 1 || IsFresh(cfg, w, query) || Room(cfg, w) <= 1
  {
    hide Run, Room, IsFresh;
    OverlappingMissesAllRebuild(cfg, w, query, n);
    OverlappingMissesAllRebuild(cfg, w, query, 1);
  }

  lemma {:induction false} RunFirst(cfg: Config, w: World, e: Event, rest: seq<Event>)
    ensures Run(cfg, w, [e] + rest) == Run(cfg, Step(cfg, w, e), rest)
  {
    hide Step;
    if rest == [] {
      assert [] + [e] == [e] + rest;
      RunSnoc(cfg, w, [], e);
    } else {
      var front, last := rest[..|rest| - 1], rest[|rest| - 1];
      assert [e] + rest == [e] + front + [last] && rest == front + [last];
      RunFirst(cfg, w, e, front);
      RunSnoc(cfg, w, [e] + front, last);
    }
  }

  // ----- Overtaking -----

  /** Something was read for `a` before something was read for `b`. */
  ghost predicate ReadEarlier(a: seq<nat>, b: seq<nat>) {
    exists r, r' :: r in a && r' in b && r < r'
  }

  /** Between two states the body held for a view was replaced by one with older contents. */
  ghost predicate GoesBack(w: World, w': World, key: string) {
    && key in w.cache.entries && key in w'.cache.entries
    && ReadEarlier(w'.cache.entries[key].body.seen, w.cache.entries[key].body.seen)
  }

  /** Rebuild i reads, the queue changes, rebuild j reads and is answered first. */
  function Overtaking(i: nat, j: nat): seq<Event> {
    [Read(i), Land, Read(j), Finish(j, 200)]
  }

  lemma OvertakingUnfolds(cfg: Config, w: World, i: nat, j: nat)
    ensures Run(cfg, w, Overtaking(i, j))
         == Step(cfg, Step(cfg, Step(cfg, Step(cfg, w, Read(i)), Land), Read(j)), Finish(j, 200))
  {
    hide Step;
    assert Overtaking(i, j) == [Read(i)] + ([Land] + ([Read(j)] + ([Finish(j, 200)] + [])));
    RunFirst(cfg, w, Read(i), [Land] + ([Read(j)] + ([Finish(j, 200)] + [])));
    var w1 := Step(cfg, w, Read(i));
    RunFirst(cfg, w1, Land, [Read(j)] + ([Finish(j, 200)] + []));
    var w2 := Step(cfg, w1, Land);
    RunFirst(cfg, w2, Read(j), [Finish(j, 200)] + []);
    RunFirst(cfg, Step(cfg, w2, Read(j)), Finish(j, 200), []);
  }

  /** What an overtaking leaves: j's body is held, i is still out, and what each has read. */
  lemma OvertakingInFull(cfg: Config, w: World, i: nat, j: nat)
    requires i in w.flights && j in w.flights && i != j
    ensures
      var w' := Run(cfg, w, Overtaking(i, j));
      var f := w.flights[j];
      && i in w'.flights && w'.flights[i] == w.flights[i].(seen := w.flights[i].seen + [w.landed])
      && f.key in w'.cache.entries
      && w'.cache.entries[f.key].body == Body(f.view, f.seen + [w.landed + 1])
      && w'.cache.entries[f.key].generation == f.generation
  {
    OvertakingUnfolds(cfg, w, i, j);
  }

  /** Whenever two rebuilds of one view are out, the queue can change so that the later answer takes the view back. */
  lemma AnyOverlapCanGoBack(cfg: Config, w: World, i: nat, j: nat)
    requires i in w.flights && j in w.flights && i != j && w.flights[i].key == w.flights[j].key
    ensures
      var w' := Run(cfg, w, Overtaking(i, j));
      i in w'.flights && GoesBack(w', Step(cfg, w', Finish(i, 200)), w.flights[i].key)
  {
    hide Run;
    OvertakingInFull(cfg, w, i, j);
    var w' := Run(cfg, w, Overtaking(i, j));
    var after := Step(cfg, w', Finish(i, 200));
    var key := w.flights[i].key;
    FinishInFull(cfg, w', i);
    assert w.landed in after.cache.entries[key].body.seen;
    assert w.landed + 1 in w'.cache.entries[key].body.seen;
  }

  /**
   * A rebuild that finishes late replaces a newer body. Two polls a window apart, the
   * first answered last: the body read after the change gives way to the one read
   * before it, and the generations, both 0, do not tell.
   */
  lemma OlderRebuildReplacesNewer(cfg: Config, start: nat, query: Query)
    requires cfg.Valid()
    ensures
      var key := cfg.keyOf(cfg.viewOf(query));
      var out := Run(cfg, Init(start), [PollOf(query), Tick(cfg.window), PollOf(query)]);
      var before := Run(cfg, out, Overtaking(0, 1));
      var after := Step(cfg, before, Finish(0, 200));
      && key in before.cache.entries && before.cache.entries[key].body.seen == [1]
      && key in after.cache.entries && after.cache.entries[key].body.seen == [0]
      && before.cache.entries[key].generation == after.cache.entries[key].generation == before.cache.generation == 0
  {
    hide Run, Step;
    TwoRebuildsOut(cfg, start, query);
    var out := Run(cfg, Init(start), [PollOf(query), Tick(cfg.window), PollOf(query)]);
    OvertakingInFull(cfg, out, 0, 1);
    FinishInFull(cfg, Run(cfg, out, Overtaking(0, 1)), 0);
    OvertakingKeepsGeneration(cfg, out, 0, 1);
  }

  lemma FinishInFull(cfg: Config, w: World, i: nat)
    requires i in w.flights
    ensures
      var f := w.flights[i];
      var w' := Step(cfg, w, Finish(i, 200));
      && f.key in w'.cache.entries && w'.cache.entries[f.key].body == Body(f.view, f.seen)
      && w'.cache.entries[f.key].generation == f.generation
  {
  }

  lemma OvertakingKeepsGeneration(cfg: Config, w: World, i: nat, j: nat)
    ensures Run(cfg, w, Overtaking(i, j)).cache.generation == w.cache.generation
  {
    OvertakingUnfolds(cfg, w, i, j);
  }

  lemma TwoRebuildsOut(cfg: Config, start: nat, query: Query)
    requires cfg.Valid()
    ensures
      var view := cfg.viewOf(query);
      var out := Run(cfg, Init(start), [PollOf(query), Tick(cfg.window), PollOf(query)]);
      var f := Rebuild(cfg.keyOf(view), view, 0, []);
      out.flights == map[0 := f, 1 := f] && out.landed == 0 && out.cache.generation == 0
  {
    hide Step;
    var w := Init(start);
    assert [PollOf(query), Tick(cfg.window), PollOf(query)]
        == [PollOf(query)] + ([Tick(cfg.window)] + ([PollOf(query)] + []));
    RunFirst(cfg, w, PollOf(query), [Tick(cfg.window)] + ([PollOf(query)] + []));
    var w1 := Step(cfg, w, PollOf(query));
    RunFirst(cfg, w1, Tick(cfg.window), [PollOf(query)] + []);
    var w2 := Step(cfg, w1, Tick(cfg.window));
    RunFirst(cfg, w2, PollOf(query), []);
    MissInFull(cfg, w, query);
    TickInFull(cfg, w1, cfg.window);
    MissInFull(cfg, w2, query);
  }

  lemma TickInFull(cfg: Config, w: World, ms: nat)
    ensures Step(cfg, w, Tick(ms)) == w.(clock := w.clock + ms)
  {
  }

  lemma MissInFull(cfg: Config, w: World, query: Query)
    requires cfg.Valid() && w.cache.entries == map[] && Room(cfg, w) > 0 && w.cache.budget.windowStart <= w.clock
    ensures
      var w' := Step(cfg, w, PollOf(query));
      var view := cfg.viewOf(query);
      && w'.cache.entries == map[] && w'.cache.generation == w.cache.generation
      && w'.cache.budget.windowStart <= w'.clock == w.clock && w'.landed == w.landed
      && w'.flights == w.flights[|w.dispatched| := Rebuild(cfg.keyOf(view), view, w.cache.generation, [])]
      && |w'.dispatched| == |w.dispatched| + 1
  {
  }

  // ----- When exactly -----

  predicate NoPolls(events: seq<Event>) {
    forall e | e in events :: !e.Poll?
  }

  /** Another rebuild of the same view is out. */
  ghost predicate HasRival(w: World, i: nat)
    requires i in w.flights
  {
    exists j :: j in w.flights && j != i && w.flights[j].key == w.flights[i].key
  }

  /** This rebuild has already read a state older than one the held body was read from. */
  ghost predicate IsBehind(w: World, i: nat)
    requires i in w.flights
  {
    var f := w.flights[i];
    f.key in w.cache.entries && ReadEarlier(f.seen, w.cache.entries[f.key].body.seen)
  }

  /** With the rebuilds that are out, and no further poll, things can go so that this one takes its view back. */
  ghost predicate CanGoBack(cfg: Config, w: World, i: nat)
    requires i in w.flights
  {
    exists events | NoPolls(events) ::
      var w' := Run(cfg, w, events);
      i in w'.flights && GoesBack(w', Step(cfg, w', Finish(i, 200)), w.flights[i].key)
  }

  lemma StepKeepsAhead(cfg: Config, w: World, i: nat, e: Event)
    requires Inv(cfg, w) && !e.Poll?
    requires i in w.flights && !HasRival(w, i) && !IsBehind(w, i)
    ensures
      var w' := Step(cfg, w, e);
      i in w'.flights ==> w'.flights[i].key == w.flights[i].key && !HasRival(w', i) && !IsBehind(w', i)
  {
    hide WasStored, Names;
    var w' := Step(cfg, w, e);
    if i in w'.flights {
      assert w'.flights.Keys <= w.flights.Keys;
      assert forall j | j in w'.flights :: w'.flights[j].key == w.flights[j].key;
      var k := w.flights[i].key;
      if k in w'.cache.entries {
        assert k in w.cache.entries && w'.cache.entries[k] == w.cache.entries[k];
        assert forall r | r in w.cache.entries[k].body.seen :: r <= w.landed;
        assert forall r | r in w'.flights[i].seen :: r in w.flights[i].seen || r == w.landed;
      }
    }
  }

  lemma {:induction false} RunKeepsAhead(cfg: Config, w: World, i: nat, events: seq<Event>)
    requires cfg.Valid() && Inv(cfg, w) && NoPolls(events)
    requires i in w.flights && !HasRival(w, i) && !IsBehind(w, i)
    ensures
      var w' := Run(cfg, w, events);
      i in w'.flights ==> w'.flights[i].key == w.flights[i].key && !HasRival(w', i) && !IsBehind(w', i)
  {
    hide Inv, HasRival, IsBehind, Step;
    if events != [] {
      var before, e := events[..|events| - 1], events[|events| - 1];
      assert e in events;
      RunKeepsAhead(cfg, w, i, before);
      RunKeepsInv(cfg, w, before);
      var mid := Run(cfg, w, before);
      if i in mid.flights {
        StepKeepsAhead(cfg, mid, i, e);
      } else {
        NoPollNoRebuild(cfg, mid, i, e);
      }
    }
  }

  lemma NoPollNoRebuild(cfg: Config, w: World, i: nat, e: Event)
    requires !e.Poll? && i !in w.flights
    ensures i !in Step(cfg, w, e).flights
  {
  }

  lemma GoesBackMeansBehind(cfg: Config, w: World, i: nat)
    requires i in w.flights
    ensures GoesBack(w, Step(cfg, w, Finish(i, 200)), w.flights[i].key) <==> IsBehind(w, i)
  {
    FinishInFull(cfg, w, i);
  }

  /**
   * With no further poll, the held body of a view can be taken back by a rebuild that is
   * out exactly when another rebuild of the view is out too, or it has already read a
   * state older than what is held. Generations play no part.
   */
  lemma CanGoBackIff(cfg: Config, w: World, i: nat)
    requires cfg.Valid() && Reachable(cfg, w) && i in w.flights
    ensures CanGoBack(cfg, w, i) <==> HasRival(w, i) || IsBehind(w, i)
  {
    hide Inv, IsBehind, GoesBack, Step;
    ReachableKeepsInv(cfg, w);
    if HasRival(w, i) {
      var j :| j in w.flights && j != i && w.flights[j].key == w.flights[i].key;
      AnyOverlapCanGoBack(cfg, w, i, j);
      assert NoPolls(Overtaking(i, j));
    } else if IsBehind(w, i) {
      GoesBackMeansBehind(cfg, w, i);
      assert Run(cfg, w, []) == w && NoPolls([]);
    } else if CanGoBack(cfg, w, i) {
      var events :| NoPolls(events) && i in Run(cfg, w, events).flights
        && GoesBack(Run(cfg, w, events), Step(cfg, Run(cfg, w, events), Finish(i, 200)), w.flights[i].key);
      RunKeepsAhead(cfg, w, i, events);
      GoesBackMeansBehind(cfg, Run(cfg, w, events), i);
    }
  }

  /**
   * One further poll is all it takes to make a rival for any rebuild that is out: after
   * an invalidation and a window's time, whoever asks for the same view is let through.
   */
  lemma RivalCanAlwaysCome(cfg: Config, w: World, i: nat)
    requires cfg.Valid() && Reachable(cfg, w) && i in w.flights
    ensures exists query ::
      var w' := Run(cfg, w, [Announce, Tick(cfg.window), PollOf(query)]);
      && i in w'.flights && w'.flights[i] == w.flights[i]
      && HasRival(w', i) && CanGoBack(cfg, w', i)
  {
    hide CanGoBack, Inv, Run;
    var start, events :| w == Run(cfg, Init(start), events);
    RunKeepsBudget(cfg, start, events);
    ReachableKeepsInv(cfg, w);
    FlightsAreNamed(cfg, w, i);
    var query :| w.flights[i].view == cfg.viewOf(query);
    EntriesAreNotAhead(cfg, w);
    PolledAgain(cfg, w, query);
    var more := [Announce, Tick(cfg.window), PollOf(query)];
    var w' := Run(cfg, w, more);
    assert |w.dispatched| in w'.flights;
    ReachableOn(cfg, w, more);
    CanGoBackIff(cfg, w', i);
  }

  lemma FlightsAreNamed(cfg: Config, w: World, i: nat)
    requires Inv(cfg, w) && i in w.flights
    ensures i < |w.dispatched| && Names(cfg, w.flights[i].key, w.flights[i].view)
  {
  }

  lemma EntriesAreNotAhead(cfg: Config, w: World)
    requires Inv(cfg, w)
    ensures forall k | k in w.cache.entries :: w.cache.entries[k].generation <= w.cache.generation
  {
  }

  /** A poll of any view after an invalidation and a window's time is let through. */
  lemma PolledAgain(cfg: Config, w: World, query: Query)
    requires cfg.Valid() && w.cache.budget.windowStart <= w.clock
    requires forall k | k in w.cache.entries :: w.cache.entries[k].generation <= w.cache.generation
    ensures
      var view := cfg.viewOf(query);
      Run(cfg, w, [Announce, Tick(cfg.window), PollOf(query)]).flights
        == w.flights[|w.dispatched| := Rebuild(cfg.keyOf(view), view, w.cache.generation + 1, [])]
  {
    hide Run;
    assert [Announce, Tick(cfg.window), PollOf(query)] == [Announce] + ([Tick(cfg.window)] + ([PollOf(query)] + []));
    RunFirst(cfg, w, Announce, [Tick(cfg.window)] + ([PollOf(query)] + []));
    var w1 := Step(cfg, w, Announce);
    RunFirst(cfg, w1, Tick(cfg.window), [PollOf(query)] + []);
    var w2 := Step(cfg, w1, Tick(cfg.window));
    RunFirst(cfg, w2, PollOf(query), []);
    RunNothing(cfg, Step(cfg, w2, PollOf(query)));
  }

  lemma {:induction false} ReachableOn(cfg: Config, w: World, events: seq<Event>)
    requires Reachable(cfg, w)
    ensures Reachable(cfg, Run(cfg, w, events))
  {
    if events == [] {
      RunNothing(cfg, w);
    } else {
      var front, e := events[..|events| - 1], events[|events| - 1];
      ReachableOn(cfg, w, front);
      var start, before :| Run(cfg, w, front) == Run(cfg, Init(start), before);
      RunSnoc(cfg, Init(start), before, e);
      RunSnoc(cfg, w, front, e);
      assert events == front + [e];
    }
  }

  // ----- Only overlapping rebuilds go back -----

  /** A rebuild let through after a body was stored reads what it reads later. */
  ghost predicate ReadsInOrder(w: World) {
    && (forall g | g in w.flights :: g < |w.dispatched| && forall r | r in w.flights[g].seen :: r <= w.landed)
    && (forall i | 0 <= i < |w.stored| ::
          w.stored[i].letThrough <= |w.dispatched| && forall r | r in w.stored[i].body.seen :: r <= w.landed)
    && (forall i, g | 0 <= i < |w.stored| && g in w.flights && w.stored[i].letThrough <= g ::
          !ReadEarlier(w.flights[g].seen, w.stored[i].body.seen))
    && (forall i, j | 0 <= i < j < |w.stored| && w.stored[i].letThrough <= w.stored[j].flight ::
          !ReadEarlier(w.stored[j].body.seen, w.stored[i].body.seen))
  }

  lemma PollKeepsReadsInOrder(cfg: Config, w: World, e: Event)
    requires ReadsInOrder(w) && e.Poll?
    ensures ReadsInOrder(AfterPoll(cfg, w, e))
  {
    hide Request;
  }

  lemma ReadKeepsReadsInOrder(w: World, flight: nat)
    requires ReadsInOrder(w)
    ensures ReadsInOrder(AfterRead(w, flight))
  {
    if flight in w.flights {
      var f, w' := w.flights[flight], AfterRead(w, flight);
      forall i | 0 <= i < |w.stored| && w.stored[i].letThrough <= flight
        ensures !ReadEarlier(w'.flights[flight].seen, w.stored[i].body.seen)
      {
        assert !ReadEarlier(f.seen, w.stored[i].body.seen);
        assert forall r | r in w'.flights[flight].seen :: r in f.seen || r == w.landed;
      }
    }
  }

  lemma FinishKeepsReadsInOrder(cfg: Config, w: World, flight: nat, status: int)
    requires ReadsInOrder(w)
    ensures ReadsInOrder(AfterFinish(cfg, w, flight, status))
  {
    hide ReadEarlier, Capture;
  }

  lemma {:induction false} RunKeepsReadsInOrder(cfg: Config, start: nat, events: seq<Event>)
    ensures ReadsInOrder(Run(cfg, Init(start), events))
  {
    if events != [] {
      var before, e := events[..|events| - 1], events[|events| - 1];
      RunKeepsReadsInOrder(cfg, start, before);
      StepKeepsReadsInOrder(cfg, Run(cfg, Init(start), before), e);
    }
  }

  lemma StepKeepsReadsInOrder(cfg: Config, w: World, e: Event)
    requires ReadsInOrder(w)
    ensures ReadsInOrder(Step(cfg, w, e))
  {
    hide AfterPoll, AfterRead, AfterFinish, ReadEarlier;
    match e
    case Poll(_, _, _) => PollKeepsReadsInOrder(cfg, w, e);
    case Read(flight) => ReadKeepsReadsInOrder(w, flight);
    case Finish(flight, status) => FinishKeepsReadsInOrder(cfg, w, flight, status);
    case _ =>
  }

  /**
   * If a body was read from an older state than one stored before it, whatever their
   * views, its rebuild had been let through before that one was stored: the two overlapped.
   */
  lemma OnlyOverlapsGoBack(cfg: Config, w: World, i: nat, j: nat)
    requires Reachable(cfg, w) && i < j < |w.stored|
    requires ReadEarlier(w.stored[j].body.seen, w.stored[i].body.seen)
    ensures w.stored[j].flight < w.stored[i].letThrough
  {
    hide ReadEarlier;
    var start, events :| w == Run(cfg, Init(start), events);
    RunKeepsReadsInOrder(cfg, start, events);
  }

  // ----- One rebuild per view at a time -----

  /** No view is let through while a rebuild of it is out. */
  ghost predicate OnePerView(cfg: Config, start: nat, events: seq<Event>) {
    events == [] ||
    var before := events[..|events| - 1];
    OnePerView(cfg, start, before) && JoinsNone(cfg, Run(cfg, Init(start), before), events[|events| - 1])
  }

  ghost predicate JoinsNone(cfg: Config, w: World, e: Event) {
    e.Poll? && Answer(cfg, w, e).Miss? ==> !InFlight(w, cfg.keyOf(cfg.viewOf(e.query)))
  }

  /** Rebuilds of one view follow each other. */
  ghost predicate TakeTurns(w: World) {
    && (forall g, h | g in w.flights && h in w.flights && w.flights[g].key == w.flights[h].key :: g == h)
    && (forall g | g in w.flights :: g < |w.dispatched|)
    && (forall i | 0 <= i < |w.stored| :: w.stored[i].letThrough <= |w.dispatched|)
    && (forall i, g | 0 <= i < |w.stored| && g in w.flights && w.stored[i].key == w.flights[g].key ::
          w.stored[i].letThrough <= g)
    && (forall i, j | 0 <= i < j < |w.stored| && w.stored[i].key == w.stored[j].key ::
          w.stored[i].letThrough <= w.stored[j].flight)
  }

  lemma PollTakesTurns(cfg: Config, w: World, e: Event)
    requires TakeTurns(w) && e.Poll? && JoinsNone(cfg, w, e)
    ensures TakeTurns(AfterPoll(cfg, w, e))
  {
    hide Claim, Fresh;
  }

  lemma OtherStepTakesTurns(cfg: Config, w: World, e: Event)
    requires TakeTurns(w) && !e.Poll?
    ensures TakeTurns(Step(cfg, w, e))
  {
    hide Capture;
  }

  lemma {:induction false} RunTakesTurns(cfg: Config, start: nat, events: seq<Event>)
    requires OnePerView(cfg, start, events)
    ensures TakeTurns(Run(cfg, Init(start), events))
  {
    if events != [] {
      var before, e := events[..|events| - 1], events[|events| - 1];
      RunTakesTurns(cfg, start, before);
      if e.Poll? {
        PollTakesTurns(cfg, Run(cfg, Init(start), before), e);
      } else {
        OtherStepTakesTurns(cfg, Run(cfg, Init(start), before), e);
      }
    }
  }

  /**
   * The remedy a coalescing cache would bring: where no view is rebuilt twice at once,
   * every state a body was read from is at or after every state that any earlier body
   * of its view was read from, through replacement and wholesale clearing alike.
   */
  lemma CoalescedRebuildsNeverGoBack(cfg: Config, start: nat, events: seq<Event>, i: nat, j: nat)
    requires OnePerView(cfg, start, events)
    requires i < j < |Run(cfg, Init(start), events).stored|
    ensures
      var stored := Run(cfg, Init(start), events).stored;
      stored[i].key == stored[j].key ==>
        forall r, r' | r in stored[i].body.seen && r' in stored[j].body.seen :: r <= r'
  {
    hide Run, OnePerView;
    RunTakesTurns(cfg, start, events);
    RunKeepsReadsInOrder(cfg, start, events);
  }

  // ----- What is held is what finished last -----

  /** The last body of this view to be stored. */
  function Latest(stored: seq<Stored>, key: string): Option<Stored> {
    if stored == [] then None
    else if stored[|stored| - 1].key == key then Some(stored[|stored| - 1])
    else Latest(stored[..|stored| - 1], key)
  }

  ghost predicate HoldsLatest(w: World) {
    forall k | k in w.cache.entries ::
      Latest(w.stored, k).Some? && Latest(w.stored, k).value.body == w.cache.entries[k].body
  }

  lemma StepHoldsLatest(cfg: Config, w: World, e: Event)
    requires HoldsLatest(w)
    ensures HoldsLatest(Step(cfg, w, e))
  {
    hide Latest;
    if e.Finish? && e.flight in w.flights && e.status == 200 {
      var f := w.flights[e.flight];
      var last := Stored(f.key, Body(f.view, f.seen), w.clock, e.flight, |w.dispatched|);
      forall k
        ensures Latest(Step(cfg, w, e).stored, k)
             == if k == f.key then Some(last) else Latest(w.stored, k)
      {
        LatestSnoc(w.stored, last, k);
      }
    }
  }

  lemma LatestSnoc(stored: seq<Stored>, more: Stored, key: string)
    ensures Latest(stored + [more], key) == if more.key == key then Some(more) else Latest(stored, key)
  {
    assert (stored + [more])[..|stored|] == stored;
  }

  lemma {:induction false} RunHoldsLatest(cfg: Config, start: nat, events: seq<Event>)
    ensures HoldsLatest(Run(cfg, Init(start), events))
  {
    if events != [] {
      RunHoldsLatest(cfg, start, events[..|events| - 1]);
      StepHoldsLatest(cfg, Run(cfg, Init(start), events[..|events| - 1]), events[|events| - 1]);
    }
  }

  /** Past the budget a view is answered with its own rebuild that finished last; a HIT is that one too. */
  lemma ServedIsLatest(cfg: Config, w: World, poll: Event)
    requires Reachable(cfg, w) && poll.Poll? && (Answer(cfg, w, poll).Stale? || Answer(cfg, w, poll).Hit?)
    ensures
      var last := Latest(w.stored, cfg.keyOf(cfg.viewOf(poll.query)));
      last.Some? && last.value.body == Answer(cfg, w, poll).body
  {
    var start, events :| w == Run(cfg, Init(start), events);
    RunHoldsLatest(cfg, start, events);
  }
}
