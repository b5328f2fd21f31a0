/**
 * Which of the four answers a GET of the cached route gets: exactly when each, when a
 * held body is lost, and when a view that has been built once is never refused again.
 */
module Shedding {
  import opened Basics
  import opened SnapshotKeys
  import opened SnapshotCache
  import opened SnapshotRuns
  import opened RebuildBounds
  import opened OverlappingRebuilds

  /** Some body of this view is held, however old. */
  ghost predicate Holds(w: World, view: CanonicalQuery) {
    exists k :: k in w.cache.entries && w.cache.entries[k].body.view == view
  }

  /** One is held that has not expired and that no invalidation has overtaken. */
  ghost predicate HoldsCurrent(w: World, view: CanonicalQuery) {
    exists k :: k in w.cache.entries && w.cache.entries[k].body.view == view
                && w.clock < w.cache.entries[k].expiresAt && w.cache.entries[k].generation == w.cache.generation
  }

  lemma HeldUnderItsKey(cfg: Config, w: World, query: Query)
    requires cfg.Valid() && Reachable(cfg, w)
    ensures
      var view := cfg.viewOf(query);
      && (Holds(w, view) <==> cfg.keyOf(view) in w.cache.entries)
      && (HoldsCurrent(w, view) <==> Fresh(w.cache, cfg.keyOf(view), w.clock))
  {
    CacheIsCoherent(cfg, w);
    var view := cfg.viewOf(query);
    forall k | k in w.cache.entries
      ensures w.cache.entries[k].body.view == view <==> k == cfg.keyOf(view)
    {
      assert Names(cfg, k, w.cache.entries[k].body.view);
    }
  }

  /**
   * The middleware's whole decision, in every reachable state: HIT exactly if a current
   * body of the view is held; failing that MISS exactly if the budget has room; failing
   * that STALE exactly if any body of the view is held, however old; SHED only if none is.
   */
  lemma AnswersExactly(cfg: Config, w: World, query: Query)
    requires cfg.Valid() && Reachable(cfg, w)
    ensures
      var view := cfg.viewOf(query);
      var reply := Answer(cfg, w, PollOf(query));
      && (reply.Hit? <==> HoldsCurrent(w, view))
      && (reply.Miss? <==> !HoldsCurrent(w, view) && Room(cfg, w) > 0)
      && (reply.Stale? <==> !HoldsCurrent(w, view) && Room(cfg, w) == 0 && Holds(w, view))
      && (reply.Shed? <==> Room(cfg, w) == 0 && !Holds(w, view))
  {
    hide Reachable, Holds, HoldsCurrent;
    HeldUnderItsKey(cfg, w, query);
    CurrentIsHeld(w, cfg.viewOf(query));
  }

  lemma CurrentIsHeld(w: World, view: CanonicalQuery)
    ensures HoldsCurrent(w, view) ==> Holds(w, view)
  {
  }

  /** A refused caller is told to come back after the window's length, in whole seconds rounded up. */
  lemma ShedTellsWindow(cfg: Config, w: World, query: Query)
    requires cfg.Valid() && Answer(cfg, w, PollOf(query)).Shed?
    ensures cfg.window <= Answer(cfg, w, PollOf(query)).retryAfter * 1000 < cfg.window + 1000
  {
  }

  // ----- Losing what is held -----

  /**
   * A held body is dropped only by a completion, and exactly if that finds the cache at
   * its ceiling and is of another view.
   */
  lemma CompletionDropsIff(cfg: Config, w: World, e: Event, key: string)
    requires key in w.cache.entries
    ensures key !in Step(cfg, w, e).cache.entries <==>
      && e.Finish? && e.flight in w.flights && e.status == 200
      && |w.cache.entries| >= cfg.maxEntries && w.flights[e.flight].key != key
  {
    hide Claim, Fresh;
  }

  /** The views in use fit the cache: fewer than its ceiling, or a single one. */
  predicate Fits(cfg: Config, keys: set<string>) {
    |keys| < cfg.maxEntries || |keys| <= 1
  }

  ghost predicate KeepsAll(keys: set<string>, w: World) {
    && w.cache.entries.Keys <= keys
    && (forall i | i in w.flights :: w.flights[i].key in keys)
    && (forall i | 0 <= i < |w.stored| :: w.stored[i].key in w.cache.entries)
  }

  lemma FinishKeepsAll(cfg: Config, keys: set<string>, w: World, flight: nat, status: int)
    requires Fits(cfg, keys) && KeepsAll(keys, w)
    ensures KeepsAll(keys, AfterFinish(cfg, w, flight, status))
  {
    if flight in w.flights && status == 200 {
      var k := w.flights[flight].key;
      SubsetIsNoLarger(w.cache.entries.Keys, keys);
      assert |w.cache.entries| == |w.cache.entries.Keys|;
      if |w.cache.entries| >= cfg.maxEntries {
        OnlyMember(keys, k);
      }
      assert AfterFinish(cfg, w, flight, status).cache.entries.Keys
        == (if |w.cache.entries| >= cfg.maxEntries then {} else w.cache.entries.Keys) + {k};
    }
  }

  lemma OnlyMember<T>(s: set<T>, x: T)
    requires x in s && |s| <= 1
    ensures s == {x}
  {
    assert |s - {x}| == 0;
    assert s == (s - {x}) + {x};
  }

  lemma PollKeepsAll(cfg: Config, keys: set<string>, w: World, e: Event)
    requires KeepsAll(keys, w) && e.Poll? && cfg.keyOf(cfg.viewOf(e.query)) in keys
    ensures KeepsAll(keys, AfterPoll(cfg, w, e))
  {
    hide Claim, Fresh;
  }

  lemma {:induction false} RunKeepsAll(cfg: Config, start: nat, keys: set<string>, events: seq<Event>)
    requires Fits(cfg, keys) && UsesKeys(cfg, events, keys)
    ensures KeepsAll(keys, Run(cfg, Init(start), events))
  {
    hide KeepsAll;
    if events == [] {
      InitKeepsAll(start, keys);
    } else {
      var before, e := events[..|events| - 1], events[|events| - 1];
      assert e in events;
      RunKeepsAll(cfg, start, keys, before);
      StepKeepsAll(cfg, keys, Run(cfg, Init(start), before), e);
    }
  }

  lemma InitKeepsAll(start: nat, keys: set<string>)
    ensures KeepsAll(keys, Init(start))
  {
  }

  lemma StepKeepsAll(cfg: Config, keys: set<string>, w: World, e: Event)
    requires Fits(cfg, keys) && KeepsAll(keys, w)
    requires e.Poll? ==> cfg.keyOf(cfg.viewOf(e.query)) in keys
    ensures KeepsAll(keys, Step(cfg, w, e))
  {
    hide AfterPoll, AfterFinish;
    match e
    case Poll(_, _, _) => PollKeepsAll(cfg, keys, w, e);
    case Finish(flight, status) => FinishKeepsAll(cfg, keys, w, flight, status);
    case _ =>
  }

  /**
   * Where the views in use fit the cache, a view whose rebuild has once finished with a
   * 200 is never refused again, however the budget stands and however long ago it was.
   */
  lemma BuiltViewsAreNeverShed(cfg: Config, start: nat, keys: set<string>, events: seq<Event>, i: nat, query: Query)
    requires cfg.Valid() && Fits(cfg, keys) && UsesKeys(cfg, events, keys)
    requires i < |Run(cfg, Init(start), events).stored|
    requires Run(cfg, Init(start), events).stored[i].key == cfg.keyOf(cfg.viewOf(query))
    ensures !Answer(cfg, Run(cfg, Init(start), events), PollOf(query)).Shed?
  {
    hide Run, UsesKeys;
    RunKeepsAll(cfg, start, keys, events);
  }
}
