/**
 * The cache at work: any interleaving of polls, upstream reads, completions, queue
 * mutations, invalidations and the passing of time. Rebuilds overlap freely and may
 * finish out of order.
 */
module SnapshotRuns {
  import opened Basics
  import opened SnapshotKeys
  import opened SnapshotCache

  /**
   * A body as the board rendered it: from which query, and from which queue states.
   * The board issues several commands, so it may observe several states; each is
   * named by how many queue mutations had landed when it was read.
   */
  datatype Body = Body(view: CanonicalQuery, seen: seq<nat>)

  /** A request that was let through and has not been answered yet. */
  datatype Rebuild = Rebuild(key: string, view: CanonicalQuery, generation: nat, seen: seq<nat>)

  /** One request let through on the cached route: when, in which budget window, under which key. */
  datatype Dispatch = Dispatch(at: nat, window: int, key: string)

  /** One body entering the cache: from which rebuild, and how many had been let through by then. */
  datatype Stored = Stored(key: string, body: Body, at: nat, flight: nat, letThrough: nat)

  /**
   * `settled[g]` is how many mutations had landed when the generation counter became
   * g; `dispatched` and `stored` are histories, and so is `passed`, the times of the
   * requests handed to the board without asking the cache. Rebuilds are numbered in the
   * order in which they were let through.
   */
  datatype World = World(
    cache: Cache<Body>, clock: nat, landed: nat, settled: seq<nat>,
    flights: map<nat, Rebuild>, dispatched: seq<Dispatch>, stored: seq<Stored>, passed: seq<nat>)

  datatype Event =
    | Poll(verb: string, path: string, query: Query)
    | Read(flight: nat)
    | Finish(flight: nat, status: int)
    | Land
    | Announce
    | Tick(ms: nat)

  /** A fresh process; the clock may already show any time. */
  function Init(start: nat): World {
    World(Cache(map[], 0, Budget(0, 0)), start, 0, [0], map[], [], [], [])
  }

  function Answer(cfg: Config, w: World, e: Event): Reply<Body>
    requires e.Poll?
  {
    Request(w.cache, cfg, e.verb, e.path, e.query, w.clock).1
  }

  function AfterPoll(cfg: Config, w: World, e: Event): World
    requires e.Poll?
  {
    var (cache, reply) := Request(w.cache, cfg, e.verb, e.path, e.query, w.clock);
    if reply.Miss? then
      w.(cache := cache,
         flights := w.flights[|w.dispatched| := Rebuild(reply.key, reply.view, reply.generation, [])],
         dispatched := w.dispatched + [Dispatch(w.clock, cache.budget.windowStart, reply.key)])
    else if reply.Passed? then w.(passed := w.passed + [w.clock])
    else w.(cache := cache)
  }

  function AfterRead(w: World, flight: nat): World {
    if flight !in w.flights then w
    else
      var f := w.flights[flight];
      w.(flights := w.flights[flight := f.(seen := f.seen + [w.landed])])
  }

  function AfterFinish(cfg: Config, w: World, flight: nat, status: int): World {
    if flight !in w.flights then w
    else
      var f := w.flights[flight];
      var body := Body(f.view, f.seen);
      w.(cache := Capture(w.cache, cfg, f.key, f.generation, status, body, w.clock),
         flights := w.flights - {flight},
         stored := if status != 200 then w.stored
                   else w.stored + [Stored(f.key, body, w.clock, flight, |w.dispatched|)])
  }

  function AfterAnnounce(w: World): World {
    w.(cache := Invalidate(w.cache), settled := w.settled + [w.landed])
  }

  /** An event that makes no sense in the current state changes nothing. */
  function Step(cfg: Config, w: World, e: Event): World {
    match e
    case Poll(_, _, _) => AfterPoll(cfg, w, e)
    case Read(flight) => AfterRead(w, flight)
    case Finish(flight, status) => AfterFinish(cfg, w, flight, status)
    case Land => w.(landed := w.landed + 1)
    case Announce => AfterAnnounce(w)
    case Tick(ms) => w.(clock := w.clock + ms)
  }

  function Run(cfg: Config, w: World, events: seq<Event>): World {
    if events == [] then w
    else Step(cfg, Run(cfg, w, events[..|events| - 1]), events[|events| - 1])
  }

  /** The same event n times over. */
  function Repeat(e: Event, n: nat): seq<Event> {
    if n == 0 then [] else Repeat(e, n - 1) + [e]
  }

  lemma RunNothing(cfg: Config, w: World)
    ensures Run(cfg, w, []) == w
  {
  }

  lemma RunSnoc(cfg: Config, w: World, events: seq<Event>, e: Event)
    ensures Run(cfg, w, events + [e]) == Step(cfg, Run(cfg, w, events), e)
  {
    assert (events + [e])[..|events|] == events;
  }

  /** A rebuild of the view with this key is out. */
  ghost predicate InFlight(w: World, key: string) {
    exists i :: i in w.flights && w.flights[i].key == key
  }

  // ----- What every step keeps -----

  /** Every state in `seen` is a past one and contained what had landed when generation g began. */
  ghost predicate Covers(landed: nat, settled: seq<nat>, seen: seq<nat>, g: nat) {
    && g < |settled|
    && (forall r | r in seen :: settled[g] <= r <= landed)
  }

  ghost predicate GenerationsSettle(w: World) {
    && |w.settled| == w.cache.generation + 1
    && (forall g | 0 <= g < |w.settled| :: w.settled[g] <= w.landed)
  }

  /** The key is the one the cache gives this view, and some query asks for the view. */
  ghost predicate Names(cfg: Config, key: string, view: CanonicalQuery) {
    key == cfg.keyOf(view) && exists q :: view == cfg.viewOf(q)
  }

  ghost predicate FlightsCover(cfg: Config, w: World) {
    forall i | i in w.flights ::
      && i < |w.dispatched|
      && Names(cfg, w.flights[i].key, w.flights[i].view)
      && Covers(w.landed, w.settled, w.flights[i].seen, w.flights[i].generation)
  }

  ghost predicate WasStored(cfg: Config, stored: seq<Stored>, key: string, entry: Entry<Body>) {
    exists i :: 0 <= i < |stored| && stored[i].key == key && stored[i].body == entry.body
                && stored[i].at + cfg.ttl == entry.expiresAt
  }

  ghost predicate EntriesCover(cfg: Config, w: World) {
    forall k | k in w.cache.entries ::
      && w.cache.entries[k].expiresAt <= w.clock + cfg.ttl
      && Names(cfg, k, w.cache.entries[k].body.view)
      && Covers(w.landed, w.settled, w.cache.entries[k].body.seen, w.cache.entries[k].generation)
  }

  ghost predicate EntriesWereStored(cfg: Config, w: World) {
    forall k | k in w.cache.entries :: WasStored(cfg, w.stored, k, w.cache.entries[k])
  }

  ghost predicate Inv(cfg: Config, w: World) {
    && GenerationsSettle(w)
    && FlightsCover(cfg, w)
    && EntriesCover(cfg, w)
    && EntriesWereStored(cfg, w)
    && |w.cache.entries| <= cfg.maxEntries
  }

  lemma InitKeepsInv(cfg: Config, start: nat)
    ensures Inv(cfg, Init(start))
  {
  }

  lemma PollKeepsInv(cfg: Config, w: World, e: Event)
    requires Inv(cfg, w) && e.Poll?
    ensures Inv(cfg, AfterPoll(cfg, w, e))
  {
    hide WasStored, Claim;
    var (cache, reply) := Request(w.cache, cfg, e.verb, e.path, e.query, w.clock);
    assert cache.entries == w.cache.entries && cache.generation == w.cache.generation;
    if reply.Miss? {
      assert Names(cfg, reply.key, reply.view);
    }
  }

  lemma ReadKeepsInv(cfg: Config, w: World, flight: nat)
    requires Inv(cfg, w)
    ensures Inv(cfg, AfterRead(w, flight))
  {
  }

  lemma FinishKeepsInv(cfg: Config, w: World, flight: nat, status: int)
    requires cfg.Valid() && Inv(cfg, w)
    ensures Inv(cfg, AfterFinish(cfg, w, flight, status))
  {
    hide Covers, Names;
    if flight in w.flights && status == 200 {
      var w' := AfterFinish(cfg, w, flight, status);
      var f := w.flights[flight];
      forall k | k in w'.cache.entries
        ensures WasStored(cfg, w'.stored, k, w'.cache.entries[k])
      {
        if k == f.key {
          assert w'.stored[|w.stored|] == Stored(k, Body(f.view, f.seen), w.clock, flight, |w.dispatched|);
        } else {
          WasStoredStays(cfg, w.stored, w'.stored[|w.stored|], k, w.cache.entries[k]);
        }
      }
    }
  }

  lemma WasStoredStays(cfg: Config, stored: seq<Stored>, more: Stored, key: string, entry: Entry<Body>)
    requires WasStored(cfg, stored, key, entry)
    ensures WasStored(cfg, stored + [more], key, entry)
  {
    var i :| 0 <= i < |stored| && stored[i].key == key && stored[i].body == entry.body
             && stored[i].at + cfg.ttl == entry.expiresAt;
    assert (stored + [more])[i] == stored[i];
  }

  lemma AnnounceKeepsInv(cfg: Config, w: World)
    requires Inv(cfg, w)
    ensures Inv(cfg, AfterAnnounce(w))
  {
  }

  lemma TimeAndChangeKeepInv(cfg: Config, w: World, e: Event)
    requires Inv(cfg, w) && (e.Land? || e.Tick?)
    ensures Inv(cfg, Step(cfg, w, e))
  {
  }

  lemma StepKeepsInv(cfg: Config, w: World, e: Event)
    requires cfg.Valid() && Inv(cfg, w)
    ensures Inv(cfg, Step(cfg, w, e))
  {
    hide Inv;
    match e
    case Poll(_, _, _) => PollKeepsInv(cfg, w, e);
    case Read(flight) => ReadKeepsInv(cfg, w, flight);
    case Finish(flight, status) => FinishKeepsInv(cfg, w, flight, status);
    case Announce => AnnounceKeepsInv(cfg, w);
    case _ => TimeAndChangeKeepInv(cfg, w, e);
  }

  lemma {:induction false} RunKeepsInv(cfg: Config, w: World, events: seq<Event>)
    requires cfg.Valid() && Inv(cfg, w)
    ensures Inv(cfg, Run(cfg, w, events))
  {
    if events != [] {
      RunKeepsInv(cfg, w, events[..|events| - 1]);
      StepKeepsInv(cfg, Run(cfg, w, events[..|events| - 1]), events[|events| - 1]);
    }
  }

  /** Some run of some length, started at some time, ends in this state. */
  ghost predicate Reachable(cfg: Config, w: World) {
    exists start, events :: w == Run(cfg, Init(start), events)
  }

  lemma ReachableKeepsInv(cfg: Config, w: World)
    requires cfg.Valid() && Reachable(cfg, w)
    ensures Inv(cfg, w)
  {
    var start, events :| w == Run(cfg, Init(start), events);
    InitKeepsInv(cfg, start);
    RunKeepsInv(cfg, Init(start), events);
  }

  // ----- What a served body is -----

  /** How many mutations had landed when the last invalidation ran. */
  function Settled(w: World): nat {
    if |w.settled| == 0 then 0 else w.settled[|w.settled| - 1]
  }

  ghost predicate StoredWithinTtl(cfg: Config, w: World, body: Body) {
    exists i :: 0 <= i < |w.stored| && w.stored[i].body == body
                && w.stored[i].at <= w.clock < w.stored[i].at + cfg.ttl
  }

  /** The body the board would build right now, uncached, for a view, in a given number of commands. */
  function Uncached(w: World, view: CanonicalQuery, commands: nat): Body {
    Body(view, seq(commands, _ => w.landed))
  }

  lemma SettledMeansLive(w: World, body: Body)
    requires forall r | r in body.seen :: Settled(w) <= r <= w.landed
    requires Settled(w) == w.landed
    ensures body == Uncached(w, body.view, |body.seen|)
  {
    assert forall i | 0 <= i < |body.seen| :: body.seen[i] in body.seen;
    assert body.seen == seq(|body.seen|, _ => w.landed);
  }

  lemma HitComesFromEntry(cfg: Config, w: World, poll: Event)
    requires cfg.Valid() && Inv(cfg, w) && poll.Poll? && Answer(cfg, w, poll).Hit?
    ensures
      var body := Answer(cfg, w, poll).body;
      && body.view == cfg.viewOf(poll.query)
      && Covers(w.landed, w.settled, body.seen, w.cache.generation)
      && StoredWithinTtl(cfg, w, body)
  {
    var key := cfg.keyOf(cfg.viewOf(poll.query));
    var entry := w.cache.entries[key];
    assert Names(cfg, key, entry.body.view);
    assert WasStored(cfg, w.stored, key, entry);
  }

  /**
   * In every reachable state a HIT is the caller's own view, was stored less than one
   * TTL ago, and was rendered from queue states that contain every mutation that had
   * landed when the last invalidation ran. When nothing has landed since, it is, state
   * for state, what the uncached board would answer now.
   */
  lemma HitIsFresh(cfg: Config, w: World, poll: Event)
    requires cfg.Valid() && Reachable(cfg, w) && poll.Poll?
    requires Answer(cfg, w, poll).Hit?
    ensures
      var body := Answer(cfg, w, poll).body;
      && body.view == cfg.viewOf(poll.query)
      && (forall r | r in body.seen :: Settled(w) <= r)
      && StoredWithinTtl(cfg, w, body)
      && (Settled(w) == w.landed ==> body == Uncached(w, body.view, |body.seen|))
  {
    hide Reachable, StoredWithinTtl, Uncached, Request, FlightsCover, EntriesCover, EntriesWereStored;
    ReachableKeepsInv(cfg, w);
    HitComesFromEntry(cfg, w, poll);
    if Settled(w) == w.landed {
      SettledMeansLive(w, Answer(cfg, w, poll).body);
    }
  }

  /**
   * Past the budget the answer may be old but is never another view's, and it still
   * contains everything that had landed by the last invalidation before its rebuild.
   */
  lemma StaleIsTheSameView(cfg: Config, w: World, poll: Event)
    requires cfg.Valid() && Reachable(cfg, w) && poll.Poll?
    requires Answer(cfg, w, poll).Stale?
    ensures
      var view := cfg.viewOf(poll.query);
      var body := Answer(cfg, w, poll).body;
      && body.view == view
      && Covers(w.landed, w.settled, body.seen, w.cache.entries[cfg.keyOf(view)].generation)
      && (exists i :: 0 <= i < |w.stored| && w.stored[i].body == body)
  {
    ReachableKeepsInv(cfg, w);
    var key := cfg.keyOf(cfg.viewOf(poll.query));
    assert Names(cfg, key, w.cache.entries[key].body.view);
    assert WasStored(cfg, w.stored, key, w.cache.entries[key]);
  }

  /** Every cached body sits under the key of the query it was built from, and the map keeps its ceiling. */
  lemma CacheIsCoherent(cfg: Config, w: World)
    requires cfg.Valid() && Reachable(cfg, w)
    ensures
      var cache := w.cache;
      && |cache.entries| <= cfg.maxEntries
      && (forall k | k in cache.entries :: Names(cfg, k, cache.entries[k].body.view))
  {
    ReachableKeepsInv(cfg, w);
  }
}
