/**
 * What the cached route can cost its upstream: a rate bound that no sequence of GET
 * requests for it can beat, with what escapes it, and an amortised bound for runs in
 * which rebuilds do not overlap.
 */
module RebuildBounds {
  import opened Basics
  import opened SnapshotKeys
  import opened SnapshotCache
  import opened SnapshotRuns

  // ----- Rate -----

  /** How many requests were let through in the half-open interval [from, until). */
  function DispatchesIn(d: seq<Dispatch>, from: int, until: int): nat {
    if d == [] then 0
    else DispatchesIn(d[..|d| - 1], from, until) + (if from <= d[|d| - 1].at < until then 1 else 0)
  }

  ghost predicate InOrder(d: seq<Dispatch>, clock: nat) {
    && (forall i | 0 <= i < |d| :: d[i].at <= clock)
    && (forall i, j | 0 <= i <= j < |d| :: d[i].at <= d[j].at)
  }

  /** Each dispatch falls inside its window, and different windows are a full window apart. */
  ghost predicate Windowed(d: seq<Dispatch>, window: nat) {
    && (forall i | 0 <= i < |d| :: d[i].window <= d[i].at < d[i].window + window)
    && (forall i, j | 0 <= i <= j < |d| :: d[i].window == d[j].window || d[i].window + window <= d[j].window)
  }

  /** The last `used` dispatches are the current window's; all before belong to earlier windows. */
  ghost predicate Accounted(d: seq<Dispatch>, b: Budget, window: nat) {
    && b.used <= |d|
    && (forall i | |d| - b.used <= i < |d| :: d[i].window == b.windowStart)
    && (forall i | 0 <= i < |d| - b.used :: d[i].window + window <= b.windowStart)
  }

  /** A dispatch and the one `cap` places after it are never in the same window. */
  ghost predicate Capped(d: seq<Dispatch>, cap: nat, window: nat) {
    forall i, j | 0 <= i && i + cap <= j < |d| :: d[i].window + window <= d[j].window
  }

  ghost predicate BudgetInv(cfg: Config, w: World) {
    && InOrder(w.dispatched, w.clock)
    && Windowed(w.dispatched, cfg.window)
    && w.cache.budget.windowStart <= w.clock
    && w.cache.budget.used <= cfg.maxRefreshes
    && Accounted(w.dispatched, w.cache.budget, cfg.window)
    && Capped(w.dispatched, cfg.maxRefreshes, cfg.window)
  }

  lemma RollKeepsAccount(cfg: Config, d: seq<Dispatch>, b: Budget, now: nat)
    requires cfg.window > 0 && b.windowStart <= now
    requires InOrder(d, now) && Windowed(d, cfg.window) && Accounted(d, b, cfg.window)
    ensures
      var r := Roll(b, cfg, now);
      r.windowStart <= now < r.windowStart + cfg.window && Accounted(d, r, cfg.window)
  {
    var r := Roll(b, cfg, now);
    if r != b {
      forall i | 0 <= i < |d|
        ensures d[i].window + cfg.window <= r.windowStart
      {
        if i >= |d| - b.used {
          assert d[i].window == b.windowStart;
        }
      }
    }
  }

  lemma GrantKeepsOrder(d: seq<Dispatch>, x: Dispatch, window: nat)
    requires InOrder(d, x.at) && Windowed(d, window) && x.window <= x.at < x.window + window
    requires forall i | 0 <= i < |d| :: d[i].window == x.window || d[i].window + window <= x.window
    ensures InOrder(d + [x], x.at) && Windowed(d + [x], window)
  {
  }

  lemma GrantKeepsAccount(d: seq<Dispatch>, b: Budget, x: Dispatch, window: nat, cap: nat)
    requires Accounted(d, b, window) && Capped(d, cap, window) && b.used < cap && x.window == b.windowStart
    ensures Accounted(d + [x], b.(used := b.used + 1), window) && Capped(d + [x], cap, window)
  {
    forall i, j | 0 <= i && i + cap <= j < |d + [x]|
      ensures (d + [x])[i].window + window <= (d + [x])[j].window
    {
      if j == |d| {
        assert i < |d| - b.used;
      }
    }
  }

  lemma PollKeepsBudget(cfg: Config, w: World, e: Event)
    requires cfg.Valid() && BudgetInv(cfg, w) && e.Poll?
    ensures BudgetInv(cfg, AfterPoll(cfg, w, e))
  {
    var (cache, reply) := Request(w.cache, cfg, e.verb, e.path, e.query, w.clock);
    var r := Roll(w.cache.budget, cfg, w.clock);
    RollKeepsAccount(cfg, w.dispatched, w.cache.budget, w.clock);
    if reply.Miss? {
      var x := Dispatch(w.clock, cache.budget.windowStart, reply.key);
      GrantKeepsOrder(w.dispatched, x, cfg.window);
      GrantKeepsAccount(w.dispatched, r, x, cfg.window, cfg.maxRefreshes);
    }
  }

  lemma StepKeepsBudget(cfg: Config, w: World, e: Event)
    requires cfg.Valid() && BudgetInv(cfg, w)
    ensures BudgetInv(cfg, Step(cfg, w, e))
  {
    hide Windowed, Accounted, Capped;
    if e.Poll? {
      PollKeepsBudget(cfg, w, e);
    } else {
      var w' := Step(cfg, w, e);
      assert w'.dispatched == w.dispatched && w'.cache.budget == w.cache.budget && w'.clock >= w.clock;
    }
  }

  lemma {:induction false} RunKeepsBudget(cfg: Config, start: nat, events: seq<Event>)
    requires cfg.Valid()
    ensures BudgetInv(cfg, Run(cfg, Init(start), events))
  {
    if events != [] {
      RunKeepsBudget(cfg, start, events[..|events| - 1]);
      StepKeepsBudget(cfg, Run(cfg, Init(start), events[..|events| - 1]), events[|events| - 1]);
    }
  }

  /** The dispatches of an interval form one block of the history. */
  lemma {:induction false} IntervalIsBlock(d: seq<Dispatch>, clock: nat, from: int, until: int)
    returns (lo: nat, hi: nat)
    requires InOrder(d, clock)
    ensures lo <= hi <= |d| && hi - lo == DispatchesIn(d, from, until)
    ensures forall i | 0 <= i < |d| :: lo <= i < hi <==> from <= d[i].at < until
  {
    if d == [] {
      lo, hi := 0, 0;
    } else {
      var n := |d| - 1;
      lo, hi := IntervalIsBlock(d[..n], clock, from, until);
      if from <= d[n].at < until {
        if lo == hi {
          lo, hi := n, n + 1;
        } else {
          assert d[lo].at <= d[n].at;
          forall i | lo <= i < n
            ensures from <= d[i].at < until
          {
            assert d[lo].at <= d[i].at <= d[n].at;
          }
          hi := n + 1;
        }
        if 0 < lo {
          assert d[lo - 1].at <= d[n].at;
        }
      }
    }
  }

  /** k caps further on, at least k windows have begun. */
  lemma {:induction false} CapsSpanWindows(d: seq<Dispatch>, cap: nat, window: nat, i: nat, k: nat)
    requires Capped(d, cap, window)
    requires i + k * cap < |d|
    ensures d[i].window + k * window <= d[i + k * cap].window
  {
    if k > 0 {
      assert k * cap == (k - 1) * cap + cap && k * window == (k - 1) * window + window;
      assert 0 <= (k - 1) * cap;
      CapsSpanWindows(d, cap, window, i, k - 1);
      var j := i + (k - 1) * cap;
      assert d[j].window + window <= d[j + cap].window;
    }
  }

  /**
   * On a clock that does not run backwards, whatever else is requested and under however
   * many keys, an interval of length L lets at most (ceil(L / window) + 1) * cap of the
   * GET requests for the cached route through to the board.
   */
  lemma RebuildRateIsBounded(cfg: Config, start: nat, events: seq<Event>, from: int, length: nat)
    requires cfg.Valid()
    ensures
      DispatchesIn(Run(cfg, Init(start), events).dispatched, from, from + length)
        <= (CeilDiv(length, cfg.window) + 1) * cfg.maxRefreshes
  {
    RunKeepsBudget(cfg, start, events);
    var w := Run(cfg, Init(start), events);
    RateFromWindows(w.dispatched, w.clock, cfg.window, cfg.maxRefreshes, from, length);
  }

  lemma RateFromWindows(d: seq<Dispatch>, clock: nat, window: nat, cap: nat, from: int, length: nat)
    requires window > 0
    requires InOrder(d, clock) && Windowed(d, window) && Capped(d, cap, window)
    ensures DispatchesIn(d, from, from + length) <= (CeilDiv(length, window) + 1) * cap
  {
    hide Capped, Windowed, InOrder, DispatchesIn;
    var lo, hi := IntervalIsBlock(d, clock, from, from + length);
    var n := (CeilDiv(length, window) + 1) * cap;
    if lo + n < hi {
      PastTheInterval(d, window, cap, from, length, lo, n);
    }
  }

  lemma PastTheInterval(d: seq<Dispatch>, window: nat, cap: nat, from: int, length: nat, first: nat, n: nat)
    requires window > 0 && Windowed(d, window) && Capped(d, cap, window)
    requires n == (CeilDiv(length, window) + 1) * cap && first + n < |d| && from <= d[first].at
    ensures d[first + n].at >= from + length
  {
    var k := CeilDiv(length, window) + 1;
    CapsSpanWindows(d, cap, window, first, k);
    CeilDivCovers(length, window);
    assert k * window == CeilDiv(length, window) * window + window;
  }

  lemma CeilDivCovers(x: nat, y: nat)
    requires y > 0
    ensures CeilDiv(x, y) * y >= x
  {
    var n := x + y - 1;
    assert n == n / y * y + n % y;
  }

  // ----- What the rate bound covers -----

  function TimesIn(times: seq<nat>, from: int, until: int): nat {
    if times == [] then 0
    else TimesIn(times[..|times| - 1], from, until) + (if from <= times[|times| - 1] < until then 1 else 0)
  }

  /** All requests the board got in the interval: those let through and those passed on unasked. */
  function ArrivalsIn(w: World, from: int, until: int): nat {
    DispatchesIn(w.dispatched, from, until) + TimesIn(w.passed, from, until)
  }

  /** Every poll of the run is a GET of the cached route. */
  ghost predicate AllCacheable(events: seq<Event>) {
    forall e | e in events && e.Poll? :: IsCacheable(e.verb, e.path)
  }

  lemma {:induction false} NothingIsPassedOn(cfg: Config, w: World, events: seq<Event>)
    requires AllCacheable(events)
    ensures Run(cfg, w, events).passed == w.passed
  {
    if events != [] {
      var e := events[|events| - 1];
      assert e in events;
      NothingIsPassedOn(cfg, w, events[..|events| - 1]);
      StepPassesNothing(cfg, Run(cfg, w, events[..|events| - 1]), e);
    }
  }

  lemma StepPassesNothing(cfg: Config, w: World, e: Event)
    requires e.Poll? ==> IsCacheable(e.verb, e.path)
    ensures Step(cfg, w, e).passed == w.passed
  {
  }

  ghost predicate WithinRate(cfg: Config, start: nat, events: seq<Event>, from: int, length: nat)
    requires cfg.Valid()
  {
    ArrivalsIn(Run(cfg, Init(start), events), from, from + length)
      <= (CeilDiv(length, cfg.window) + 1) * cfg.maxRefreshes
  }

  /** If only GETs of the cached route are made, the bound covers everything that reaches the board. */
  lemma CacheableArrivalsAreBounded(cfg: Config, start: nat, events: seq<Event>, from: int, length: nat)
    requires cfg.Valid() && AllCacheable(events)
    ensures WithinRate(cfg, start, events, from, length)
  {
    RebuildRateIsBounded(cfg, start, events, from, length);
    NothingIsPassedOn(cfg, Init(start), events);
  }

  lemma TimesInSnoc(times: seq<nat>, t: nat, from: int, until: int)
    ensures TimesIn(times + [t], from, until) == TimesIn(times, from, until) + (if from <= t < until then 1 else 0)
  {
    assert (times + [t])[..|times|] == times;
  }

  /**
   * Any other request is handed on, each and every one, whatever the budget: n of them
   * bring the board n requests, and neither the cache nor the budget notices.
   */
  lemma {:induction false} OthersPassUncounted(cfg: Config, w: World, e: Event, n: nat)
    requires e.Poll? && !IsCacheable(e.verb, e.path)
    ensures
      var w' := Run(cfg, w, Repeat(e, n));
      && w' == w.(passed := w'.passed) && |w'.passed| == |w.passed| + n
      && TimesIn(w'.passed, w.clock, w.clock + 1) == TimesIn(w.passed, w.clock, w.clock + 1) + n
  {
    hide Step;
    if n == 0 {
      RunNothing(cfg, w);
    } else {
      OthersPassUncounted(cfg, w, e, n - 1);
      var mid := Run(cfg, w, Repeat(e, n - 1));
      RunSnoc(cfg, w, Repeat(e, n - 1), e);
      OneIsPassedOn(cfg, mid, e);
      TimesInSnoc(mid.passed, mid.clock, w.clock, w.clock + 1);
    }
  }

  lemma OneIsPassedOn(cfg: Config, w: World, e: Event)
    requires e.Poll? && !IsCacheable(e.verb, e.path)
    ensures Step(cfg, w, e) == w.(passed := w.passed + [w.clock])
  {
  }

  /** Every poll of the run has this method and path. */
  ghost predicate OnlyAsks(events: seq<Event>, verb: string, path: string) {
    forall e | e in events && e.Poll? :: e.verb == verb && e.path == path
  }

  /**
   * Exactly which requests the cap holds for: arrivals at the board by one method and
   * path stay within the rate, in every run and interval, if and only if they are GETs
   * of the cached route.
   */
  lemma CapHoldsIffCacheable(cfg: Config, verb: string, path: string)
    requires cfg.Valid()
    ensures verb == "GET" && path == "/api/queues"
      <==> forall start, events, from, length | OnlyAsks(events, verb, path) ::
             WithinRate(cfg, start, events, from, length)
  {
    hide Run, WithinRate;
    if IsCacheable(verb, path) {
      forall start, events, from, length | OnlyAsks(events, verb, path)
        ensures WithinRate(cfg, start, events, from, length)
      {
        CacheableArrivalsAreBounded(cfg, start, events, from, length);
      }
    } else {
      var e := Poll(verb, path, map[]);
      var n := (CeilDiv(1, cfg.window) + 1) * cfg.maxRefreshes + 1;
      BurstBeatsRate(cfg, e, n);
      RepeatIsOnly(e, n);
      assert OnlyAsks(Repeat(e, n), verb, path) && !WithinRate(cfg, 0, Repeat(e, n), 0, 1);
    }
  }

  lemma BurstBeatsRate(cfg: Config, e: Event, n: nat)
    requires cfg.Valid() && e.Poll? && !IsCacheable(e.verb, e.path)
    requires n > (CeilDiv(1, cfg.window) + 1) * cfg.maxRefreshes
    ensures !WithinRate(cfg, 0, Repeat(e, n), 0, 1)
  {
    hide Run;
    OthersPassUncounted(cfg, Init(0), e, n);
  }

  lemma {:induction false} RepeatIsOnly(e: Event, n: nat)
    ensures forall x | x in Repeat(e, n) :: x == e
  {
    if n > 0 {
      RepeatIsOnly(e, n - 1);
    }
  }

  /** HEAD requests for the route, and the route with a slash at its end, are such requests. */
  lemma VariantsAreNotCacheable()
    ensures !IsCacheable("HEAD", "/api/queues") && !IsCacheable("GET", "/api/queues/")
  {
    assert |"/api/queues/"| != |"/api/queues"|;
    assert |"HEAD"| != |"GET"|;
  }

  // ----- Amortised cost -----

  /** Rebuilds do not overlap later requests, and each succeeds. */
  ghost predicate Sequential(cfg: Config, start: nat, events: seq<Event>) {
    events == [] ||
    var before := events[..|events| - 1];
    var e := events[|events| - 1];
    && Sequential(cfg, start, before)
    && (e.Poll? ==> Run(cfg, Init(start), before).flights == map[])
    && (e.Finish? ==> e.status == 200)
  }

  /** Every poll asks for one of the views with these keys. */
  ghost predicate UsesKeys(cfg: Config, events: seq<Event>, keys: set<string>) {
    forall e | e in events && e.Poll? :: cfg.keyOf(cfg.viewOf(e.query)) in keys
  }

  function RebuildsOf(d: seq<Dispatch>, key: string): nat {
    if d == [] then 0 else RebuildsOf(d[..|d| - 1], key) + (if d[|d| - 1].key == key then 1 else 0)
  }

  /**
   * Each rebuild of a view after the first is charged to an invalidation or to a TTL
   * that ran out: `generation` invalidations happened by its dispatch, and `elapsed`
   * is how long after the start its body was stored.
   */
  ghost predicate Paid(rebuilds: nat, generation: nat, ttl: nat, elapsed: int) {
    (rebuilds - 1 - generation) * ttl <= elapsed
  }

  ghost predicate FlightPaid(cfg: Config, start: nat, keys: set<string>, w: World, f: Rebuild) {
    && f.key in keys
    && f.generation <= w.cache.generation
    && Paid(RebuildsOf(w.dispatched, f.key), f.generation, cfg.ttl, w.clock - start)
  }

  ghost predicate EntryPaid(cfg: Config, start: nat, w: World, k: string)
    requires k in w.cache.entries
  {
    var entry := w.cache.entries[k];
    && entry.generation <= w.cache.generation
    && entry.expiresAt <= w.clock + cfg.ttl
    && (!InFlight(w, k) ==>
          Paid(RebuildsOf(w.dispatched, k), entry.generation, cfg.ttl, entry.expiresAt - cfg.ttl - start))
  }

  ghost predicate ChargeInv(cfg: Config, start: nat, keys: set<string>, w: World) {
    && w.cache.entries.Keys <= keys
    && start <= w.clock
    && (forall i, j | i in w.flights && j in w.flights :: i == j)
    && (forall i | 0 <= i < |w.dispatched| :: w.dispatched[i].key in keys)
    && (forall i | i in w.flights :: FlightPaid(cfg, start, keys, w, w.flights[i]))
    && (forall k | k in w.cache.entries :: EntryPaid(cfg, start, w, k))
    && (forall k | k !in w.cache.entries && !InFlight(w, k) :: RebuildsOf(w.dispatched, k) == 0)
  }

  lemma RebuildIsPaid(cfg: Config, start: nat, w: World, k: string)
    requires cfg.Valid() && start <= w.clock && w.flights == map[]
    requires if k in w.cache.entries then EntryPaid(cfg, start, w, k) else RebuildsOf(w.dispatched, k) == 0
    requires !Fresh(w.cache, k, w.clock)
    ensures Paid(RebuildsOf(w.dispatched, k) + 1, w.cache.generation, cfg.ttl, w.clock - start)
  {
    var n := RebuildsOf(w.dispatched, k);
    if k in w.cache.entries {
      var entry := w.cache.entries[k];
      assert !InFlight(w, k);
      assert (n - 1 - entry.generation) * cfg.ttl <= entry.expiresAt - cfg.ttl - start;
      if entry.generation == w.cache.generation {
        assert (n - w.cache.generation) * cfg.ttl == (n - 1 - entry.generation) * cfg.ttl + cfg.ttl;
      } else {
        MulKeepsOrder(n - w.cache.generation, n - 1 - entry.generation, cfg.ttl);
      }
    } else {
      var g: int := w.cache.generation;
      MulKeepsOrder(-g, 0, cfg.ttl);
    }
  }

  lemma MulKeepsOrder(a: int, b: int, c: nat)
    requires a <= b
    ensures a * c <= b * c
  {
  }

  lemma PollKeepsCharge(cfg: Config, start: nat, keys: set<string>, w: World, e: Event)
    requires cfg.Valid() && ChargeInv(cfg, start, keys, w)
    requires e.Poll? && w.flights == map[] && cfg.keyOf(cfg.viewOf(e.query)) in keys
    ensures ChargeInv(cfg, start, keys, AfterPoll(cfg, w, e))
  {
    hide RebuildsOf, Paid, Claim, Roll;
    var (cache, reply) := Request(w.cache, cfg, e.verb, e.path, e.query, w.clock);
    var w' := AfterPoll(cfg, w, e);
    if reply.Miss? {
      var x := Dispatch(w.clock, cache.budget.windowStart, reply.key);
      RebuildIsPaid(cfg, start, w, reply.key);
      forall k
        ensures RebuildsOf(w'.dispatched, k) == RebuildsOf(w.dispatched, k) + (if k == reply.key then 1 else 0)
      {
        RebuildsOfSnoc(w.dispatched, x, k);
      }
      assert w'.flights.Keys == {|w.dispatched|};
      assert w'.flights[|w.dispatched|].key == reply.key;
      forall k | k in w'.cache.entries
        ensures EntryPaid(cfg, start, w', k)
      {
        assert EntryPaid(cfg, start, w, k);
        assert k != reply.key ==> !InFlight(w, k);
      }
    } else {
      forall k | k in w'.cache.entries
        ensures EntryPaid(cfg, start, w', k)
      {
        assert EntryPaid(cfg, start, w, k);
      }
    }
  }

  lemma RebuildsOfSnoc(d: seq<Dispatch>, x: Dispatch, k: string)
    ensures RebuildsOf(d + [x], k) == RebuildsOf(d, k) + (if k == x.key then 1 else 0)
  {
    assert (d + [x])[..|d|] == d;
  }

  lemma FinishKeepsCharge(cfg: Config, start: nat, keys: set<string>, w: World, flight: nat)
    requires cfg.Valid() && ChargeInv(cfg, start, keys, w) && |keys| < cfg.maxEntries
    ensures ChargeInv(cfg, start, keys, AfterFinish(cfg, w, flight, 200))
  {
    if flight in w.flights {
      var f := w.flights[flight];
      var w' := AfterFinish(cfg, w, flight, 200);
      assert |w.cache.entries| == |w.cache.entries.Keys|;
      SubsetIsNoLarger(w.cache.entries.Keys, keys);
      assert w'.cache.entries == w.cache.entries[f.key := w'.cache.entries[f.key]];
      assert w'.flights == map[];
      forall k | k in w'.cache.entries
        ensures EntryPaid(cfg, start, w', k)
      {
        if k == f.key {
          assert FlightPaid(cfg, start, keys, w, f);
        } else {
          assert EntryPaid(cfg, start, w, k);
          assert !InFlight(w, k);
        }
      }
      forall k | k !in w'.cache.entries
        ensures RebuildsOf(w'.dispatched, k) == 0
      {
        assert k != f.key && !InFlight(w, k);
      }
    }
  }

  lemma {:induction false} SubsetIsNoLarger<T>(a: set<T>, b: set<T>)
    requires a <= b
    ensures |a| <= |b|
  {
    if a != {} {
      var x :| x in a;
      SubsetIsNoLarger(a - {x}, b - {x});
    }
  }

  lemma OtherStepKeepsCharge(cfg: Config, start: nat, keys: set<string>, w: World, e: Event)
    requires cfg.Valid() && ChargeInv(cfg, start, keys, w)
    requires !e.Poll? && !e.Finish?
    ensures ChargeInv(cfg, start, keys, Step(cfg, w, e))
  {
    var w' := Step(cfg, w, e);
    assert w'.flights.Keys == w.flights.Keys;
    assert forall i | i in w.flights ::
      w'.flights[i].key == w.flights[i].key && w'.flights[i].generation == w.flights[i].generation;
    assert w'.cache.entries == w.cache.entries && w'.dispatched == w.dispatched;
    assert w'.clock >= w.clock && w'.cache.generation >= w.cache.generation;
    assert forall k :: InFlight(w', k) <==> InFlight(w, k);
    forall i | i in w'.flights
      ensures FlightPaid(cfg, start, keys, w', w'.flights[i])
    {
      assert FlightPaid(cfg, start, keys, w, w.flights[i]);
    }
    forall k | k in w'.cache.entries
      ensures EntryPaid(cfg, start, w', k)
    {
      assert EntryPaid(cfg, start, w, k);
    }
  }

  lemma {:induction false} RunKeepsCharge(cfg: Config, start: nat, keys: set<string>, events: seq<Event>)
    requires cfg.Valid() && |keys| < cfg.maxEntries
    requires Sequential(cfg, start, events) && UsesKeys(cfg, events, keys)
    ensures ChargeInv(cfg, start, keys, Run(cfg, Init(start), events))
  {
    if events != [] {
      var before := events[..|events| - 1];
      var e := events[|events| - 1];
      assert e in events;
      RunKeepsCharge(cfg, start, keys, before);
      var w := Run(cfg, Init(start), before);
      match e
      case Poll(_, _, _) => PollKeepsCharge(cfg, start, keys, w, e);
      case Finish(flight, status) => FinishKeepsCharge(cfg, start, keys, w, flight);
      case _ => OtherStepKeepsCharge(cfg, start, keys, w, e);
    }
  }

  lemma {:induction false} TotalIsSumOverKeys(d: seq<Dispatch>, keys: set<string>, bound: nat)
    requires forall i | 0 <= i < |d| :: d[i].key in keys
    requires forall k | k in keys :: RebuildsOf(d, k) <= bound
    ensures |d| <= |keys| * bound
    decreases |keys|
  {
    if d != [] {
      var k := d[0].key;
      RestStaysBounded(d, keys, k, bound);
      TotalIsSumOverKeys(Without(d, k), keys - {k}, bound);
      OneKeyMore(|keys - {k}|, bound);
    }
  }

  lemma OneKeyMore(n: nat, bound: nat)
    ensures (n + 1) * bound == n * bound + bound
  {
  }

  lemma RestStaysBounded(d: seq<Dispatch>, keys: set<string>, k: string, bound: nat)
    requires forall i | 0 <= i < |d| :: d[i].key in keys
    requires forall j | j in keys :: RebuildsOf(d, j) <= bound
    requires k in keys
    ensures forall i | 0 <= i < |Without(d, k)| :: Without(d, k)[i].key in keys - {k}
    ensures forall j | j in keys - {k} :: RebuildsOf(Without(d, k), j) <= bound
    ensures |d| <= |Without(d, k)| + bound
    ensures |keys| == |keys - {k}| + 1
  {
    forall j | j in keys - {k}
      ensures RebuildsOf(Without(d, k), j) <= bound
    {
      WithoutKeepsOthers(d, k, j);
    }
    KeysOfRest(d, keys, k);
    WithoutDropsOne(d, k);
  }

  lemma KeysOfRest(d: seq<Dispatch>, keys: set<string>, k: string)
    requires forall i | 0 <= i < |d| :: d[i].key in keys
    ensures forall i | 0 <= i < |Without(d, k)| :: Without(d, k)[i].key in keys - {k}
  {
    WithoutDropsOne(d, k);
    forall i | 0 <= i < |Without(d, k)|
      ensures Without(d, k)[i].key in keys - {k}
    {
      assert Without(d, k)[i] in Without(d, k);
    }
  }

  function Without(d: seq<Dispatch>, k: string): seq<Dispatch> {
    if d == [] then []
    else Without(d[..|d| - 1], k) + (if d[|d| - 1].key == k then [] else [d[|d| - 1]])
  }

  lemma {:induction false} WithoutKeepsOthers(d: seq<Dispatch>, k: string, j: string)
    requires j != k
    ensures RebuildsOf(Without(d, k), j) == RebuildsOf(d, j)
  {
    if d != [] {
      WithoutKeepsOthers(d[..|d| - 1], k, j);
      if d[|d| - 1].key != k {
        RebuildsOfSnoc(Without(d[..|d| - 1], k), d[|d| - 1], j);
      } else {
        assert Without(d, k) == Without(d[..|d| - 1], k);
      }
    }
  }

  lemma {:induction false} WithoutDropsOne(d: seq<Dispatch>, k: string)
    ensures |Without(d, k)| == |d| - RebuildsOf(d, k)
    ensures forall x | x in Without(d, k) :: x in d && x.key != k
  {
    if d != [] {
      WithoutDropsOne(d[..|d| - 1], k);
    }
  }

  lemma PaidBoundsRebuilds(rebuilds: nat, generation: nat, ttl: nat, elapsed: int, total: nat)
    requires ttl > 0 && elapsed <= total && Paid(rebuilds, generation, ttl, elapsed)
    ensures rebuilds <= 1 + generation + total / ttl
  {
    var x, q := rebuilds - 1 - generation, total / ttl;
    assert total == q * ttl + total % ttl;
    assert (q + 1) * ttl == q * ttl + ttl;
    if x >= q + 1 {
      MulKeepsOrder(q + 1, x, ttl);
    }
  }

  lemma ViewIsAmortised(cfg: Config, start: nat, keys: set<string>, w: World, k: string)
    requires cfg.Valid() && ChargeInv(cfg, start, keys, w)
    ensures start <= w.clock && RebuildsOf(w.dispatched, k) <= 1 + w.cache.generation + (w.clock - start) / cfg.ttl
  {
    var n, total := RebuildsOf(w.dispatched, k), w.clock - start;
    if InFlight(w, k) {
      var i :| i in w.flights && w.flights[i].key == k;
      assert FlightPaid(cfg, start, keys, w, w.flights[i]);
      PaidBoundsRebuilds(n, w.flights[i].generation, cfg.ttl, total, total);
    } else if k in w.cache.entries {
      assert EntryPaid(cfg, start, w, k);
      var entry := w.cache.entries[k];
      PaidBoundsRebuilds(n, entry.generation, cfg.ttl, entry.expiresAt - cfg.ttl - start, total);
    }
  }

  /**
   * However many polls arrive: if every rebuild succeeds before the next request, and
   * the views in use fit the cache, each view is built at most once, plus once per
   * invalidation, plus once per TTL elapsed.
   */
  lemma EachViewIsAmortised(cfg: Config, start: nat, keys: set<string>, events: seq<Event>, k: string)
    requires cfg.Valid() && |keys| < cfg.maxEntries
    requires Sequential(cfg, start, events) && UsesKeys(cfg, events, keys)
    ensures
      var w := Run(cfg, Init(start), events);
      start <= w.clock && RebuildsOf(w.dispatched, k) <= 1 + w.cache.generation + (w.clock - start) / cfg.ttl
  {
    hide ChargeInv, Run, Sequential, RebuildsOf;
    RunKeepsCharge(cfg, start, keys, events);
    ViewIsAmortised(cfg, start, keys, Run(cfg, Init(start), events), k);
  }

  /** All K views together cost the board at most K times that. */
  lemma RebuildsAreAmortised(cfg: Config, start: nat, keys: set<string>, events: seq<Event>)
    requires cfg.Valid() && |keys| < cfg.maxEntries
    requires Sequential(cfg, start, events) && UsesKeys(cfg, events, keys)
    ensures
      var w := Run(cfg, Init(start), events);
      && start <= w.clock
      && |w.dispatched| <= |keys| * (1 + w.cache.generation + (w.clock - start) / cfg.ttl)
  {
    hide Run, Sequential, RebuildsOf;
    RunKeepsCharge(cfg, start, keys, events);
    var w := Run(cfg, Init(start), events);
    forall k | k in keys
      ensures RebuildsOf(w.dispatched, k) <= 1 + w.cache.generation + (w.clock - start) / cfg.ttl
    {
      EachViewIsAmortised(cfg, start, keys, events, k);
    }
    TotalIsSumOverKeys(w.dispatched, keys, 1 + w.cache.generation + (w.clock - start) / cfg.ttl);
  }
}
