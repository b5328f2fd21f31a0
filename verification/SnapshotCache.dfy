/**
 * The dashboard snapshot cache. Each method of DashboardCache is one synchronous
 * stretch of the middleware; the functions above the class say what it does to the
 * cache as a value, and are what the theorems about whole runs speak of.
 */
module SnapshotCache {
  import opened Basics
  import opened SnapshotKeys

  /**
   * Deployment settings, and how a request's query is reduced to a view and a view
   * printed as a key. All the cache relies on is that distinct views get distinct
   * keys; Dashboard() is the keying the middleware uses.
   */
  datatype Config = Config(
    ttl: nat, maxEntries: nat, maxRefreshes: nat, window: nat,
    viewOf: Query -> CanonicalQuery, keyOf: CanonicalQuery -> string)
  {
    ghost predicate Valid() {
      && ttl > 0 && maxEntries > 0 && maxRefreshes > 0 && window > 0
      && forall q, r :: keyOf(viewOf(q)) == keyOf(viewOf(r)) ==> viewOf(q) == viewOf(r)
    }
  }

  function Dashboard(
    ttl: nat, maxEntries: nat, maxRefreshes: nat, window: nat, names: seq<string>, number: Number): Config
  {
    Config(ttl, maxEntries, maxRefreshes, window, (q: Query) => Canonicalize(q, names, number), BuildKey)
  }

  lemma DashboardIsValid(ttl: nat, maxEntries: nat, maxRefreshes: nat, window: nat, names: seq<string>, number: Number)
    requires ttl > 0 && maxEntries > 0 && maxRefreshes > 0 && window > 0
    ensures Dashboard(ttl, maxEntries, maxRefreshes, window, names, number).Valid()
  {
    hide BuildKey, Canonicalize;
    var cfg := Dashboard(ttl, maxEntries, maxRefreshes, window, names, number);
    forall q, r | cfg.keyOf(cfg.viewOf(q)) == cfg.keyOf(cfg.viewOf(r))
      ensures cfg.viewOf(q) == cfg.viewOf(r)
    {
      KeyIsInjective(Canonicalize(q, names, number), Canonicalize(r, names, number), names);
    }
  }

  datatype Entry<+B> = Entry(body: B, expiresAt: int, generation: nat)
  datatype Budget = Budget(windowStart: int, used: nat)
  datatype Cache<+B> = Cache(entries: map<string, Entry<B>>, generation: nat, budget: Budget)

  /** What the middleware does with a request. Only Miss lets it through on the cached route. */
  datatype Reply<+B> =
    | Passed
    | Hit(body: B)
    | Stale(body: B)
    | Shed(retryAfter: nat)
    | Miss(key: string, view: CanonicalQuery, generation: nat)

  predicate IsCacheable(verb: string, path: string) {
    verb == "GET" && path == "/api/queues"
  }

  function Roll(b: Budget, cfg: Config, now: int): Budget {
    if now - b.windowStart >= cfg.window then Budget(now, 0) else b
  }

  function Claim(b: Budget, cfg: Config, now: int): (Budget, bool) {
    var r := Roll(b, cfg, now);
    if r.used >= cfg.maxRefreshes then (r, false) else (r.(used := r.used + 1), true)
  }

  predicate Fresh<B>(c: Cache<B>, key: string, now: int) {
    key in c.entries && c.entries[key].expiresAt > now && c.entries[key].generation == c.generation
  }

  function Request<B>(c: Cache<B>, cfg: Config, verb: string, path: string, query: Query, now: int)
    : (Cache<B>, Reply<B>)
  {
    if !IsCacheable(verb, path) then (c, Passed)
    else
      var view := cfg.viewOf(query);
      var key := cfg.keyOf(view);
      if Fresh(c, key, now) then (c, Hit(c.entries[key].body))
      else
        var (budget, granted) := Claim(c.budget, cfg, now);
        var c' := c.(budget := budget);
        if granted then (c', Miss(key, view, c.generation))
        else if key in c.entries then (c', Stale(c.entries[key].body))
        else (c', Shed(CeilDiv(cfg.window, 1000)))
  }

  /** The replaced `res.json`: keep a 200 body under the key and generation of its dispatch. */
  function Capture<B>(c: Cache<B>, cfg: Config, key: string, generation: nat, status: int, body: B, now: int)
    : Cache<B>
  {
    if status != 200 then c
    else
      var kept := if |c.entries| >= cfg.maxEntries then map[] else c.entries;
      c.(entries := kept[key := Entry(body, now + cfg.ttl, generation)])
  }

  function Invalidate<B>(c: Cache<B>): Cache<B> {
    c.(generation := c.generation + 1)
  }

  class DashboardCache<B> {
    const cfg: Config
    var snapshotCache: map<string, Entry<B>>
    var currentGeneration: nat
    var windowStart: int
    var used: nat

    ghost function Value(): Cache<B>
      reads this
    {
      Cache(snapshotCache, currentGeneration, Budget(windowStart, used))
    }

    constructor (cfg: Config)
      ensures this.cfg == cfg && Value() == Cache(map[], 0, Budget(0, 0))
    {
      this.cfg := cfg;
      snapshotCache := map[];
      currentGeneration, windowStart, used := 0, 0, 0;
    }

    method InvalidateDashboardSnapshot()
      modifies this`currentGeneration
      ensures Value() == Invalidate(old(Value()))
    {
      currentGeneration := currentGeneration + 1;
    }

    method ClaimRefreshBudget(now: int) returns (granted: bool)
      modifies this`windowStart, this`used
      ensures (Value().budget, granted) == Claim(old(Value().budget), cfg, now)
    {
      if now - windowStart >= cfg.window {
        windowStart := now;
        used := 0;
      }
      if used >= cfg.maxRefreshes {
        return false;
      }
      used := used + 1;
      return true;
    }

    method DashboardSnapshotCache(verb: string, path: string, query: Query, now: int) returns (reply: Reply<B>)
      modifies this`windowStart, this`used
      ensures (Value(), reply) == Request(old(Value()), cfg, verb, path, query, now)
    {
      if verb != "GET" || path != "/api/queues" {
        return Passed;
      }
      var canonical := cfg.viewOf(query);
      var cacheKey := cfg.keyOf(canonical);
      var cached := if cacheKey in snapshotCache then Some(snapshotCache[cacheKey]) else None;
      if cached.Some? && cached.value.expiresAt > now && cached.value.generation == currentGeneration {
        return Hit(cached.value.body);
      }
      var granted := ClaimRefreshBudget(now);
      if !granted {
        if cached.Some? {
          return Stale(cached.value.body);
        }
        return Shed(CeilDiv(cfg.window, 1000));
      }
      return Miss(cacheKey, canonical, currentGeneration);
    }

    /** Runs when the upstream handler finally answers a request that was let through. */
    method CaptureJson(cacheKey: string, generationAtDispatch: nat, statusCode: int, body: B, now: int)
      modifies this`snapshotCache
      ensures Value() == Capture(old(Value()), cfg, cacheKey, generationAtDispatch, statusCode, body, now)
    {
      if statusCode == 200 {
        if |snapshotCache| >= cfg.maxEntries {
          snapshotCache := map[];
        }
        snapshotCache := snapshotCache[cacheKey := Entry(body, now + cfg.ttl, generationAtDispatch)];
      }
    }
  }
}
