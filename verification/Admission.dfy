/**
 * The queue-depth ceiling. The depth is read on demand and memoised; submissions run
 * concurrently, so a check may use a reading that others have already acted on. The
 * class is the producer's memo; the machine interleaves any number of submissions.
 */
module Admission {
  import opened Basics

  datatype Config = Config(maxDepth: nat, ttl: nat)

  datatype Memo = Memo(depth: nat, expiresAt: int)

  datatype Verdict = Admitted | DepthExceeded(depth: nat) | Unavailable

  /** What the memo answers at a given time, if it may. */
  function Recall(memo: Option<Memo>, now: int): Option<nat> {
    if memo.Some? && memo.value.expiresAt > now then Some(memo.value.depth) else None
  }

  function Judge(cfg: Config, depth: nat): Verdict {
    if depth >= cfg.maxDepth then DepthExceeded(depth) else Admitted
  }

  class Producer {
    const cfg: Config
    var depthCache: Option<Memo>

    constructor (cfg: Config)
      ensures this.cfg == cfg && depthCache == None
    {
      this.cfg := cfg;
      depthCache := None;
    }

    /** `assertQueueHasCapacity` up to its first await: answered from the memo, or a count is asked for. */
    method BeginCheck(now: int) returns (verdict: Option<Verdict>)
      ensures
        var known := Recall(depthCache, now);
        verdict == if known.Some? then Some(Judge(cfg, known.value)) else None
    {
      if depthCache.Some? && depthCache.value.expiresAt > now {
        if depthCache.value.depth >= cfg.maxDepth {
          return Some(DepthExceeded(depthCache.value.depth));
        }
        return Some(Admitted);
      }
      return None;
    }

    /** The rest, once the counts arrive or the read fails. */
    method FinishCheck(counts: Option<(nat, nat, nat)>, startedAt: int) returns (verdict: Verdict)
      modifies this`depthCache
      ensures counts.None? ==> verdict == Unavailable && depthCache == old(depthCache)
      ensures counts.Some? ==>
        var depth := counts.value.0 + counts.value.1 + counts.value.2;
        verdict == Judge(cfg, depth) && depthCache == Some(Memo(depth, startedAt + cfg.ttl))
    {
      if counts.None? {
        return Unavailable;
      }
      var depth := counts.value.0 + counts.value.1 + counts.value.2;
      depthCache := Some(Memo(depth, startedAt + cfg.ttl));
      if depth >= cfg.maxDepth {
        return DepthExceeded(depth);
      }
      return Admitted;
    }
  }

  // ----- Interleavings -----

  /** A depth reading: what it said, when it was taken, and how many adds had landed by then. */
  datatype Reading = Reading(depth: nat, at: nat, adds: nat)

  /** Where a submission stands; the reading it relies on is kept for the record. */
  datatype Submission =
    | Counting(startedAt: nat)
    | Counted(startedAt: nat, reading: Reading)
    | Adding(startedAt: nat, reading: Reading)

  /** An add that took effect: how full the queue was then, and what had admitted it. */
  datatype Accepted = Accepted(pendingAfter: nat, addsAfter: nat, startedAt: nat, reading: Reading)

  /** A submission turned away because of a reading. */
  datatype Refused = Refused(startedAt: nat, reading: Reading)

  /**
   * `source` is the reading behind the memo; `adds` counts adds that created a job;
   * `accepted`, `refused` and `asked`, the times at which counts were asked for, are
   * histories.
   */
  datatype World = World(
    memo: Option<Memo>, source: Reading, clock: nat, pending: nat, adds: nat,
    submissions: map<nat, Submission>, nextId: nat,
    accepted: seq<Accepted>, refused: seq<Refused>, asked: seq<nat>)

  datatype Event =
    | Submit
    | CountTaken(id: nat)
    | CountArrives(id: nat)
    | CountFails(id: nat)
    | AddLands(id: nat, duplicate: bool)
    | Leave
    | Tick(ms: nat)

  function Init(start: nat): World {
    World(None, Reading(0, start, 0), start, 0, 0, map[], 0, [], [], [])
  }

  function AfterSubmit(cfg: Config, w: World): World {
    var id := w.nextId;
    var known := Recall(w.memo, w.clock);
    if known.None? then
      w.(submissions := w.submissions[id := Counting(w.clock)], nextId := id + 1, asked := w.asked + [w.clock])
    else if Judge(cfg, known.value).Admitted? then
      w.(submissions := w.submissions[id := Adding(w.clock, w.source)], nextId := id + 1)
    else w.(nextId := id + 1, refused := w.refused + [Refused(w.clock, w.source)])
  }

  /** The broker answers with the counts of this moment; the reply is still on its way. */
  function AfterCountTaken(w: World, id: nat): World {
    if id !in w.submissions || !w.submissions[id].Counting? then w
    else
      var reading := Reading(w.pending, w.clock, w.adds);
      w.(submissions := w.submissions[id := Counted(w.submissions[id].startedAt, reading)])
  }

  /** Replies may arrive in any order, so an older reading can replace a newer one in the memo. */
  function AfterCountArrives(cfg: Config, w: World, id: nat): World {
    if id !in w.submissions || !w.submissions[id].Counted? then w
    else
      var c := w.submissions[id];
      var w' := w.(memo := Some(Memo(c.reading.depth, c.startedAt + cfg.ttl)), source := c.reading);
      if Judge(cfg, c.reading.depth).Admitted?
      then w'.(submissions := w.submissions[id := Adding(c.startedAt, c.reading)])
      else w'.(submissions := w.submissions - {id}, refused := w.refused + [Refused(c.startedAt, c.reading)])
  }

  /** An add of an id the broker already knows creates nothing. */
  function AfterAddLands(w: World, id: nat, duplicate: bool): World {
    if id !in w.submissions || !w.submissions[id].Adding? then w
    else
      var c := w.submissions[id];
      var created := if duplicate then 0 else 1;
      w.(pending := w.pending + created,
         adds := w.adds + created,
         submissions := w.submissions - {id},
         accepted := w.accepted
           + [Accepted(w.pending + created, w.adds + created, c.startedAt, c.reading)])
  }

  function Step(cfg: Config, w: World, e: Event): World {
    match e
    case Submit => AfterSubmit(cfg, w)
    case CountTaken(id) => AfterCountTaken(w, id)
    case CountArrives(id) => AfterCountArrives(cfg, w, id)
    case CountFails(id) => w.(submissions := w.submissions - {id})
    case AddLands(id, duplicate) => AfterAddLands(w, id, duplicate)
    case Leave => w.(pending := if w.pending > 0 then w.pending - 1 else 0)
    case Tick(ms) => w.(clock := w.clock + ms)
  }

  function Run(cfg: Config, w: World, events: seq<Event>): World {
    if events == [] then w
    else Step(cfg, Run(cfg, w, events[..|events| - 1]), events[|events| - 1])
  }

  // ----- The bound -----

  /** Since a reading, the queue can only have grown by adds. */
  predicate Sound(w: World, r: Reading) {
    r.at <= w.clock && r.adds <= w.adds && w.pending <= r.depth + (w.adds - r.adds)
  }

  /** Taken less than one TTL before the check that relies on it, or during it. */
  predicate IsRecent(cfg: Config, startedAt: nat, r: Reading) {
    startedAt < r.at + cfg.ttl || startedAt <= r.at
  }

  /** Recent, and below the ceiling. */
  predicate Admits(cfg: Config, startedAt: nat, r: Reading) {
    IsRecent(cfg, startedAt, r) && r.depth < cfg.maxDepth
  }

  predicate SubmissionFits(cfg: Config, w: World, c: Submission) {
    match c
    case Counting(startedAt) => startedAt <= w.clock
    case Counted(startedAt, r) => startedAt <= r.at && Sound(w, r)
    case Adding(startedAt, r) => Admits(cfg, startedAt, r) && Sound(w, r)
  }

  predicate MemoFits(cfg: Config, w: World) {
    w.memo.Some? ==>
      w.memo.value.depth == w.source.depth && w.memo.value.expiresAt <= w.source.at + cfg.ttl && Sound(w, w.source)
  }

  predicate WithinBound(cfg: Config, a: Accepted) {
    && Admits(cfg, a.startedAt, a.reading)
    && a.reading.adds <= a.addsAfter
    && a.pendingAfter <= cfg.maxDepth - 1 + (a.addsAfter - a.reading.adds)
  }

  ghost predicate Inv(cfg: Config, w: World) {
    && MemoFits(cfg, w)
    && (forall id | id in w.submissions :: SubmissionFits(cfg, w, w.submissions[id]))
    && (forall i | 0 <= i < |w.accepted| :: WithinBound(cfg, w.accepted[i]))
    && (forall i | 0 <= i < |w.refused| ::
          IsRecent(cfg, w.refused[i].startedAt, w.refused[i].reading) && w.refused[i].reading.depth >= cfg.maxDepth)
  }

  lemma StepKeepsInv(cfg: Config, w: World, e: Event)
    requires Inv(cfg, w)
    ensures Inv(cfg, Step(cfg, w, e))
  {
    var w' := Step(cfg, w, e);
    forall id | id in w'.submissions
      ensures SubmissionFits(cfg, w', w'.submissions[id])
    {
      assert id in w.submissions ==> SubmissionFits(cfg, w, w.submissions[id]);
    }
    if e.AddLands? && e.id in w.submissions {
      assert SubmissionFits(cfg, w, w.submissions[e.id]);
    }
    if e.CountArrives? && e.id in w.submissions {
      assert SubmissionFits(cfg, w, w.submissions[e.id]);
    }
  }

  lemma {:induction false} RunKeepsInv(cfg: Config, start: nat, events: seq<Event>)
    ensures Inv(cfg, Run(cfg, Init(start), events))
  {
    if events != [] {
      RunKeepsInv(cfg, start, events[..|events| - 1]);
      StepKeepsInv(cfg, Run(cfg, Init(start), events[..|events| - 1]), events[|events| - 1]);
    }
  }

  /**
   * However checks, readings, replies and adds interleave: after an accepted add the
   * queue holds at most the ceiling less one plus the adds landed since the reading
   * that admitted it, and that reading was less than one TTL old when the check began,
   * even where a slower reply had put an older reading back into the memo.
   */
  lemma OvershootIsBounded(cfg: Config, start: nat, events: seq<Event>, i: nat)
    requires i < |Run(cfg, Init(start), events).accepted|
    ensures
      var a := Run(cfg, Init(start), events).accepted[i];
      && a.reading.adds <= a.addsAfter
      && a.pendingAfter <= cfg.maxDepth - 1 + (a.addsAfter - a.reading.adds)
      && a.reading.depth < cfg.maxDepth
      && (a.startedAt - a.reading.at < cfg.ttl || a.startedAt <= a.reading.at)
  {
    RunKeepsInv(cfg, start, events);
    assert WithinBound(cfg, Run(cfg, Init(start), events).accepted[i]);
  }

  /** No one is turned away without cause: the reading was recent, and at or above the ceiling. */
  lemma RefusalsAreJustified(cfg: Config, start: nat, events: seq<Event>, i: nat)
    requires i < |Run(cfg, Init(start), events).refused|
    ensures
      var r := Run(cfg, Init(start), events).refused[i];
      && r.reading.depth >= cfg.maxDepth
      && (r.startedAt - r.reading.at < cfg.ttl || r.startedAt <= r.reading.at)
  {
    RunKeepsInv(cfg, start, events);
  }

  /** A memo that can still be used: read at most a TTL before now. */
  predicate IsUsable(w: World) {
    w.memo.Some? && w.clock < w.memo.value.expiresAt
  }

  /**
   * A count is what is pending at its moment. Every check ends as its reading says, and
   * leaves its trace: below the ceiling the
   * submission goes on to its add, at or above it is refused; without a usable memo
   * counts are asked for; and every add that lands is on record.
   */
  lemma ChecksFollowReadings(cfg: Config, start: nat, events: seq<Event>, id: nat, duplicate: bool)
    ensures
      var w := Run(cfg, Init(start), events);
      var s := Step(cfg, w, Submit);
      && s.nextId == w.nextId + 1
      && (!IsUsable(w) ==> s.submissions == w.submissions[w.nextId := Counting(w.clock)]
                           && s.asked == w.asked + [w.clock] && s.refused == w.refused)
      && (IsUsable(w) && w.memo.value.depth < cfg.maxDepth ==>
            s.submissions == w.submissions[w.nextId := Adding(w.clock, w.source)]
            && s.asked == w.asked && s.refused == w.refused && w.source.depth == w.memo.value.depth)
      && (IsUsable(w) && w.memo.value.depth >= cfg.maxDepth ==>
            s.submissions == w.submissions && s.asked == w.asked
            && s.refused == w.refused + [Refused(w.clock, w.source)] && w.source.depth == w.memo.value.depth)
    ensures
      var w := Run(cfg, Init(start), events);
      id in w.submissions && w.submissions[id].Counting? ==>
        Step(cfg, w, CountTaken(id)).submissions
        == w.submissions[id := Counted(w.submissions[id].startedAt, Reading(w.pending, w.clock, w.adds))]
    ensures
      var w := Run(cfg, Init(start), events);
      id in w.submissions && w.submissions[id].Counted? ==>
        var c := w.submissions[id];
        var s := Step(cfg, w, CountArrives(id));
        && s.memo == Some(Memo(c.reading.depth, c.startedAt + cfg.ttl))
        && if c.reading.depth < cfg.maxDepth
           then id in s.submissions && s.submissions[id] == Adding(c.startedAt, c.reading) && s.refused == w.refused
           else id !in s.submissions && s.refused == w.refused + [Refused(c.startedAt, c.reading)]
    ensures
      var w := Run(cfg, Init(start), events);
      id in w.submissions && w.submissions[id].Adding? ==>
        var c := w.submissions[id];
        var s := Step(cfg, w, AddLands(id, duplicate));
        && s.pending == w.pending + (if duplicate then 0 else 1) && s.adds == w.adds + (if duplicate then 0 else 1)
        && s.accepted == w.accepted + [Accepted(s.pending, s.adds, c.startedAt, c.reading)]
  {
    hide Run;
    RunKeepsInv(cfg, start, events);
  }
}
