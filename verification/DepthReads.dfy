/**
 * What the queue-depth check costs the broker: one read per TTL while checks do not
 * overlap, and one read per check while they do.
 */
module DepthReads {
  import opened Basics
  import opened Admission

  // ----- Overlapping checks -----

  function Submits(n: nat): seq<Event> {
    if n == 0 then [] else Submits(n - 1) + [Submit]
  }

  /**
   * Checks that begin before the first count arrives all ask for counts of their own:
   * n of them cost n reads, unless a usable memo answers them all.
   */
  lemma {:induction false} OverlappingChecksAllRead(cfg: Config, w: World, n: nat)
    ensures
      var w' := Run(cfg, w, Submits(n));
      && |w'.asked| == |w.asked| + (if IsUsable(w) then 0 else n)
      && w'.memo == w.memo && w'.clock == w.clock
  {
    if n > 0 {
      OverlappingChecksAllRead(cfg, w, n - 1);
      assert Submits(n)[..|Submits(n)| - 1] == Submits(n - 1);
    }
  }

  /** Exactly when any number of simultaneous checks costs what one costs. */
  lemma ManyChecksCostOneIff(cfg: Config, w: World, n: nat)
    requires n > 0
    ensures |Run(cfg, w, Submits(n)).asked| == |Run(cfg, w, Submits(1)).asked| <==> n == 1 || IsUsable(w)
  {
    OverlappingChecksAllRead(cfg, w, n);
    OverlappingChecksAllRead(cfg, w, 1);
  }

  // ----- One check at a time -----

  /** A count has been asked for and has not arrived. */
  predicate IsReading(c: Submission) {
    c.Counting? || c.Counted?
  }

  ghost predicate NoneReading(w: World) {
    forall id | id in w.submissions :: !IsReading(w.submissions[id])
  }

  /** No check begins while a count is under way, and no count fails. */
  ghost predicate OneAtATime(cfg: Config, start: nat, events: seq<Event>) {
    events == [] ||
    var before := events[..|events| - 1];
    OneAtATime(cfg, start, before) && Waits(Run(cfg, Init(start), before), events[|events| - 1])
  }

  ghost predicate Waits(w: World, e: Event) {
    && (e.Submit? ==> NoneReading(w))
    && (e.CountFails? && e.id in w.submissions ==> !IsReading(w.submissions[e.id]))
  }

  /** The last count asked for is under way, or is what the memo remembers. */
  ghost predicate LastReadCounts(cfg: Config, w: World) {
    if w.asked == [] then NoneReading(w) && w.memo.None?
    else
      var last := w.asked[|w.asked| - 1];
      && (forall id | id in w.submissions && IsReading(w.submissions[id]) :: w.submissions[id].startedAt == last)
      && (forall id, id' | id in w.submissions && id' in w.submissions
                           && IsReading(w.submissions[id]) && IsReading(w.submissions[id']) :: id == id')
      && (NoneReading(w) ==> w.memo.Some? && w.memo.value.expiresAt == last + cfg.ttl)
  }

  ghost predicate Spaced(cfg: Config, w: World) {
    && (forall id | id in w.submissions :: id < w.nextId)
    && (forall i | 0 <= i < |w.asked| - 1 :: w.asked[i] + cfg.ttl <= w.asked[i + 1])
    && LastReadCounts(cfg, w)
  }

  lemma SubmitKeepsSpaced(cfg: Config, w: World)
    requires Spaced(cfg, w) && NoneReading(w)
    ensures Spaced(cfg, AfterSubmit(cfg, w))
  {
    var w' := AfterSubmit(cfg, w);
    assert w.nextId !in w.submissions;
    if w'.asked == w.asked {
      assert NoneReading(w');
    } else {
      assert w'.submissions[w.nextId] == Counting(w.clock);
    }
  }

  lemma TakenKeepsSpaced(cfg: Config, w: World, id: nat)
    requires Spaced(cfg, w)
    ensures Spaced(cfg, AfterCountTaken(w, id))
  {
    var w' := AfterCountTaken(w, id);
    assert forall i | i in w.submissions ::
      i in w'.submissions && (IsReading(w'.submissions[i]) <==> IsReading(w.submissions[i]));
  }

  lemma ArrivesKeepsSpaced(cfg: Config, w: World, id: nat)
    requires Spaced(cfg, w)
    ensures Spaced(cfg, AfterCountArrives(cfg, w, id))
  {
    if id in w.submissions && w.submissions[id].Counted? {
      assert IsReading(w.submissions[id]);
      assert NoneReading(AfterCountArrives(cfg, w, id));
    }
  }

  lemma RestKeepsSpaced(cfg: Config, w: World, e: Event)
    requires Spaced(cfg, w) && Waits(w, e) && !e.Submit? && !e.CountTaken? && !e.CountArrives?
    ensures Spaced(cfg, Step(cfg, w, e))
  {
    var w' := Step(cfg, w, e);
    assert forall id | id in w'.submissions :: id in w.submissions && w'.submissions[id] == w.submissions[id];
    assert forall id | id in w.submissions && id !in w'.submissions :: !IsReading(w.submissions[id]);
  }

  lemma {:induction false} RunKeepsSpaced(cfg: Config, start: nat, events: seq<Event>)
    requires OneAtATime(cfg, start, events)
    ensures Spaced(cfg, Run(cfg, Init(start), events))
  {
    hide Spaced, Waits;
    if events == [] {
      InitIsSpaced(cfg, start);
    } else {
      var before, e := events[..|events| - 1], events[|events| - 1];
      RunKeepsSpaced(cfg, start, before);
      StepKeepsSpaced(cfg, Run(cfg, Init(start), before), e);
    }
  }

  lemma InitIsSpaced(cfg: Config, start: nat)
    ensures Spaced(cfg, Init(start))
  {
  }

  lemma StepKeepsSpaced(cfg: Config, w: World, e: Event)
    requires Spaced(cfg, w) && Waits(w, e)
    ensures Spaced(cfg, Step(cfg, w, e))
  {
    hide Spaced, AfterSubmit, AfterCountTaken, AfterCountArrives;
    match e
    case Submit => SubmitKeepsSpaced(cfg, w);
    case CountTaken(id) => TakenKeepsSpaced(cfg, w, id);
    case CountArrives(id) => ArrivesKeepsSpaced(cfg, w, id);
    case _ => RestKeepsSpaced(cfg, w, e);
  }

  /**
   * While checks do not overlap and counts arrive, the memo does its work: of the reads
   * made, any two that are k reads apart are at least k TTLs apart, however many
   * submissions there are.
   */
  lemma {:induction false} ReadsAreSpaced(cfg: Config, start: nat, events: seq<Event>, i: nat, k: nat)
    requires OneAtATime(cfg, start, events)
    requires i + k < |Run(cfg, Init(start), events).asked|
    ensures
      var asked := Run(cfg, Init(start), events).asked;
      asked[i] + k * cfg.ttl <= asked[i + k]
  {
    hide Run, OneAtATime;
    RunKeepsSpaced(cfg, start, events);
    if k > 0 {
      ReadsAreSpaced(cfg, start, events, i, k - 1);
      var asked := Run(cfg, Init(start), events).asked;
      assert asked[i + k - 1] + cfg.ttl <= asked[i + k];
      assert k * cfg.ttl == (k - 1) * cfg.ttl + cfg.ttl;
    }
  }
}
