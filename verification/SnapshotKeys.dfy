/**
 * The identity of a dashboard snapshot: reducing a request's query to validated
 * values, and printing those values as a cache key.
 */
module SnapshotKeys {
  import opened Basics

  const STATUSES: seq<string> := [
    "latest", "active", "waiting", "waiting-children", "completed", "failed", "delayed", "paused", "prioritized"
  ]
  const MAX_JOBS_PER_PAGE := 100
  const DEFAULT_JOBS_PER_PAGE := 10
  const MAX_PAGE := 100

  /** A value Express may leave in `req.query`: text, a repeated parameter, or something nested. */
  datatype QueryValue = Text(text: string) | List(items: seq<QueryValue>) | Nested

  type Query = map<string, QueryValue>

  /** The language's conversion of text to a number; None when the result is not an integer. */
  type Number = string -> Option<int>

  datatype CanonicalQuery = CanonicalQuery(
    activeQueue: Option<string>, status: Option<string>, page: string, jobsPerPage: string)

  function FirstValue(query: Query, name: string): Option<string> {
    if name !in query then None
    else match query[name]
      case Text(s) => Some(s)
      case List(items) => if |items| > 0 && items[0].Text? then Some(items[0].text) else None
      case Nested => None
  }

  function ClampInt(raw: Option<string>, number: Number, min: int, max: int, fallback: int): int {
    match raw
    case None => fallback
    case Some(s) =>
      match number(s)
      case None => fallback
      case Some(parsed) => if parsed < min || parsed > max then fallback else parsed
  }

  /** Keeps a recognised, non-empty value; anything else is dropped. */
  function Recognised(raw: Option<string>, known: seq<string>): Option<string> {
    if raw.Some? && raw.value != "" && raw.value in known then raw else None
  }

  function Canonicalize(query: Query, names: seq<string>, number: Number): (c: CanonicalQuery)
    ensures IsView(c, names)
  {
    var page := ClampInt(FirstValue(query, "page"), number, 1, MAX_PAGE, 1);
    var jobsPerPage :=
      ClampInt(FirstValue(query, "jobsPerPage"), number, 1, MAX_JOBS_PER_PAGE, DEFAULT_JOBS_PER_PAGE);
    assert IsDecimalUpTo(Decimal(page), MAX_PAGE) && IsDecimalUpTo(Decimal(jobsPerPage), MAX_JOBS_PER_PAGE);
    CanonicalQuery(
      Recognised(FirstValue(query, "activeQueue"), names),
      Recognised(FirstValue(query, "status"), STATUSES),
      Decimal(page),
      Decimal(jobsPerPage))
  }

  function BuildKey(c: CanonicalQuery): string {
    "q=" + Default(c.activeQueue) + "&s=" + Default(c.status) + "&p=" + c.page + "&n=" + c.jobsPerPage
  }

  function Default(o: Option<string>): string {
    if o.Some? then o.value else ""
  }

  // ----- The views that exist, and the reader's side of a key -----

  ghost predicate IsDecimalUpTo(s: string, max: nat) {
    exists n: nat :: 1 <= n <= max && s == Decimal(n)
  }

  /** A query that can be told apart from every other: registered queue, known status, numbers in range. */
  ghost predicate IsView(c: CanonicalQuery, names: seq<string>) {
    && (c.activeQueue.Some? ==> c.activeQueue.value in names && c.activeQueue.value != "")
    && (c.status.Some? ==> c.status.value in STATUSES)
    && IsDecimalUpTo(c.page, MAX_PAGE)
    && IsDecimalUpTo(c.jobsPerPage, MAX_JOBS_PER_PAGE)
  }

  /** All the theory needs of text-to-number conversion: it reads back the page numbers it prints. */
  ghost predicate ReadsDecimals(number: Number) {
    forall n: nat | 1 <= n <= 100 :: number(Decimal(n)) == Some(n)
  }

  lemma DecimalReadingWorks()
    ensures ReadsDecimals(ReadDecimal)
  {
    forall n: nat {
      DecimalReadsBack(n);
    }
  }

  /** The query object the middleware leaves on the request for the board to read. */
  function AsQuery(c: CanonicalQuery): Query {
    map["page" := Text(c.page), "jobsPerPage" := Text(c.jobsPerPage)]
    + (if c.activeQueue.Some? then map["activeQueue" := Text(c.activeQueue.value)] else map[])
    + (if c.status.Some? then map["status" := Text(c.status.value)] else map[])
  }

  /**
   * Every view is the canonical form of itself, so canonicalisation is idempotent
   * and its range is exactly the set of views.
   */
  lemma ViewsAreFixedPoints(c: CanonicalQuery, names: seq<string>, number: Number)
    requires ReadsDecimals(number)
    ensures IsView(c, names) <==> Canonicalize(AsQuery(c), names, number) == c
  {
    if IsView(c, names) {
      var p: nat :| 1 <= p <= MAX_PAGE && c.page == Decimal(p);
      var n: nat :| 1 <= n <= MAX_JOBS_PER_PAGE && c.jobsPerPage == Decimal(n);
      assert number(Decimal(p)) == Some(p) && number(Decimal(n)) == Some(n);
      assert c.status.Some? ==> c.status.value != "";
      var q := AsQuery(c);
      assert FirstValue(q, "page") == Some(Decimal(p));
      assert FirstValue(q, "jobsPerPage") == Some(Decimal(n));
      assert FirstValue(q, "activeQueue") == c.activeQueue;
      assert FirstValue(q, "status") == c.status;
    }
  }

  /** The request gives this parameter this value: as text, or as the first of a list. */
  predicate Asks(query: Query, name: string, value: string) {
    && name in query
    && (query[name] == Text(value)
        || (query[name].List? && |query[name].items| > 0 && query[name].items[0] == Text(value)))
  }

  /** It gives a number within the range. */
  ghost predicate AsksNumber(query: Query, name: string, number: Number, max: nat, n: int) {
    1 <= n <= max && exists value :: Asks(query, name, value) && number(value) == Some(n)
  }

  /**
   * What a query is reduced to: a queue or status is kept exactly if it is asked for and
   * known; a page or page size exactly if it is asked for and in range, and the first
   * page and ten a page stand in for anything else.
   */
  lemma CanonicalFormOf(query: Query, names: seq<string>, number: Number)
    ensures
      var c := Canonicalize(query, names, number);
      && (forall v :: c.activeQueue == Some(v) <==> Asks(query, "activeQueue", v) && v != "" && v in names)
      && (forall v :: c.status == Some(v) <==> Asks(query, "status", v) && v in STATUSES)
      && (forall n: nat | AsksNumber(query, "page", number, 100, n) :: c.page == Decimal(n))
      && ((forall n: nat :: !AsksNumber(query, "page", number, 100, n)) ==> c.page == "1")
      && (forall n: nat | AsksNumber(query, "jobsPerPage", number, 100, n) :: c.jobsPerPage == Decimal(n))
      && ((forall n: nat :: !AsksNumber(query, "jobsPerPage", number, 100, n)) ==> c.jobsPerPage == "10")
  {
    FirstValueIsAsked(query, "activeQueue");
    FirstValueIsAsked(query, "status");
    NoStatusIsEmpty();
    NumberIsClamped(query, "page", number, 1);
    NumberIsClamped(query, "jobsPerPage", number, 10);
    assert Decimal(1) == "1" && Decimal(10) == "10";
  }

  lemma FirstValueIsAsked(query: Query, name: string)
    ensures forall v :: FirstValue(query, name) == Some(v) <==> Asks(query, name, v)
  {
  }

  lemma NoStatusIsEmpty()
    ensures "" !in STATUSES
  {
    if "" in STATUSES {
      StatusHasNoSeparator("");
    }
  }

  lemma NumberIsClamped(query: Query, name: string, number: Number, fallback: nat)
    ensures
      var m := ClampInt(FirstValue(query, name), number, 1, 100, fallback);
      && (forall n: nat | AsksNumber(query, name, number, 100, n) :: m == n)
      && ((forall n: nat :: !AsksNumber(query, name, number, 100, n)) ==> m == fallback)
  {
    FirstValueIsAsked(query, name);
    var raw := FirstValue(query, name);
    if raw.Some? && number(raw.value).Some? && 1 <= number(raw.value).value <= 100 {
      assert AsksNumber(query, name, number, 100, number(raw.value).value);
    }
  }

  /** The text before and after the last '&'. */
  function SplitLast(s: string): (string, string) {
    if s == "" then ("", "")
    else if s[|s| - 1] == '&' then (s[..|s| - 1], "")
    else
      var (before, after) := SplitLast(s[..|s| - 1]);
      (before, after + [s[|s| - 1]])
  }

  lemma {:induction false} SplitLastFindsSeparator(x: string, y: string)
    requires '&' !in y
    ensures SplitLast(x + "&" + y) == (x, y)
  {
    var s := x + "&" + y;
    if y == "" {
      assert s[..|s| - 1] == x;
    } else {
      var y' := y[..|y| - 1];
      assert s[..|s| - 1] == x + "&" + y';
      assert y == y' + [y[|y| - 1]];
      SplitLastFindsSeparator(x, y');
    }
  }

  /** Reads a key from right to left, because a queue name may itself contain "&s=". */
  function DecodeKey(key: string): CanonicalQuery {
    var (qsp, n) := SplitLast(key);
    var (qs, p) := SplitLast(qsp);
    var (q, s) := SplitLast(qs);
    CanonicalQuery(Undefault(Drop2(q)), Undefault(Drop2(s)), Drop2(p), Drop2(n))
  }

  function Drop2(s: string): string {
    if |s| < 2 then "" else s[2..]
  }

  function Undefault(s: string): Option<string> {
    if s == "" then None else Some(s)
  }

  lemma StatusHasNoSeparator(status: string)
    requires status in STATUSES
    ensures '&' !in status && status != ""
  {
    var i: nat :| i < |STATUSES| && STATUSES[i] == status;
    assert i == 0 || i == 1 || i == 2 || i == 3 || i == 4 || i == 5 || i == 6 || i == 7 || i == 8;
  }

  lemma PartsDecode(q: string, s: string, p: string, n: string)
    requires '&' !in s && '&' !in p && '&' !in n
    ensures DecodeKey("q=" + q + "&s=" + s + "&p=" + p + "&n=" + n)
         == CanonicalQuery(Undefault(q), Undefault(s), p, n)
  {
    var q', s', p', n' := "q=" + q, "s=" + s, "p=" + p, "n=" + n;
    SplitLastFindsSeparator(q', s');
    SplitLastFindsSeparator(q' + "&" + s', p');
    SplitLastFindsSeparator(q' + "&" + s' + "&" + p', n');
    assert q' + "&" + s' == "q=" + q + "&s=" + s;
    assert q' + "&" + s' + "&" + p' == "q=" + q + "&s=" + s + "&p=" + p;
    assert q' + "&" + s' + "&" + p' + "&" + n' == "q=" + q + "&s=" + s + "&p=" + p + "&n=" + n;
  }

  lemma ViewHasNoSeparators(c: CanonicalQuery, names: seq<string>)
    requires IsView(c, names)
    ensures '&' !in Default(c.status) && '&' !in c.page && '&' !in c.jobsPerPage
    ensures Undefault(Default(c.activeQueue)) == c.activeQueue && Undefault(Default(c.status)) == c.status
  {
    var p: nat :| 1 <= p <= MAX_PAGE && c.page == Decimal(p);
    var n: nat :| 1 <= n <= MAX_JOBS_PER_PAGE && c.jobsPerPage == Decimal(n);
    DecimalIsDigits(p);
    DecimalIsDigits(n);
    if c.status.Some? {
      StatusHasNoSeparator(c.status.value);
    }
  }

  lemma KeyDecodes(c: CanonicalQuery, names: seq<string>)
    requires IsView(c, names)
    ensures DecodeKey(BuildKey(c)) == c
  {
    ViewHasNoSeparators(c, names);
    PartsDecode(Default(c.activeQueue), Default(c.status), c.page, c.jobsPerPage);
  }

  /** One key per view: whatever the queues are called, equal keys mean equal views. */
  lemma KeyIsInjective(c: CanonicalQuery, d: CanonicalQuery, names: seq<string>)
    requires IsView(c, names) && IsView(d, names)
    ensures BuildKey(c) == BuildKey(d) <==> c == d
  {
    KeyDecodes(c, names);
    KeyDecodes(d, names);
  }

  // ----- Size of the key space -----

  lemma {:induction false} CardinalityAtMost<T>(s: set<T>, code: T -> int, n: nat)
    requires forall x | x in s :: 0 <= code(x) < n
    requires forall x, y | x in s && y in s :: code(x) == code(y) ==> x == y
    ensures |s| <= n
  {
    if n == 0 {
      assert forall x :: x !in s;
    } else if exists x :: x in s && code(x) == n - 1 {
      var x :| x in s && code(x) == n - 1;
      CardinalityAtMost(s - {x}, code, n - 1);
      assert |s - {x}| == |s| - 1;
    } else {
      CardinalityAtMost(s, code, n - 1);
    }
  }

  /** Position of a name in a list, one-based; zero stands for "no value". */
  function Position(o: Option<string>, known: seq<string>): (i: nat)
    requires o.Some? ==> o.value in known
    ensures i <= |known|
    ensures if o.Some? then i > 0 && known[i - 1] == o.value else i == 0
  {
    if o.None? then 0
    else if known[0] == o.value then 1
    else 1 + Position(o, known[1..])
  }

  ghost function DecimalValue(s: string): (n: nat)
    requires IsDecimalUpTo(s, 100)
    ensures 1 <= n <= 100 && s == Decimal(n)
  {
    var n: nat :| 1 <= n <= 100 && s == Decimal(n);
    n
  }

  function MixedRadix(q: nat, s: nat, p: nat, n: nat): nat
    requires s < 10 && 1 <= p <= 100 && 1 <= n <= 100
  {
    ((q * 10 + s) * 100 + p - 1) * 100 + n - 1
  }

  lemma MixedRadixIsInjective(q: nat, s: nat, p: nat, n: nat, q': nat, s': nat, p': nat, n': nat)
    requires s < 10 && 1 <= p <= 100 && 1 <= n <= 100
    requires s' < 10 && 1 <= p' <= 100 && 1 <= n' <= 100
    requires MixedRadix(q, s, p, n) == MixedRadix(q', s', p', n')
    ensures q == q' && s == s' && p == p' && n == n'
  {
    assert n == n';
    assert p == p';
  }

  lemma StatusCount()
    ensures |STATUSES| == 9
  {
  }

  ghost function Rank(c: CanonicalQuery, names: seq<string>): nat
    requires IsView(c, names)
  {
    StatusCount();
    MixedRadix(
      Position(c.activeQueue, names), Position(c.status, STATUSES), DecimalValue(c.page), DecimalValue(c.jobsPerPage))
  }

  lemma SamePositionSameValue(a: Option<string>, b: Option<string>, known: seq<string>)
    requires a.Some? ==> a.value in known
    requires b.Some? ==> b.value in known
    requires Position(a, known) == Position(b, known)
    ensures a == b
  {
  }

  lemma RankIsInjective(c: CanonicalQuery, d: CanonicalQuery, names: seq<string>)
    requires IsView(c, names) && IsView(d, names) && Rank(c, names) == Rank(d, names)
    ensures c == d
  {
    StatusCount();
    MixedRadixIsInjective(
      Position(c.activeQueue, names), Position(c.status, STATUSES), DecimalValue(c.page), DecimalValue(c.jobsPerPage),
      Position(d.activeQueue, names), Position(d.status, STATUSES), DecimalValue(d.page), DecimalValue(d.jobsPerPage));
    SamePositionSameValue(c.status, d.status, STATUSES);
    SamePositionSameValue(c.activeQueue, d.activeQueue, names);
  }

  lemma RankIsBounded(c: CanonicalQuery, names: seq<string>)
    requires IsView(c, names)
    ensures Rank(c, names) < (|names| + 1) * 10 * 100 * 100
  {
    StatusCount();
  }

  ghost predicate IsKey(key: string, names: seq<string>) {
    exists c :: IsView(c, names) && key == BuildKey(c)
  }

  ghost function KeyRank(key: string, names: seq<string>): int {
    if !IsKey(key, names) then -1 else
    var c :| IsView(c, names) && key == BuildKey(c);
    Rank(c, names)
  }

  lemma KeyRankIsFaithful(key: string, other: string, names: seq<string>)
    requires IsKey(key, names) && IsKey(other, names)
    ensures 0 <= KeyRank(key, names) < (|names| + 1) * 10 * 100 * 100
    ensures KeyRank(key, names) == KeyRank(other, names) ==> key == other
  {
    var c :| IsView(c, names) && key == BuildKey(c) && KeyRank(key, names) == Rank(c, names);
    var d :| IsView(d, names) && other == BuildKey(d) && KeyRank(other, names) == Rank(d, names);
    RankIsBounded(c, names);
    if Rank(c, names) == Rank(d, names) {
      RankIsInjective(c, d, names);
    }
  }

  /** However callers vary their queries, together they can name at most this many snapshots. */
  lemma KeySpaceIsBounded(queries: set<Query>, names: seq<string>, number: Number)
    ensures |set q | q in queries :: BuildKey(Canonicalize(q, names, number))| <= (|names| + 1) * 10 * 100 * 100
  {
    var keys := set q | q in queries :: BuildKey(Canonicalize(q, names, number));
    forall k | k in keys
      ensures IsKey(k, names)
    {
      var q :| q in queries && k == BuildKey(Canonicalize(q, names, number));
      assert IsView(Canonicalize(q, names, number), names);
    }
    KeysAreFew(keys, names);
  }

  lemma KeysAreFew(keys: set<string>, names: seq<string>)
    requires forall k | k in keys :: IsKey(k, names)
    ensures |keys| <= (|names| + 1) * 10 * 100 * 100
  {
    forall k, l | k in keys && l in keys
      ensures 0 <= KeyRank(k, names) < (|names| + 1) * 10 * 100 * 100
      ensures KeyRank(k, names) == KeyRank(l, names) ==> k == l
    {
      KeyRankIsFaithful(k, l, names);
    }
    CardinalityAtMost(keys, k => KeyRank(k, names), (|names| + 1) * 10 * 100 * 100);
  }
}
