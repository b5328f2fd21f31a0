/**
 * Taking credentials out of connection URLs before a message is logged: the first
 * replacement, /(rediss?|https?):\/\/[^:/@\s]*:[^@\s]*@/gi, as the leftmost
 * non-overlapping scan the language performs.
 */
module Redaction {
  import opened Basics
  import opened Correlation

  const MASK := "[REDACTED]@"

  function Lower(c: char): char {
    if 'A' <= c <= 'Z' then (c as int + 32) as char else c
  }

  /** `s` starts with `word`, ignoring ASCII case. */
  predicate StartsWith(s: string, word: string) {
    |word| <= |s| && forall i | 0 <= i < |word| :: Lower(s[i]) == word[i]
  }

  /** The length of the scheme at the front of `s`, including "://"; zero when there is none. */
  function Scheme(s: string): (n: nat)
    ensures n <= |s|
  {
    if StartsWith(s, "redis://") then 8
    else if StartsWith(s, "rediss://") then 9
    else if StartsWith(s, "http://") then 7
    else if StartsWith(s, "https://") then 8
    else 0
  }

  predicate EndsUser(c: char) {
    c == ':' || c == '/' || c == '@' || IsSpace(c)
  }

  predicate EndsPassword(c: char) {
    c == '@' || IsSpace(c)
  }

  /** How many characters precede the first one that ends a user name; all, if none does. */
  function UserRun(s: string): (n: nat)
    ensures n <= |s|
  {
    if s == "" || EndsUser(s[0]) then 0 else 1 + UserRun(s[1..])
  }

  function PasswordRun(s: string): (n: nat)
    ensures n <= |s|
  {
    if s == "" || EndsPassword(s[0]) then 0 else 1 + PasswordRun(s[1..])
  }

  /** Where the pattern's match at the front of `s` ends; zero when it does not match there. */
  function MatchEnd(s: string): (n: nat)
    ensures n <= |s|
    ensures n > 0 ==> n > Scheme(s) > 0
  {
    var p := Scheme(s);
    if p == 0 then 0
    else
      var u := p + UserRun(s[p..]);
      if u == |s| || s[u] != ':' then 0
      else
        var w := u + 1 + PasswordRun(s[u + 1..]);
        if w == |s| || s[w] != '@' then 0 else w + 1
  }

  /** Every match replaced by its scheme and the mask, scanning from the left. */
  function Redact(s: string): string
    decreases |s|
  {
    if s == "" then ""
    else if MatchEnd(s) > 0 then s[..Scheme(s)] + MASK + Redact(s[MatchEnd(s)..])
    else [s[0]] + Redact(s[1..])
  }

  /** The pattern matches nowhere in `s`. */
  predicate NoMatch(s: string) {
    s == "" || (MatchEnd(s) == 0 && NoMatch(s[1..]))
  }

  // ----- Schemes -----

  /** Lower-case letters r and h start a scheme and occur nowhere else in one. */
  predicate Starts(c: char) {
    Lower(c) == 'r' || Lower(c) == 'h'
  }

  lemma WordShape(s: string, word: string)
    requires word in ["redis://", "rediss://", "http://", "https://"] && StartsWith(s, word)
    ensures
      var p := |word|;
      && Starts(s[0]) && (forall i | 1 <= i < p :: !Starts(s[i]))
      && s[p - 3] == ':' && s[p - 2] == '/' && s[p - 1] == '/'
      && (forall i | 0 <= i < p - 3 :: !EndsUser(s[i]))
  {
  }

  lemma SchemeShape(s: string)
    requires Scheme(s) > 0
    ensures
      var p := Scheme(s);
      && p > 3 && Starts(s[0]) && (forall i | 1 <= i < p :: !Starts(s[i]))
      && s[p - 3] == ':' && s[p - 2] == '/' && s[p - 1] == '/'
      && (forall i | 0 <= i < p - 3 :: !EndsUser(s[i]))
  {
    if StartsWith(s, "redis://") {
      WordShape(s, "redis://");
    } else if StartsWith(s, "rediss://") {
      WordShape(s, "rediss://");
    } else if StartsWith(s, "http://") {
      WordShape(s, "http://");
    } else {
      WordShape(s, "https://");
    }
  }

  lemma StartsWithIsLocal(a: string, b: string, word: string)
    requires StartsWith(a, word) && |word| <= |b| && a[..|word|] == b[..|word|]
    ensures StartsWith(b, word)
  {
    assert forall i | 0 <= i < |word| :: a[i] == a[..|word|][i] == b[..|word|][i] == b[i];
  }

  /** No text starts with two of the words. */
  lemma WordsExclude(s: string)
    ensures StartsWith(s, "redis://") ==> Scheme(s) == 8
    ensures StartsWith(s, "rediss://") ==> Scheme(s) == 9
    ensures StartsWith(s, "http://") ==> Scheme(s) == 7
    ensures StartsWith(s, "https://") ==> Scheme(s) == 8
  {
    assert StartsWith(s, "redis://") ==> Lower(s[0]) == 'r' && Lower(s[5]) == ':';
    assert StartsWith(s, "rediss://") ==> Lower(s[0]) == 'r' && Lower(s[5]) == 's';
    assert StartsWith(s, "http://") ==> Lower(s[0]) == 'h' && Lower(s[4]) == ':';
    assert StartsWith(s, "https://") ==> Lower(s[0]) == 'h' && Lower(s[4]) == 's';
  }

  /** A scheme is recognised by its own characters alone. */
  lemma SchemeIsLocal(a: string, b: string)
    requires 0 < Scheme(a) <= |b| && a[..Scheme(a)] == b[..Scheme(a)]
    ensures Scheme(b) == Scheme(a)
  {
    WordsExclude(b);
    if StartsWith(a, "redis://") {
      StartsWithIsLocal(a, b, "redis://");
    } else if StartsWith(a, "rediss://") {
      StartsWithIsLocal(a, b, "rediss://");
    } else if StartsWith(a, "http://") {
      StartsWithIsLocal(a, b, "http://");
    } else {
      StartsWithIsLocal(a, b, "https://");
    }
  }

  // ----- The rest of a match -----

  /** After the scheme: a user name, a colon, a password, an at sign. */
  predicate Tail(s: string) {
    var u := UserRun(s);
    u < |s| && s[u] == ':' && PasswordTail(s[u + 1..])
  }

  predicate PasswordTail(s: string) {
    var w := PasswordRun(s);
    w < |s| && s[w] == '@'
  }

  lemma MatchIsSchemeAndTail(s: string)
    ensures MatchEnd(s) > 0 <==> Scheme(s) > 0 && Tail(s[Scheme(s)..])
  {
  }

  lemma {:induction false} PasswordTailPrepend(a: string, s: string)
    requires forall i | 0 <= i < |a| :: !EndsPassword(a[i])
    ensures PasswordTail(a + s) <==> PasswordTail(s)
  {
    if a == "" {
      assert a + s == s;
    } else {
      assert (a + s)[1..] == a[1..] + s;
      PasswordTailPrepend(a[1..], s);
    }
  }

  lemma TailStep(s: string)
    requires s != "" && !EndsUser(s[0])
    ensures Tail(s) <==> Tail(s[1..])
  {
    hide EndsUser, PasswordTail;
    var z := s[1..];
    assert UserRun(s) == 1 + UserRun(z);
    if UserRun(z) < |z| {
      assert z[UserRun(z)] == s[UserRun(s)];
      assert z[UserRun(z) + 1..] == s[UserRun(s) + 1..];
    }
  }

  lemma {:induction false} TailPrepend(a: string, s: string)
    requires forall i | 0 <= i < |a| :: !EndsUser(a[i])
    ensures Tail(a + s) <==> Tail(s)
  {
    hide EndsUser, Tail;
    if a == "" {
      assert a + s == s;
    } else {
      assert (a + s)[0] == a[0] && (a + s)[1..] == a[1..] + s;
      TailStep(a + s);
      assert forall i | 0 <= i < |a[1..]| :: a[1..][i] == a[i + 1];
      TailPrepend(a[1..], s);
    }
  }

  lemma {:induction false} UserRunIsPlain(s: string)
    ensures forall i | 0 <= i < UserRun(s) :: !EndsUser(s[i])
  {
    if s != "" && !EndsUser(s[0]) {
      UserRunIsPlain(s[1..]);
    }
  }

  lemma TailEndsInPassword(s: string)
    requires Tail(s)
    ensures PasswordTail(s)
  {
    var u := UserRun(s);
    UserRunIsPlain(s);
    var front := s[..u + 1];
    assert s == front + s[u + 1..];
    assert forall i | 0 <= i < u :: front[i] == s[i];
    PasswordTailPrepend(front, s[u + 1..]);
  }

  lemma SlashesKeepPassword(s: string, p: nat)
    requires 2 <= p <= |s| && s[p - 2] == '/' && s[p - 1] == '/' && PasswordTail(s[p..])
    ensures PasswordTail(s[p - 2..])
  {
    assert s[p - 2..] == ['/', '/'] + s[p..];
    PasswordTailPrepend(['/', '/'], s[p..]);
  }

  /** A whole match could itself serve as the rest of an earlier one. */
  lemma MatchIsTail(s: string)
    requires MatchEnd(s) > 0
    ensures PasswordTail(s) && Tail(s)
  {
    hide Scheme, MatchEnd, PasswordTail;
    var p := Scheme(s);
    MatchIsSchemeAndTail(s);
    SchemeShape(s);
    TailEndsInPassword(s[p..]);
    SlashesKeepPassword(s, p);
    LettersKeepTails(s, p - 3);
  }

  lemma LettersKeepTails(s: string, n: nat)
    requires n < |s| && s[n] == ':' && PasswordTail(s[n + 1..])
    requires forall i | 0 <= i < n :: !EndsUser(s[i])
    ensures PasswordTail(s) && Tail(s)
  {
    var word, rest := s[..n], s[n..];
    assert s == word + rest;
    assert rest[1..] == s[n + 1..];
    TailPrepend(word, rest);
    TailEndsInPassword(s);
  }

  // ----- What the pattern says -----

  /** `word` is one of the schemes, (rediss?|https?):\/\/, in any case. */
  predicate IsScheme(word: string) {
    || (|word| == 8 && StartsWith(word, "redis://"))
    || (|word| == 9 && StartsWith(word, "rediss://"))
    || (|word| == 7 && StartsWith(word, "http://"))
    || (|word| == 8 && StartsWith(word, "https://"))
  }

  /** The pattern, part by part: scheme, user name, colon, password, at sign. */
  predicate IsCredentialUrl(scheme: string, user: string, password: string) {
    && IsScheme(scheme)
    && (forall i | 0 <= i < |user| :: !EndsUser(user[i]))
    && (forall i | 0 <= i < |password| :: !EndsPassword(password[i]))
  }

  /** A prefix of `s` matches the pattern, in one way or another. */
  ghost predicate MatchesHere(s: string) {
    exists scheme, user, password, rest ::
      IsCredentialUrl(scheme, user, password) && s == scheme + user + ":" + password + "@" + rest
  }

  lemma SchemeIsScheme(s: string)
    requires Scheme(s) > 0
    ensures IsScheme(s[..Scheme(s)])
  {
    if StartsWith(s, "redis://") {
      StartsWithIsLocal(s, s[..8], "redis://");
    } else if StartsWith(s, "rediss://") {
      StartsWithIsLocal(s, s[..9], "rediss://");
    } else if StartsWith(s, "http://") {
      StartsWithIsLocal(s, s[..7], "http://");
    } else {
      StartsWithIsLocal(s, s[..8], "https://");
    }
  }

  lemma IsSchemeIsScheme(word: string)
    requires IsScheme(word)
    ensures Scheme(word) == |word| > 0
  {
    WordsExclude(word);
  }

  lemma {:induction false} RunsStop(user: string, rest: string)
    requires forall i | 0 <= i < |user| :: !EndsUser(user[i])
    requires rest != "" && EndsUser(rest[0])
    ensures UserRun(user + rest) == |user|
  {
    hide EndsUser;
    if user == "" {
      assert user + rest == rest;
    } else {
      assert (user + rest)[0] == user[0] && (user + rest)[1..] == user[1..] + rest;
      RunsStop(user[1..], rest);
    }
  }

  lemma {:induction false} PasswordRunIsPlain(s: string)
    ensures forall i | 0 <= i < PasswordRun(s) :: !EndsPassword(s[i])
  {
    if s != "" && !EndsPassword(s[0]) {
      PasswordRunIsPlain(s[1..]);
    }
  }

  lemma SplitMatches(scheme: string, user: string, password: string, rest: string)
    requires IsCredentialUrl(scheme, user, password)
    ensures MatchEnd(scheme + user + ":" + password + "@" + rest) > 0
  {
    hide MatchEnd, IsCredentialUrl, Scheme;
    UrlMatchesWhole(scheme, user, password, rest);
    assert Url(scheme, user, password) + rest == scheme + user + ":" + password + "@" + rest;
    UrlIsNotEmpty(scheme, user, password);
  }

  lemma ColonEndsUser()
    ensures EndsUser(':')
  {
  }

  lemma PasswordTailSplits(t: string) returns (password: string, rest: string)
    requires PasswordTail(t)
    ensures t == password + "@" + rest && forall i | 0 <= i < |password| :: !EndsPassword(password[i])
  {
    PasswordRunIsPlain(t);
    var w := PasswordRun(t);
    password, rest := t[..w], t[w + 1..];
  }

  lemma TailSplits(t: string) returns (user: string, rest: string)
    requires Tail(t)
    ensures t == user + ":" + rest && PasswordTail(rest) && forall i | 0 <= i < |user| :: !EndsUser(user[i])
  {
    hide PasswordTail;
    UserRunIsPlain(t);
    var u := UserRun(t);
    user, rest := t[..u], t[u + 1..];
  }

  lemma MatchSplits(s: string)
    requires MatchEnd(s) > 0
    ensures MatchesHere(s)
  {
    hide MatchEnd, Scheme, IsScheme, Tail, PasswordTail, EndsUser, EndsPassword;
    MatchIsSchemeAndTail(s);
    SchemeIsScheme(s);
    var scheme := s[..Scheme(s)];
    var user, tail := TailSplits(s[Scheme(s)..]);
    var password, rest := PasswordTailSplits(tail);
    assert s == scheme + s[Scheme(s)..];
    assert s == scheme + user + ":" + password + "@" + rest;
    assert IsCredentialUrl(scheme, user, password);
  }

  /**
   * The scan's test for a match is the pattern: it answers yes exactly where some
   * division of the text into the pattern's parts exists.
   */
  lemma ScanFindsPattern(s: string)
    ensures MatchEnd(s) > 0 <==> MatchesHere(s)
  {
    hide MatchEnd, IsCredentialUrl;
    if MatchEnd(s) > 0 {
      MatchSplits(s);
    }
    if MatchesHere(s) {
      var scheme, user, password, rest :|
        IsCredentialUrl(scheme, user, password) && s == scheme + user + ":" + password + "@" + rest;
      SplitMatches(scheme, user, password, rest);
    }
  }

  /** `s` contains no credential URL anywhere. */
  lemma {:induction false} NoMatchMeansNowhere(s: string)
    ensures NoMatch(s) <==> forall i | 0 <= i <= |s| :: !MatchesHere(s[i..])
  {
    hide MatchEnd, MatchesHere;
    ScanFindsPattern(s);
    assert s[0..] == s;
    if s == "" {
      NothingMatchesNothing();
    } else {
      var t := s[1..];
      NoMatchMeansNowhere(t);
      forall i | 0 <= i <= |t|
        ensures t[i..] == s[i + 1..]
      {
      }
      assert forall i | 1 <= i <= |s| :: s[i..] == t[i - 1..];
    }
  }

  lemma NothingMatchesNothing()
    ensures !MatchesHere("")
  {
  }

  // ----- Redaction creates no match -----

  lemma {:induction false} PasswordTailSurvives(x: string)
    requires PasswordTail(Redact(x))
    ensures PasswordTail(x)
    decreases |x|
  {
    hide Scheme, MatchEnd;
    if MatchEnd(x) > 0 {
      MatchIsTail(x);
    } else if x != "" && !EndsPassword(x[0]) {
      assert Redact(x)[1..] == Redact(x[1..]);
      PasswordTailSurvives(x[1..]);
    }
  }

  lemma {:induction false} TailSurvives(x: string)
    requires Tail(Redact(x))
    ensures Tail(x)
    decreases |x|
  {
    hide Scheme, MatchEnd;
    if MatchEnd(x) > 0 {
      MatchIsTail(x);
    } else if x != "" {
      assert Redact(x)[1..] == Redact(x[1..]);
      if EndsUser(x[0]) {
        PasswordTailSurvives(x[1..]);
      } else {
        TailSurvives(x[1..]);
      }
    }
  }

  lemma RedactOfNothing()
    ensures Redact("") == "" && NoMatch("")
  {
  }

  lemma RedactUnfolds(t: string)
    requires t != ""
    ensures Redact(t) != ""
    ensures MatchEnd(t) > 0 ==> Starts(Redact(t)[0])
    ensures MatchEnd(t) == 0 ==> Redact(t) == [t[0]] + Redact(t[1..])
  {
    hide Scheme;
    if MatchEnd(t) > 0 {
      SchemeShape(t);
      assert Redact(t)[0] == t[0];
    }
  }

  /** Up to the first letter that could start a scheme, redaction copies. */
  lemma {:induction false} CopiesUntilStart(t: string, k: nat)
    requires k <= |Redact(t)| && forall i | 0 <= i < k :: !Starts(Redact(t)[i])
    ensures k <= |t| && Redact(t)[..k] == t[..k] && Redact(t)[k..] == Redact(t[k..])
    decreases k
  {
    hide Redact, MatchEnd;
    if k == 0 {
      assert t[0..] == t;
    } else {
      RedactOfNothing();
      RedactUnfolds(t);
      var tail := t[1..];
      var r := Redact(tail);
      assert Redact(t) == [t[0]] + r;
      assert forall i | 0 <= i < k - 1 :: r[i] == Redact(t)[i + 1];
      CopiesUntilStart(tail, k - 1);
      assert Redact(t)[..k] == [t[0]] + r[..k - 1];
      assert Redact(t)[k..] == r[k - 1..];
      assert tail[k - 1..] == t[k..];
    }
  }

  lemma KeptCharacterStartsNoMatch(c: char, t: string)
    requires MatchEnd([c] + t) == 0
    ensures MatchEnd([c] + Redact(t)) == 0
  {
    hide Scheme, Redact, MatchEnd, Tail;
    var s, out := [c] + t, [c] + Redact(t);
    if Scheme(out) > 0 {
      var p := Scheme(out);
      SchemeShape(out);
      assert forall i | 0 <= i < p - 1 :: Redact(t)[i] == out[i + 1];
      CopiesUntilStart(t, p - 1);
      assert out[..p] == [c] + Redact(t)[..p - 1] == s[..p];
      SchemeIsLocal(out, s);
      assert out[p..] == Redact(t)[p - 1..] == Redact(t[p - 1..]);
      assert s[p..] == t[p - 1..];
      MatchIsSchemeAndTail(s);
      MatchIsSchemeAndTail(out);
      if Tail(out[p..]) {
        TailSurvives(t[p - 1..]);
      }
    }
  }

  lemma {:induction false} QuietPrefix(a: string, s: string)
    requires NoMatch(s) && forall i | 0 <= i < |a| :: Scheme((a + s)[i..]) == 0
    ensures NoMatch(a + s)
  {
    if a == "" {
      assert a + s == s;
    } else {
      assert (a + s)[1..] == a[1..] + s;
      assert (a + s)[0..] == a + s;
      forall i | 0 <= i < |a[1..]|
        ensures Scheme((a[1..] + s)[i..]) == 0
      {
        assert (a[1..] + s)[i..] == (a + s)[i + 1..];
      }
      QuietPrefix(a[1..], s);
    }
  }

  lemma MaskIsQuiet(s: string, i: nat)
    requires i < |MASK|
    ensures Scheme((MASK + s)[i..]) == 0
  {
    var z := (MASK + s)[i..];
    assert z[0] == MASK[i];
    if i == 1 {
      assert z[3] == MASK[4];
    }
  }

  lemma MaskedSchemeIsQuiet(scheme: string, s: string)
    requires Scheme(scheme) == |scheme| > 0 && NoMatch(s)
    ensures NoMatch(scheme + MASK + s)
  {
    hide Scheme, Tail, MatchEnd, EndsUser;
    var p := |scheme|;
    var out := scheme + MASK + s;
    SchemeShape(scheme);
    assert out[..p] == scheme == scheme[..p];
    SchemeIsLocal(scheme, out);
    assert out[p..] == MASK + s;
    MaskStopsTheUser(s);
    MatchIsSchemeAndTail(out);
    var a := scheme[1..] + MASK;
    assert out[1..] == a + s;
    forall i | 0 <= i < |a|
      ensures Scheme((a + s)[i..]) == 0
    {
      if i < p - 1 {
        assert (a + s)[i..][0] == scheme[i + 1];
        NotAStart((a + s)[i..]);
      } else {
        assert (a + s)[i..] == (MASK + s)[i - (p - 1)..];
        MaskIsQuiet(s, i - (p - 1));
      }
    }
    QuietPrefix(a, s);
  }

  lemma NotAStart(s: string)
    requires s != "" && !Starts(s[0])
    ensures Scheme(s) == 0
  {
    if Scheme(s) > 0 {
      SchemeShape(s);
    }
  }

  lemma MaskStopsTheUser(s: string)
    ensures !Tail(MASK + s)
  {
    assert MASK + s == "[REDACTED]" + (['@'] + s);
    TailPrepend("[REDACTED]", ['@'] + s);
  }

  lemma MaskedMatchIsQuiet(s: string)
    requires MatchEnd(s) > 0 && NoMatch(Redact(s[MatchEnd(s)..]))
    ensures NoMatch(Redact(s))
  {
    hide Scheme, NoMatch, Tail;
    var scheme := s[..Scheme(s)];
    assert scheme[..Scheme(s)] == s[..Scheme(s)];
    SchemeIsLocal(s, scheme);
    MaskedSchemeIsQuiet(scheme, Redact(s[MatchEnd(s)..]));
  }

  lemma KeptIsQuiet(s: string)
    requires s != "" && MatchEnd(s) == 0 && NoMatch(Redact(s[1..]))
    ensures NoMatch(Redact(s))
  {
    hide Scheme, MatchEnd, Tail;
    assert s == [s[0]] + s[1..];
    KeptCharacterStartsNoMatch(s[0], s[1..]);
    RedactUnfolds(s);
    assert Redact(s)[1..] == Redact(s[1..]);
  }

  /** After the pass no credential URL is left, anywhere in the text. */
  lemma {:induction false} NothingIsLeft(s: string)
    ensures NoMatch(Redact(s))
    decreases |s|
  {
    hide Scheme, NoMatch, Redact, Tail;
    if s == "" {
      RedactOfNothing();
    } else if MatchEnd(s) > 0 {
      NothingIsLeft(s[MatchEnd(s)..]);
      MaskedMatchIsQuiet(s);
    } else {
      NothingIsLeft(s[1..]);
      KeptIsQuiet(s);
    }
  }

  lemma {:induction false} NoMatchMeansUnchanged(s: string)
    ensures NoMatch(s) ==> Redact(s) == s
  {
    if s != "" && NoMatch(s) {
      NoMatchMeansUnchanged(s[1..]);
    }
  }

  /** A second pass finds nothing to do. */
  lemma RedactIsIdempotent(s: string)
    ensures Redact(Redact(s)) == Redact(s)
  {
    NothingIsLeft(s);
    NoMatchMeansUnchanged(Redact(s));
  }

  /** Text is left as it is exactly when it has no credential URL in it. */
  lemma UnchangedIffNoMatch(s: string)
    ensures NoMatch(s) <==> Redact(s) == s
  {
    NothingIsLeft(s);
    NoMatchMeansUnchanged(s);
  }

  /** In the pattern's own terms: no part of what is logged is a credential URL. */
  lemma NoCredentialUrlIsLeft(s: string)
    ensures forall i | 0 <= i <= |Redact(s)| :: !MatchesHere(Redact(s)[i..])
  {
    hide Redact, MatchesHere, NoMatch;
    NothingIsLeft(s);
    NoMatchMeansNowhere(Redact(s));
  }

  // ----- What a match is replaced by -----

  function Url(scheme: string, user: string, password: string): string {
    scheme + user + ":" + password + "@"
  }

  lemma {:induction false} UserRunAppend(a: string, t: string)
    ensures UserRun(a + t) == if UserRun(a) < |a| then UserRun(a) else |a| + UserRun(t)
  {
    hide EndsUser;
    if a == "" {
      assert a + t == t;
    } else {
      assert (a + t)[0] == a[0] && (a + t)[1..] == a[1..] + t;
      UserRunAppend(a[1..], t);
    }
  }

  lemma {:induction false} PasswordRunAppend(a: string, t: string)
    ensures PasswordRun(a + t) == if PasswordRun(a) < |a| then PasswordRun(a) else |a| + PasswordRun(t)
  {
    hide EndsPassword;
    if a == "" {
      assert a + t == t;
    } else {
      assert (a + t)[0] == a[0] && (a + t)[1..] == a[1..] + t;
      PasswordRunAppend(a[1..], t);
    }
  }

  lemma {:induction false} PlainPasswordRun(password: string, rest: string)
    requires forall i | 0 <= i < |password| :: !EndsPassword(password[i])
    ensures PasswordRun(password + "@" + rest) == |password|
  {
    hide EndsPassword;
    AtEnds();
    if password == "" {
      assert password + "@" + rest == "@" + rest;
    } else {
      var s := password + "@" + rest;
      assert s[0] == password[0] && s[1..] == password[1..] + "@" + rest;
      PlainPasswordRun(password[1..], rest);
    }
  }

  lemma AtEnds()
    ensures EndsPassword('@')
  {
  }

  /** Seen from before it, a credential URL is all password up to its at sign, and a user name up to its first colon. */
  lemma UrlRuns(scheme: string, user: string, password: string, rest: string)
    requires IsCredentialUrl(scheme, user, password)
    ensures
      var s := Url(scheme, user, password) + rest;
      && PasswordRun(s) == |Url(scheme, user, password)| - 1
      && |scheme| > 3 && UserRun(s) == |scheme| - 3 && s[|scheme| - 3] == ':'
      && PasswordRun(s[|scheme| - 2..]) == |Url(scheme, user, password)| - 1 - (|scheme| - 2)
  {
    hide Scheme, IsScheme, PasswordRun, UserRun;
    IsSchemeIsScheme(scheme);
    SchemeShape(scheme);
    UserIsNoSpaceOrAt(scheme, user, password);
    var front := scheme + user + ":" + password;
    var s := Url(scheme, user, password) + rest;
    assert s == front + "@" + rest;
    PlainPasswordRun(front, rest);
    var n := |scheme| - 3;
    assert s == scheme[..n] + s[n..];
    RunsStop(scheme[..n], s[n..]);
    assert s[n + 1..] == front[n + 1..] + "@" + rest;
    PlainPasswordRun(front[n + 1..], rest);
  }

  lemma UserIsNoSpaceOrAt(scheme: string, user: string, password: string)
    requires IsCredentialUrl(scheme, user, password)
    ensures forall c | c in scheme + user + ":" + password :: !EndsPassword(c)
  {
    hide Scheme, IsScheme;
    IsSchemeIsScheme(scheme);
    SchemeShape(scheme);
    var p := |scheme|;
    forall i | 0 <= i < p
      ensures !EndsPassword(scheme[i])
    {
      if i >= p - 3 {
        assert i == p - 3 || i == p - 2 || i == p - 1;
      } else {
        assert !EndsUser(scheme[i]);
      }
    }
  }

  /** The whole URL matches, and nothing after its first at sign does. */
  lemma UrlMatchesWhole(scheme: string, user: string, password: string, rest: string)
    requires IsCredentialUrl(scheme, user, password)
    ensures
      var s := Url(scheme, user, password) + rest;
      Scheme(s) == |scheme| && MatchEnd(s) == |Url(scheme, user, password)|
  {
    hide IsScheme, EndsUser, EndsPassword, Scheme, TailEnd;
    var s := Url(scheme, user, password) + rest;
    var tail := user + ":" + password + "@" + rest;
    assert s == scheme + tail;
    IsSchemeIsScheme(scheme);
    assert scheme[..|scheme|] == s[..|scheme|];
    SchemeIsLocal(scheme, s);
    assert s[|scheme|..] == tail;
    PlainTailEnds(user, password, rest);
    MatchIsSchemeAndTailEnd(s);
  }

  lemma PlainTailEnds(user: string, password: string, rest: string)
    requires forall i | 0 <= i < |user| :: !EndsUser(user[i])
    requires forall i | 0 <= i < |password| :: !EndsPassword(password[i])
    ensures TailEnd(user + ":" + password + "@" + rest) == |user| + 1 + |password| + 1
  {
    hide EndsUser, EndsPassword;
    var after := password + "@" + rest;
    var s := user + (":" + after);
    assert user + ":" + password + "@" + rest == s;
    ColonEndsUser();
    RunsStop(user, ":" + after);
    assert s[|user| + 1..] == after;
    PlainPasswordRun(password, rest);
  }

  /** Where user name, colon, password and at sign end, at the front of `t`; zero if they are not there. */
  function TailEnd(t: string): nat {
    var u := UserRun(t);
    if u == |t| || t[u] != ':' then 0
    else
      var w := u + 1 + PasswordRun(t[u + 1..]);
      if w == |t| || t[w] != '@' then 0 else w + 1
  }

  lemma MatchIsSchemeAndTailEnd(s: string)
    ensures
      var p := Scheme(s);
      var tail := TailEnd(s[p..]);
      MatchEnd(s) == if p == 0 || tail == 0 then 0 else p + tail
  {
    hide Scheme;
    var p := Scheme(s);
    if p > 0 {
      var u := UserRun(s[p..]);
      if u < |s[p..]| {
        assert s[p..][u + 1..] == s[p + u + 1..];
      }
    }
  }

  /** The same end in `b + url`, told from `b` alone and the length n of the URL. */
  function TailEndAround(b: string, n: nat): (end: nat)
    ensures end <= |b| || end == |b| + n
  {
    var u := UserRun(b);
    if u == |b| then |b| + n
    else if b[u] != ':' then 0
    else
      var w := u + 1 + PasswordRun(b[u + 1..]);
      if w == |b| then |b| + n else if b[w] != '@' then 0 else w + 1
  }

  lemma TailEndsAround(b: string, scheme: string, user: string, password: string, rest: string)
    requires IsCredentialUrl(scheme, user, password)
    ensures TailEnd(b + (Url(scheme, user, password) + rest)) == TailEndAround(b, |Url(scheme, user, password)|)
  {
    hide IsCredentialUrl, UserRun, PasswordRun, Url;
    var n, url := |Url(scheme, user, password)|, Url(scheme, user, password) + rest;
    var t := b + url;
    UrlRuns(scheme, user, password, rest);
    UrlEndsAt(scheme, user, password);
    UserRunAppend(b, url);
    var u := UserRun(b);
    if u < |b| {
      assert t[u] == b[u] && t[u + 1..] == b[u + 1..] + url;
      PasswordRunAppend(b[u + 1..], url);
    } else {
      assert t[|b| + |scheme| - 3] == url[|scheme| - 3];
      assert t[|b| + |scheme| - 2..] == url[|scheme| - 2..];
    }
  }

  lemma UrlEndsAt(scheme: string, user: string, password: string)
    ensures var url := Url(scheme, user, password); |url| > |scheme| && url[|url| - 1] == '@'
  {
  }

  /** Where a match at the front of `a + url` ends, for a URL of length n: within `a`, or with the URL. */
  function EndAround(a: string, n: nat): (end: nat)
    ensures end <= |a| || end == |a| + n
  {
    var p := Scheme(a);
    if p == 0 || TailEndAround(a[p..], n) == 0 then 0 else p + TailEndAround(a[p..], n)
  }

  lemma SchemeEndsBefore(a: string, url: string)
    requires a != "" && url != "" && Starts(url[0])
    ensures Scheme(a + url) == Scheme(a)
  {
    hide Scheme;
    var s := a + url;
    assert s[|a|] == url[0];
    if Scheme(s) > 0 {
      SchemeShape(s);
      assert s[..Scheme(s)] == a[..Scheme(s)];
      SchemeIsLocal(s, a);
    } else if Scheme(a) > 0 {
      assert s[..Scheme(a)] == a[..Scheme(a)];
      SchemeIsLocal(a, s);
    }
  }

  /** What comes before a URL decides, without looking at its user and password, where a match ends. */
  lemma MatchEndsAround(a: string, scheme: string, user: string, password: string, rest: string)
    requires IsCredentialUrl(scheme, user, password) && a != ""
    ensures
      var s := a + (Url(scheme, user, password) + rest);
      Scheme(s) == Scheme(a) && MatchEnd(s) == EndAround(a, |Url(scheme, user, password)|)
  {
    hide Scheme, TailEnd, TailEndAround, MatchEnd, Starts;
    var url := Url(scheme, user, password) + rest;
    UrlStarts(scheme, user, password, rest);
    SchemeEndsBefore(a, url);
    MatchIsSchemeAndTailEnd(a + url);
    assert (a + url)[Scheme(a)..] == a[Scheme(a)..] + url;
    TailEndsAround(a[Scheme(a)..], scheme, user, password, rest);
  }

  lemma UrlStarts(scheme: string, user: string, password: string, rest: string)
    requires IsCredentialUrl(scheme, user, password)
    ensures var s := Url(scheme, user, password) + rest; s != "" && Starts(s[0])
  {
    hide Scheme, IsScheme, Starts;
    IsSchemeIsScheme(scheme);
    SchemeShape(scheme);
  }

  lemma MatchIsMasked(s: string)
    requires MatchEnd(s) > 0
    ensures Redact(s) == s[..Scheme(s)] + "[REDACTED]@" + Redact(s[MatchEnd(s)..])
  {
  }

  /** A credential URL that the scan gets to becomes its scheme and the mask, and nothing else of it is kept. */
  lemma UrlIsMasked(scheme: string, user: string, password: string, rest: string)
    requires IsCredentialUrl(scheme, user, password)
    ensures Redact(Url(scheme, user, password) + rest) == scheme + "[REDACTED]@" + Redact(rest)
  {
    hide Scheme, MatchEnd, Redact, IsCredentialUrl;
    var s := Url(scheme, user, password) + rest;
    UrlMatchesWhole(scheme, user, password, rest);
    UrlIsNotEmpty(scheme, user, password);
    MatchIsMasked(s);
    assert s[..|scheme|] == scheme;
    assert s[|Url(scheme, user, password)|..] == rest;
  }

  lemma UrlIsNotEmpty(scheme: string, user: string, password: string)
    ensures Url(scheme, user, password) != ""
  {
  }

  /**
   * The text before the first match is copied, the match becomes its scheme and the
   * mask, and the scan goes on behind it.
   */
  lemma {:induction false} FirstMatchIsMasked(a: string, scheme: string, user: string, password: string, rest: string)
    requires IsCredentialUrl(scheme, user, password)
    requires forall i | 0 <= i < |a| :: !MatchesHere((a + (Url(scheme, user, password) + rest))[i..])
    ensures Redact(a + (Url(scheme, user, password) + rest)) == a + scheme + "[REDACTED]@" + Redact(rest)
  {
    hide Scheme, MatchEnd, Redact, MatchesHere, IsCredentialUrl, Url;
    var url := Url(scheme, user, password) + rest;
    if a == "" {
      UrlIsMasked(scheme, user, password, rest);
      assert a + url == url && a + scheme == scheme;
    } else {
      var s, b := a + url, a[1..];
      assert s[0..] == s && s[1..] == b + url;
      assert forall i | 0 <= i < |b| :: (b + url)[i..] == s[i + 1..];
      FirstMatchIsMasked(b, scheme, user, password, rest);
      ScanFindsPattern(s);
      RedactUnfolds(s);
      assert [a[0]] + (b + scheme + "[REDACTED]@" + Redact(rest)) == a + scheme + "[REDACTED]@" + Redact(rest);
    }
  }

  /**
   * What is logged does not depend on the secrets: texts that differ only in the user
   * and password of a credential URL, whatever surrounds it, are redacted alike.
   */
  lemma {:induction false} SecretsLeaveNoTrace(
    a: string, scheme: string, user: string, password: string, user': string, password': string, rest: string)
    requires IsCredentialUrl(scheme, user, password) && IsCredentialUrl(scheme, user', password')
    ensures Redact(a + (Url(scheme, user, password) + rest)) == Redact(a + (Url(scheme, user', password') + rest))
    decreases |a|
  {
    hide Scheme, MatchEnd, Redact, IsCredentialUrl, Url, EndAround;
    var url, url' := Url(scheme, user, password) + rest, Url(scheme, user', password') + rest;
    if a == "" {
      UrlIsMasked(scheme, user, password, rest);
      UrlIsMasked(scheme, user', password', rest);
      assert a + url == url && a + url' == url';
    } else {
      var s, s' := a + url, a + url';
      MatchEndsAround(a, scheme, user, password, rest);
      MatchEndsAround(a, scheme, user', password', rest);
      UrlIsNotEmpty(scheme, user, password);
      UrlIsNotEmpty(scheme, user', password');
      EndsAlike(a, |Url(scheme, user, password)|, |Url(scheme, user', password')|);
      if MatchEnd(s) == 0 {
        assert s[1..] == a[1..] + url && s'[1..] == a[1..] + url';
        RedactUnfolds(s);
        RedactUnfolds(s');
        SecretsLeaveNoTrace(a[1..], scheme, user, password, user', password', rest);
      } else {
        MatchIsMasked(s);
        MatchIsMasked(s');
        assert s[..Scheme(a)] == a[..Scheme(a)] == s'[..Scheme(a)];
        var end := MatchEnd(s);
        if end <= |a| {
          assert s[end..] == a[end..] + url && s'[end..] == a[end..] + url';
          SecretsLeaveNoTrace(a[end..], scheme, user, password, user', password', rest);
        } else {
          assert s[MatchEnd(s)..] == rest && s'[MatchEnd(s')..] == rest;
        }
      }
    }
  }

  lemma EndsAlike(a: string, n: nat, m: nat)
    requires n > 0 && m > 0
    ensures EndAround(a, n) <= |a| ==> EndAround(a, m) == EndAround(a, n)
    ensures EndAround(a, n) > |a| ==> EndAround(a, m) == |a| + m
  {
  }

  /** One text in full: the scheme is known in any case and kept as it is. */
  lemma LoudUrlIsMasked()
    ensures Redact("REDIS://u:p@h") == "REDIS://[REDACTED]@h"
  {
    hide MatchEnd, Redact;
    assert StartsWith("REDIS://", "redis://");
    assert "REDIS://u:p@h" == Url("REDIS://", "u", "p") + "h";
    UrlIsMasked("REDIS://", "u", "p", "h");
    RedactUnfolds("h");
    RedactOfNothing();
    OneLetterIsNoMatch();
    assert "h"[1..] == "";
  }

  lemma OneLetterIsNoMatch()
    ensures MatchEnd("h") == 0
  {
  }
}
