/** The email validator: normalisation and format. */
module EmailValidator {
  import opened Results
  import opened Strings

  /** A regular expression made of `[^c]+` and literal characters, one after the other. */
  datatype Pattern = End | SomeExcept(c: char, rest: Pattern) | Exactly(c: char, rest: Pattern)

  /** `[^@]+@[^@]+\.[^@]+` */
  const EMAIL_PATTERN :=
    SomeExcept('@', Exactly('@', SomeExcept('@', Exactly('.', SomeExcept('@', End)))))

  predicate Avoids(s: string, c: char) {
    forall i :: 0 <= i < |s| ==> s[i] != c
  }

  /** The whole of `s` matches the pattern. */
  predicate FullMatch(p: Pattern, s: string) {
    match p
    case End => s == ""
    case Exactly(c, rest) => s != "" && s[0] == c && FullMatch(rest, s[1..])
    case SomeExcept(c, rest) =>
      exists n: nat | 1 <= n <= |s| :: Avoids(s[..n], c) && FullMatch(rest, s[n..])
  }

  function ValidateEmail(email: Argument): Result<string> {
    if email == Null || email == Text("") then Err(EmailRequired)
    else if email.NotText? then Err(EmailNotText)
    else
      var normal := Lower(Strip(email.text));
      if FullMatch(EMAIL_PATTERN, normal) then Ok(normal) else Err(EmailFormat)
  }

  /** The one '@' of `s` stands at `at`, after a nonempty local part. */
  ghost predicate SplitsAt(s: string, at: nat) {
    0 < at < |s| && forall i :: 0 <= i < |s| ==> (s[i] == '@' <==> i == at)
  }

  /** The domain that follows `at` has a '.' which is neither its first nor its last character. */
  ghost predicate DottedAfter(s: string, at: nat) {
    exists dot: nat :: at + 1 < dot < |s| - 1 && s[dot] == '.'
  }

  ghost predicate WellFormed(s: string) {
    exists at: nat :: SplitsAt(s, at) && DottedAfter(s, at)
  }

  /** An email in the form in which the service stores it. */
  ghost predicate Canonical(email: string) {
    WellFormed(email) && Trimmed(email) && Lower(email) == email
  }

  /** A match of `[^a]+b` and more splits into the run, the literal and a match of the rest. */
  lemma MatchSplits(a: char, b: char, rest: Pattern, s: string) returns (run: string, tail: string)
    requires FullMatch(SomeExcept(a, Exactly(b, rest)), s)
    ensures s == run + [b] + tail && run != "" && Avoids(run, a) && FullMatch(rest, tail)
  {
    var n: nat :| 1 <= n <= |s| && Avoids(s[..n], a) && FullMatch(Exactly(b, rest), s[n..]);
    run, tail := s[..n], s[n..][1..];
  }

  lemma MatchEnds(a: char, s: string)
    requires FullMatch(SomeExcept(a, End), s)
    ensures s != "" && Avoids(s, a)
  {
    var n: nat :| 1 <= n <= |s| && Avoids(s[..n], a) && FullMatch(End, s[n..]);
    assert s == s[..n];
  }

  lemma MatchIsWellFormed(s: string)
    requires FullMatch(EMAIL_PATTERN, s)
    ensures WellFormed(s)
  {
    var local, domain := MatchSplits('@', '@', EMAIL_PATTERN.rest.rest, s);
    var host, top := MatchSplits('@', '.', SomeExcept('@', End), domain);
    MatchEnds('@', top);
    PartsAreWellFormed(s, local, host, top);
  }

  lemma PartsAreWellFormed(s: string, local: string, host: string, top: string)
    requires local != "" && host != "" && top != ""
    requires Avoids(local, '@') && Avoids(host, '@') && Avoids(top, '@')
    requires s == local + ['@'] + (host + ['.'] + top)
    ensures WellFormed(s)
  {
    assert SplitsAt(s, |local|);
    var dot := |local| + 1 + |host|;
    assert s[dot] == '.';
    assert DottedAfter(s, |local|);
  }

  lemma MatchesEnd(a: char, s: string)
    requires s != "" && Avoids(s, a)
    ensures FullMatch(SomeExcept(a, End), s)
  {
    assert s[..|s|] == s && FullMatch(End, s[|s|..]);
  }

  lemma MatchesPart(a: char, b: char, rest: Pattern, s: string, n: nat)
    requires 0 < n < |s| && Avoids(s[..n], a) && s[n] == b && FullMatch(rest, s[n + 1..])
    ensures FullMatch(SomeExcept(a, Exactly(b, rest)), s)
  {
    assert s[n..][1..] == s[n + 1..];
    assert FullMatch(Exactly(b, rest), s[n..]);
  }

  lemma WellFormedMatches(s: string)
    requires WellFormed(s)
    ensures FullMatch(EMAIL_PATTERN, s)
  {
    var at: nat :| SplitsAt(s, at) && DottedAfter(s, at);
    var dot: nat :| at + 1 < dot < |s| - 1 && s[dot] == '.';
    var domain, top := s[at + 1..], s[dot + 1..];
    var n := dot - at - 1;
    MatchesEnd('@', top);
    assert domain[n] == '.' && domain[n + 1..] == top;
    MatchesPart('@', '.', SomeExcept('@', End), domain, n);
    MatchesPart('@', '@', EMAIL_PATTERN.rest.rest, s, at);
  }

  /** Exactly which text is accepted, and what is returned for it. */
  lemma AcceptsExactlyWellFormed(s: string)
    ensures ValidateEmail(Text(s)).Ok? <==> WellFormed(Lower(Strip(s)))
    ensures ValidateEmail(Text(s)).Ok? ==> Canonical(ValidateEmail(Text(s)).value)
  {
    hide FullMatch, WellFormed, Strip, Lower, Trimmed;
    var normal := Lower(Strip(s));
    if FullMatch(EMAIL_PATTERN, normal) {
      MatchIsWellFormed(normal);
    }
    if WellFormed(normal) {
      WellFormedMatches(normal);
    }
    var _, _ := StripCutsBlanks(s);
    LowerKeepsTrimmed(Strip(s));
  }

  /** What becomes of every argument: the required, the type and the format error, or the normalised text. */
  lemma EmailOutcome(s: string)
    ensures ValidateEmail(Text(s)) ==
            if s == "" then Err(EmailRequired)
            else if WellFormed(Lower(Strip(s))) then Ok(Lower(Strip(s)))
            else Err(EmailFormat)
    ensures ValidateEmail(Null) == Err(EmailRequired) && ValidateEmail(NotText) == Err(EmailNotText)
  {
    hide FullMatch, WellFormed, Strip, Lower;
    AcceptsExactlyWellFormed(s);
  }

  /** The canonical emails are exactly the fixed points of the validator, which is therefore idempotent. */
  lemma CanonicalIffUnchanged(s: string)
    ensures Canonical(s) <==> ValidateEmail(Text(s)) == Ok(s)
    ensures ValidateEmail(Text(s)).Ok? ==>
              ValidateEmail(Text(ValidateEmail(Text(s)).value)) == ValidateEmail(Text(s))
  {
    hide FullMatch;
    AcceptsExactlyWellFormed(s);
    StripFixesTrimmed(s);
    if ValidateEmail(Text(s)).Ok? {
      var e := ValidateEmail(Text(s)).value;
      AcceptsExactlyWellFormed(e);
      StripFixesTrimmed(e);
    }
  }
}
