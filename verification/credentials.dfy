/**
 The credential check shared by the login, volunteer-login and
 volunteer-signup handlers (index.js): the email must match
 `^[a-zA-Z0-9._%+-]+@[a-zA-Z0-9.-]+\.[a-zA-Z]{2,}$` and the password must
 have at least 7 characters.
 */
module Credentials {
  import opened Common

  predicate IsAsciiLetter(c: char)
  {
    ('a' <= c <= 'z') || ('A' <= c <= 'Z')
  }

  predicate IsDigit(c: char)
  {
    '0' <= c <= '9'
  }

  /** `[a-zA-Z0-9._%+-]` */
  predicate IsLocalChar(c: char)
  {
    IsAsciiLetter(c) || IsDigit(c) || c == '.' || c == '_' || c == '%' || c == '+' || c == '-'
  }

  /** `[a-zA-Z0-9.-]` */
  predicate IsDomainChar(c: char)
  {
    IsAsciiLetter(c) || IsDigit(c) || c == '.' || c == '-'
  }

  predicate AllLocal(s: string)
  {
    forall k :: 0 <= k < |s| ==> IsLocalChar(s[k])
  }

  predicate AllDomain(s: string)
  {
    forall k :: 0 <= k < |s| ==> IsDomainChar(s[k])
  }

  predicate AllLetters(s: string)
  {
    forall k :: 0 <= k < |s| ==> IsAsciiLetter(s[k])
  }

  /**
   The regular expression read as a split of `s`: a non-empty local part,
   `@` at `at`, a non-empty domain prefix, `.` at `dot`, and at least two
   letters to the end.
   */
  predicate EmailSplit(s: string, at: int, dot: int)
  {
    && 0 < at && at + 1 < dot && dot + 3 <= |s|
    && s[at] == '@' && s[dot] == '.'
    && AllLocal(s[..at])
    && AllDomain(s[at + 1..dot])
    && AllLetters(s[dot + 1..])
  }

  ghost predicate MatchesEmailPattern(s: string)
  {
    exists at, dot :: EmailSplit(s, at, dot)
  }

  /** The first position of `c` in `s`. */
  function IndexOf(s: string, c: char): (r: Option<nat>)
    ensures r.Some? ==> r.value < |s| && s[r.value] == c && forall k :: 0 <= k < r.value ==> s[k] != c
    ensures r.None? ==> forall k :: 0 <= k < |s| ==> s[k] != c
  {
    if |s| == 0 then None
    else if s[0] == c then Some(0)
    else match IndexOf(s[1..], c)
      case None => None
      case Some(i) => Some(i + 1)
  }

  /** The last position of `c` in `s`. */
  function LastIndexOf(s: string, c: char): (r: Option<nat>)
    ensures r.Some? ==> r.value < |s| && s[r.value] == c && forall k :: r.value < k < |s| ==> s[k] != c
    ensures r.None? ==> forall k :: 0 <= k < |s| ==> s[k] != c
  {
    if |s| == 0 then None
    else if s[|s| - 1] == c then Some(|s| - 1)
    else LastIndexOf(s[..|s| - 1], c)
  }

  /**
   The email test, computed: the local part ends at the first `@` (no later
   character may be an `@`), and the top-level domain starts after the last `.`.
   */
  function ValidEmail(s: string): bool
  {
    match IndexOf(s, '@')
    case None => false
    case Some(at) =>
      var domain := s[at + 1..];
      match LastIndexOf(domain, '.')
      case None => false
      case Some(dot) =>
        && at > 0 && AllLocal(s[..at])
        && dot > 0 && AllDomain(domain[..dot])
        && |domain| - dot - 1 >= 2 && AllLetters(domain[dot + 1..])
  }

  /** The computed test accepts exactly the strings the regular expression matches. */
  lemma ValidEmailIffPattern(s: string)
    ensures ValidEmail(s) <==> MatchesEmailPattern(s)
  {
    if ValidEmail(s) {
      var at := IndexOf(s, '@').value;
      var domain := s[at + 1..];
      var dot := LastIndexOf(domain, '.').value;
      assert s[at + 1..at + 1 + dot] == domain[..dot];
      assert s[at + 1 + dot + 1..] == domain[dot + 1..];
      assert EmailSplit(s, at, at + 1 + dot);
    }
    if MatchesEmailPattern(s) {
      var at, dot :| EmailSplit(s, at, dot);
      PatternDeterminesSplit(s, at, dot);
    }
  }

  /** A matching split is the one the computed test finds. */
  lemma PatternDeterminesSplit(s: string, at: int, dot: int)
    requires EmailSplit(s, at, dot)
    ensures IndexOf(s, '@') == Some(at)
    ensures LastIndexOf(s[at + 1..], '.') == Some(dot - at - 1)
    ensures ValidEmail(s)
  {
    FirstAtAfterLocalPart(s, at);
    var domain := s[at + 1..];
    var d := dot - at - 1;
    assert domain[d + 1..] == s[dot + 1..];
    LastDotBeforeLetters(domain, d);
    assert domain[..d] == s[at + 1..dot];
  }

  /** An `@` preceded only by local-part characters is the first one. */
  lemma FirstAtAfterLocalPart(s: string, at: int)
    requires 0 <= at < |s| && s[at] == '@' && AllLocal(s[..at])
    ensures IndexOf(s, '@') == Some(at)
  {
    assert forall k :: 0 <= k < at ==> s[k] == s[..at][k] && IsLocalChar(s[..at][k]);
  }

  /** A `.` followed only by letters is the last one. */
  lemma LastDotBeforeLetters(domain: string, d: int)
    requires 0 <= d < |domain| && domain[d] == '.' && AllLetters(domain[d + 1..])
    ensures LastIndexOf(domain, '.') == Some(d)
  {
    assert forall k :: d < k < |domain| ==> domain[k] == domain[d + 1..][k - d - 1] && IsAsciiLetter(domain[d + 1..][k - d - 1]);
  }

  /** An accepted email holds exactly one `@`, preceded by a non-empty local part. */
  lemma AcceptedEmailHasOneAt(s: string)
    requires ValidEmail(s)
    ensures exists at :: 0 < at < |s| && s[at] == '@' && AllLocal(s[..at])
              && forall k :: 0 <= k < |s| && s[k] == '@' ==> k == at
  {
    var at := IndexOf(s, '@').value;
    var domain := s[at + 1..];
    var dot := LastIndexOf(domain, '.').value;
    forall k | at < k < |s|
      ensures s[k] != '@'
    {
      var m := k - at - 1;
      assert s[k] == domain[m];
      if m < dot {
        assert IsDomainChar(domain[..dot][m]);
      } else if m > dot {
        assert IsAsciiLetter(domain[dot + 1..][m - dot - 1]);
      }
    }
  }

  /** The gate of every sign-in path: a matching email and a password of 7 or more characters. */
  predicate ValidCredentials(email: string, password: string)
    ensures ValidCredentials(email, password) <==> MatchesEmailPattern(email) && |password| >= 7
  {
    ValidEmailIffPattern(email);
    ValidEmail(email) && |password| >= 7
  }

  lemma ShortPasswordRejected(email: string, password: string)
    requires |password| < 7
    ensures !ValidCredentials(email, password)
  {
  }

  /** A plain address with a tagged local part is accepted. */
  lemma TaggedAddressAccepted()
    ensures ValidEmail("user.name+tag@example.co")
  {
    var s := "user.name+tag@example.co";
    assert AllLocal(s[..13]) by {
      forall k | 0 <= k < 13 ensures IsLocalChar(s[..13][k]) { assert s[..13][k] == s[k]; }
    }
    assert AllDomain(s[14..21]) by {
      forall k | 0 <= k < 7 ensures IsDomainChar(s[14..21][k]) { assert s[14..21][k] == s[14 + k]; }
    }
    assert AllLetters(s[22..]) by {
      forall k | 0 <= k < 2 ensures IsAsciiLetter(s[22..][k]) { assert s[22..][k] == s[22 + k]; }
    }
    PatternDeterminesSplit(s, 13, 21);
  }

  /** An empty local part is rejected. */
  lemma EmptyLocalPartRejected(domain: string)
    ensures !ValidEmail("@" + domain)
  {
    var s := "@" + domain;
    assert s[0] == '@';
  }

  /** A second `@` is rejected, wherever it is. */
  lemma TwoAtSignsRejected(s: string, i: int, j: int)
    requires 0 <= i < j < |s| && s[i] == '@' && s[j] == '@'
    ensures !ValidEmail(s)
  {
    if ValidEmail(s) {
      AcceptedEmailHasOneAt(s);
    }
  }

  /** A one-letter top-level domain is rejected. */
  lemma ShortTopLevelDomainRejected(local: string, name: string, c: char)
    requires forall k :: 0 <= k < |name| ==> name[k] != '.'
    ensures !ValidEmail(local + "@" + name + "." + [c])
  {
    var s := local + "@" + name + "." + [c];
    assert s[|local|] == '@';
    var at := IndexOf(s, '@').value;
    assert at <= |local|;
    var domain := s[at + 1..];
    assert s[|s| - 2] == '.';
    assert domain[|domain| - 2] == '.';
    var dot := LastIndexOf(domain, '.');
    assert dot.Some? && dot.value >= |domain| - 2;
  }
}
