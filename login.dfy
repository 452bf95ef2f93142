/**
 * The login page (`LoginPage.tsx`): the e-mail check, the submit sequence
 * (e-mail first, then the password, then the login callback) and the
 * clearing of the e-mail error while typing.
 */
module Login {
  import opened Text

  /** `[^\s@]`: neither white space nor `@`. */
  predicate PlainChar(c: char)
  {
    !IsWhitespace(c) && c != '@'
  }

  /** `[^\s@]+` matches the whole of `t`. */
  predicate PlainRun(t: string)
  {
    t != [] && forall k :: 0 <= k < |t| ==> PlainChar(t[k])
  }

  /**
   * The pattern `^[^\s@]+@[^\s@]+\.[^\s@]+$`, read as a decomposition: a
   * plain run, `@`, a plain run, `.`, a plain run.
   */
  predicate MatchesEmailPattern(s: string)
  {
    exists i, j :: 0 <= i < j < |s| && s[i] == '@' && s[j] == '.' &&
      PlainRun(s[..i]) && PlainRun(s[i + 1..j]) && PlainRun(s[j + 1..])
  }

  /** The index of the first `c` in `s`, or `|s|` when there is none. */
  function IndexOf(s: string, c: char): (r: nat)
    ensures r <= |s|
    ensures r < |s| ==> s[r] == c
    ensures c !in s[..r]
    decreases |s|
  {
    if s == [] then 0
    else if s[0] == c then 0
    else
      assert s[..1 + IndexOf(s[1..], c)] == [s[0]] + s[1..][..IndexOf(s[1..], c)];
      1 + IndexOf(s[1..], c)
  }

  /** No character of `s` is white space. */
  predicate NoWhitespace(s: string)
  {
    forall k :: 0 <= k < |s| ==> !IsWhitespace(s[k])
  }

  /** A domain holds a `.` with text on both sides of it. */
  predicate DottedDomain(d: string)
  {
    |d| >= 3 && '.' in d[1..|d| - 1]
  }

  /**
   * The direct reading of the pattern: no white space, exactly one `@` with
   * text before it, and after it a domain with an inner `.`.
   */
  predicate EmailShape(s: string)
  {
    var at := IndexOf(s, '@');
    NoWhitespace(s) && 0 < at < |s| && '@' !in s[at + 1..] && DottedDomain(s[at + 1..])
  }

  /** Helper: a position of `s[lo..hi]` seen from `s`. */
  lemma PlainPiece(s: string, lo: int, hi: int)
    requires 0 <= lo <= hi <= |s|
    requires forall k :: lo <= k < hi ==> PlainChar(s[k])
    ensures forall k :: 0 <= k < |s[lo..hi]| ==> PlainChar(s[lo..hi][k])
  {
  }

  /** The direct reading gives the pattern's decomposition. */
  lemma ShapeGivesPattern(s: string)
    requires EmailShape(s)
    ensures MatchesEmailPattern(s)
  {
    var at := IndexOf(s, '@');
    var d := s[at + 1..];
    var k :| 1 <= k < |d| - 1 && d[k] == '.';
    var j := at + 1 + k;
    assert s[j] == '.';
    forall m | 0 <= m < |s| && m != at
      ensures PlainChar(s[m])
    {
      if m < at {
        assert s[..at][m] == s[m];
      } else {
        assert d[m - at - 1] == s[m];
      }
    }
    PlainPiece(s, 0, at);
    PlainPiece(s, at + 1, j);
    PlainPiece(s, j + 1, |s|);
  }

  /** Outside its `@` and its `.`, a decomposed address holds only plain characters. */
  lemma PatternPlain(s: string, i: int, j: int)
    requires 0 <= i < j < |s|
    requires PlainRun(s[..i]) && PlainRun(s[i + 1..j]) && PlainRun(s[j + 1..])
    ensures forall m :: 0 <= m < |s| && m != i && m != j ==> PlainChar(s[m])
  {
    forall m | 0 <= m < |s| && m != i && m != j
      ensures PlainChar(s[m])
    {
      if m < i {
        assert s[..i][m] == s[m];
      } else if m < j {
        assert s[i + 1..j][m - i - 1] == s[m];
      } else {
        assert s[j + 1..][m - j - 1] == s[m];
      }
    }
  }

  /** Helper: with plain characters around them, the `@` is the first one and the domain is dotted. */
  lemma PlainAroundAtAndDot(s: string, i: int, j: int)
    requires 0 < i && i + 1 < j && j + 1 < |s| && s[i] == '@' && s[j] == '.'
    requires forall m :: 0 <= m < |s| && m != i && m != j ==> PlainChar(s[m])
    ensures IndexOf(s, '@') == i
    ensures '@' !in s[i + 1..] && DottedDomain(s[i + 1..])
  {
    var at := IndexOf(s, '@');
    var d := s[i + 1..];
    assert d[1..|d| - 1][j - i - 2] == '.';
    forall m | 0 <= m < |d|
      ensures d[m] != '@'
    {
      assert d[m] == s[i + 1 + m];
    }
  }

  /** The pattern's decomposition passes the direct reading. */
  lemma PatternGivesShape(s: string)
    requires MatchesEmailPattern(s)
    ensures EmailShape(s)
  {
    var i, j :| 0 <= i < j < |s| && s[i] == '@' && s[j] == '.' &&
      PlainRun(s[..i]) && PlainRun(s[i + 1..j]) && PlainRun(s[j + 1..]);
    PatternPlain(s, i, j);
    PlainAroundAtAndDot(s, i, j);
  }

  /** The direct reading agrees with the pattern, in both directions. */
  lemma EmailShapeIsPattern(s: string)
    ensures EmailShape(s) <==> MatchesEmailPattern(s)
  {
    if EmailShape(s) {
      ShapeGivesPattern(s);
    }
    if MatchesEmailPattern(s) {
      PatternGivesShape(s);
    }
  }

  /** The three answers of `validateEmail`, as the keys of their messages; `Valid` is the empty string. */
  datatype EmailCheck = EmailRequired | InvalidEmail | ValidEmail

  /** `validateEmail`. */
  function ValidateEmail(email: string): (r: EmailCheck)
    ensures r == EmailRequired <==> email == ""
    ensures r == ValidEmail <==> email != "" && MatchesEmailPattern(email)
  {
    EmailShapeIsPattern(email);
    if email == "" then EmailRequired
    else if !EmailShape(email) then InvalidEmail
    else ValidEmail
  }

  /** The message key of a failed check. */
  function MessageKey(c: EmailCheck): string
  {
    match c
    case EmailRequired => "loginPage.alert.emailRequired"
    case InvalidEmail => "loginPage.alert.invalidEmail"
    case ValidEmail => ""
  }

  /** A short address passes. */
  lemma ShortAddressAccepted()
    ensures ValidateEmail("a@b.c") == ValidEmail
  {
    var s := "a@b.c";
    assert s[1] == '@' && s[3] == '.';
    assert s[..1] == "a" && s[2..3] == "b" && s[4..] == "c";
  }

  /** An address with two `@` is refused. */
  lemma TwoAtsRefused(s: string, m: int, n: int)
    requires 0 <= m < n < |s| && s[m] == '@' && s[n] == '@'
    ensures ValidateEmail(s) == InvalidEmail
  {
    var at := IndexOf(s, '@');
    assert s[at + 1..][n - at - 1] == '@';
  }

  /** An address holding white space anywhere is refused. */
  lemma WhitespaceRefused(s: string, k: int)
    requires 0 <= k < |s| && IsWhitespace(s[k])
    ensures ValidateEmail(s) == InvalidEmail
  {
  }

  /** What a submit leads to. */
  datatype SubmitOutcome = EmailRefused(check: EmailCheck) | PasswordMissing | LoggedIn

  /** The login form's state; `logins` counts the calls of the `onLogin` callback. */
  class LoginForm {
    var email: string
    var password: string
    var emailError: string
    var logins: nat

    constructor()
      ensures email == "" && password == "" && emailError == "" && logins == 0
    {
      email := "";
      password := "";
      emailError := "";
      logins := 0;
    }

    /** Typing in the e-mail field: the new value, and any shown e-mail error cleared. */
    method HandleEmailChange(value: string)
      modifies this
      ensures email == value && emailError == ""
      ensures password == old(password) && logins == old(logins)
    {
      email := value;
      if emailError != "" {
        emailError := "";
      }
    }

    method HandlePasswordChange(value: string)
      modifies this
      ensures password == value
      ensures email == old(email) && emailError == old(emailError) && logins == old(logins)
    {
      password := value;
    }

    /**
     * `handleSubmit`: a refused e-mail shows its error and stops; then a
     * missing password stops; otherwise `onLogin` is called once.
     */
    method HandleSubmit() returns (outcome: SubmitOutcome)
      modifies this
      ensures ValidateEmail(email) != ValidEmail <==> outcome.EmailRefused?
      ensures outcome.EmailRefused? ==>
        outcome.check == ValidateEmail(email) && emailError == MessageKey(outcome.check)
      ensures !outcome.EmailRefused? ==> emailError == old(emailError)
      ensures outcome == PasswordMissing <==> ValidateEmail(email) == ValidEmail && password == ""
      ensures outcome == LoggedIn <==> ValidateEmail(email) == ValidEmail && password != ""
      ensures logins == old(logins) + (if outcome == LoggedIn then 1 else 0)
      ensures email == old(email) && password == old(password)
    {
      var check := ValidateEmail(email);
      if check != ValidEmail {
        emailError := MessageKey(check);
        return EmailRefused(check);
      }
      if password == "" {
        return PasswordMissing;
      }
      logins := logins + 1;
      return LoggedIn;
    }
  }
}
