/** The sign-in and sign-up forms' client-side checks: required fields, the
    e-mail pattern `\S+@\S+\.\S+` (unanchored, as `RegExp.prototype.test`
    applies it), the minimum password length, and password confirmation.
    The first failing check decides the message. */
module Validation {
  import opened JsValues

  const FillAllFields := "Please fill in all fields"
  const InvalidEmail := "Please enter a valid email address"
  const PasswordTooShort := "Password must be at least 6 characters long"
  const PasswordsDiffer := "Passwords do not match"
  const MinPasswordLength := 6

  /** The characters `\s` matches in a JavaScript regular expression:
      the ASCII controls TAB, LF, VT, FF, CR, the space, and the Unicode
      space separators, line and paragraph separators and the BOM. */
  predicate IsSpace(c: char)
  {
    c == '\t' || c == '\n' || c == '\U{B}' || c == '\U{C}' || c == '\r' || c == ' ' ||
    c == '\U{A0}' || c == '\U{1680}' || ('\U{2000}' <= c <= '\U{200A}') ||
    c == '\U{2028}' || c == '\U{2029}' || c == '\U{202F}' || c == '\U{205F}' ||
    c == '\U{3000}' || c == '\U{FEFF}'
  }

  /** `\S` */
  predicate NonSpace(c: char)
  {
    !IsSpace(c)
  }

  /** `t` as a whole matches `\S+@\S+\.\S+` with its '@' at `a` and its
      '.' at `d`: a non-empty run of non-space characters, '@', a non-empty
      run, '.', and a non-empty run to the end. */
  predicate SplitsAt(t: string, a: int, d: int)
  {
    0 < a && a + 1 < d && d + 1 < |t| &&
    (forall k :: 0 <= k < a ==> NonSpace(t[k])) && t[a] == '@' &&
    (forall k :: a < k < d ==> NonSpace(t[k])) && t[d] == '.' &&
    (forall k :: d < k < |t| ==> NonSpace(t[k]))
  }

  /** `t` as a whole matches `\S+@\S+\.\S+`. */
  ghost predicate FullMatch(t: string)
  {
    exists a, d :: SplitsAt(t, a, d)
  }

  /** `/\S+@\S+\.\S+/.test(s)`: some substring of `s` matches. */
  ghost predicate PatternTest(s: string)
  {
    exists i, j :: 0 <= i <= j <= |s| && FullMatch(s[i..j])
  }

  /** The '@' at `a` and the '.' at `d` of `s` can anchor a match: one
      non-space character before '@', non-space characters between them,
      and one non-space character after '.'. */
  predicate Anchors(s: string, a: int, d: int)
  {
    0 < a && a + 1 < d && d + 1 < |s| &&
    NonSpace(s[a - 1]) && s[a] == '@' &&
    (forall k :: a < k < d ==> NonSpace(s[k])) &&
    s[d] == '.' && NonSpace(s[d + 1])
  }

  lemma AnchorsGiveMatch(s: string, a: int, d: int)
    requires Anchors(s, a, d)
    ensures PatternTest(s)
  {
    var t := s[a - 1..d + 2];
    assert forall k :: 0 <= k < |t| ==> t[k] == s[a - 1 + k];
    assert SplitsAt(t, 1, d - a + 1);
    assert FullMatch(s[a - 1..d + 2]);
  }

  lemma SplitGivesAnchors(s: string, i: int, j: int, a: int, d: int)
    requires 0 <= i <= j <= |s| && SplitsAt(s[i..j], a, d)
    ensures Anchors(s, i + a, i + d)
  {
    var t := s[i..j];
    assert forall k :: 0 <= k < |t| ==> t[k] == s[i + k];
    forall k | i + a < k < i + d
      ensures NonSpace(s[k])
    {
      assert s[k] == t[k - i];
    }
  }

  lemma MatchGivesAnchors(s: string)
    requires PatternTest(s)
    ensures exists a, d :: Anchors(s, a, d)
  {
    var i, j :| 0 <= i <= j <= |s| && FullMatch(s[i..j]);
    var a, d :| SplitsAt(s[i..j], a, d);
    SplitGivesAnchors(s, i, j, a, d);
  }

  /** A match exists exactly when some '@' and '.' anchor one. */
  lemma MatchIffAnchors(s: string)
    ensures PatternTest(s) <==> exists a, d | 0 <= a < |s| && 0 <= d < |s| :: Anchors(s, a, d)
  {
    if exists a, d | 0 <= a < |s| && 0 <= d < |s| :: Anchors(s, a, d) {
      var a, d :| 0 <= a < |s| && 0 <= d < |s| && Anchors(s, a, d);
      AnchorsGiveMatch(s, a, d);
    }
    if PatternTest(s) {
      MatchGivesAnchors(s);
    }
  }

  /** The e-mail test as the forms run it, by scanning for an anchoring
      '@' and '.'. */
  function EmailLooksValid(s: string): (b: bool)
    ensures b <==> PatternTest(s)
  {
    MatchIffAnchors(s);
    exists a, d | 0 <= a < |s| && 0 <= d < |s| :: Anchors(s, a, d)
  }

  /** The sign-in form's checks, in order; `None` lets the login call go ahead. */
  function LoginError(email: string, password: string): (r: Option<string>)
    ensures r == Some(FillAllFields) <==> email == "" || password == ""
    ensures r == Some(InvalidEmail) <==> email != "" && password != "" && !PatternTest(email)
    ensures r.None? <==> email != "" && password != "" && PatternTest(email)
  {
    if email == "" || password == "" then Some(FillAllFields)
    else if !EmailLooksValid(email) then Some(InvalidEmail)
    else None
  }

  /** The sign-up form's checks, in order; `None` lets the register call go ahead. */
  function SignupError(name: string, email: string, password: string, confirm: string): (r: Option<string>)
    ensures r == Some(FillAllFields) <==> name == "" || email == "" || password == "" || confirm == ""
    ensures r == Some(InvalidEmail) <==>
              name != "" && email != "" && password != "" && confirm != "" && !PatternTest(email)
    ensures r == Some(PasswordTooShort) <==>
              name != "" && email != "" && password != "" && confirm != "" && PatternTest(email) &&
              |password| < MinPasswordLength
    ensures r == Some(PasswordsDiffer) <==>
              name != "" && email != "" && password != "" && confirm != "" && PatternTest(email) &&
              |password| >= MinPasswordLength && password != confirm
    ensures r.None? <==>
              name != "" && email != "" && PatternTest(email) &&
              |password| >= MinPasswordLength && password == confirm
  {
    if name == "" || email == "" || password == "" || confirm == "" then Some(FillAllFields)
    else if !EmailLooksValid(email) then Some(InvalidEmail)
    else if |password| < MinPasswordLength then Some(PasswordTooShort)
    else if password != confirm then Some(PasswordsDiffer)
    else None
  }

  /** An ordinary address passes. */
  lemma OrdinaryAddressPasses()
    ensures PatternTest("user@example.com")
  {
    AnchorsGiveMatch("user@example.com", 4, 12);
  }

  /** With no '.' after the '@' the address is rejected. */
  lemma NoDotAfterAtFails()
    ensures !PatternTest("a@b")
  {
    if PatternTest("a@b") {
      MatchGivesAnchors("a@b");
    }
  }

  /** The pattern is not anchored: an address surrounded by other words passes. */
  lemma UnanchoredMatchPasses()
    ensures PatternTest("x a@b.c y")
  {
    AnchorsGiveMatch("x a@b.c y", 3, 5);
  }

  /** A space right before the '@' leaves nothing for the first `\S+`. */
  lemma SpaceBeforeAtFails()
    ensures !PatternTest("a @b.c")
  {
    if PatternTest("a @b.c") {
      MatchGivesAnchors("a @b.c");
    }
  }

  /** Empty fields are reported before a malformed address. */
  lemma EmptyFieldWinsOverFormat(email: string)
    ensures LoginError(email, "") == Some(FillAllFields)
    ensures SignupError("", email, "", "x") == Some(FillAllFields)
  {
  }

  /** A short password that also differs from its confirmation is reported
      as too short: the length check runs first. */
  lemma ShortMismatchReportsLength(name: string, email: string, password: string, confirm: string)
    requires name != "" && confirm != "" && PatternTest(email)
    requires 0 < |password| < MinPasswordLength && password != confirm
    ensures SignupError(name, email, password, confirm) == Some(PasswordTooShort)
  {
  }

  /** A password of exactly six characters, confirmed, passes. */
  lemma SixCharactersPass(name: string, email: string, password: string)
    requires name != "" && PatternTest(email) && |password| == 6
    ensures SignupError(name, email, password, password).None?
  {
  }
}
