/**
 * The hand-written field checks shared by the login and register screens of
 * `components/ui`: the `\S+@\S+\.\S+` e-mail test, the two-stage e-mail and
 * password rules, and the user name taken from an e-mail address.
 */
module FormChecks {
  import opened Wrappers
  import opened Text

  /** s[i..j] is a non-empty run of non-white-space characters: what `\S+` matches there. */
  predicate NonBlankRun(s: string, i: int, j: int)
  {
    0 <= i < j <= |s| && forall k | i <= k < j :: !IsWhitespace(s[k])
  }

  /** `\S+@\S+\.\S+` matches s[i..j], with the `@` at `at` and the `.` at `dot`. */
  predicate EmailMatchAt(s: string, i: int, at: int, dot: int, j: int)
  {
    NonBlankRun(s, i, at) && at < |s| && s[at] == '@'
    && NonBlankRun(s, at + 1, dot) && dot < |s| && s[dot] == '.'
    && NonBlankRun(s, dot + 1, j)
  }

  /** `/\S+@\S+\.\S+/.test(s)`: the pattern is not anchored, so any substring may match. */
  predicate MatchesEmailPattern(s: string)
  {
    exists i, at, dot, j | 0 <= i < |s| && 0 <= at < |s| && 0 <= dot < |s| && 0 <= j <= |s| ::
      EmailMatchAt(s, i, at, dot, j)
  }

  /** The shortest match: one character each side of the `@`, and one after the `.`. */
  lemma ShortestEmailMatch(s: string)
    requires MatchesEmailPattern(s)
    ensures |s| >= 5 && '@' in s && '.' in s
  {
    var i, at, dot, j :| 0 <= i < |s| && 0 <= at < |s| && 0 <= dot < |s| && 0 <= j <= |s|
      && EmailMatchAt(s, i, at, dot, j);
    assert s[at] == '@' && s[dot] == '.';
  }

  /** The e-mail rule: required first, then the pattern. */
  function EmailError(email: string): (r: Option<string>)
    ensures r.None? <==> MatchesEmailPattern(email)
    ensures r.Some? ==> r.value == (if email == "" then "Email is required" else "Please enter a valid email")
  {
    if email == "" then Some("Email is required")
    else if !MatchesEmailPattern(email) then Some("Please enter a valid email")
    else None
  }

  const MinPasswordLength: nat := 6

  /** The password rule: required first, then at least six characters. */
  function PasswordError(password: string): (r: Option<string>)
    ensures r.None? <==> Utf16Length(password) >= MinPasswordLength
    ensures r.Some? ==> r.value == (if password == "" then "Password is required"
                                    else "Password must be at least 6 characters")
  {
    if password == "" then Some("Password is required")
    else if Utf16Length(password) < MinPasswordLength then Some("Password must be at least 6 characters")
    else None
  }

  /**
   * Length is counted in UTF-16 code units: three characters beyond U+FFFF
   * make a six-unit password, which passes.
   */
  lemma AstralPasswordLength()
    ensures PasswordError("\U{1F600}\U{1F600}\U{1F600}") == None
    ensures PasswordError("\U{1F600}\U{1F600}") == Some("Password must be at least 6 characters")
  {
  }

  /** `email.split('@')[0]`: everything before the first `@`, or the whole address when it has none. */
  function UsernameOf(email: string): (r: string)
    ensures r <= email
    ensures '@' !in r
    ensures |r| < |email| <==> '@' in email
    ensures |r| < |email| ==> email[|r|] == '@'
  {
    if email == [] then []
    else if email[0] == '@' then []
    else [email[0]] + UsernameOf(email[1..])
  }

  /** An address can pass the pattern and still give an empty user name. */
  lemma EmptyUsernamePassesPattern()
    ensures MatchesEmailPattern("@a@b.c") && UsernameOf("@a@b.c") == ""
  {
    assert EmailMatchAt("@a@b.c", 1, 2, 4, 6);
  }
}
