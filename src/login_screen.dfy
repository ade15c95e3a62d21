/**
 * `components/ui/LoginScreen.tsx`: `handleLogin` collects at most one message
 * per field, stores them, and hands the user name to `onLogin` only when
 * there are none.
 */
module LoginScreen {
  import opened Wrappers
  import opened Text
  import opened FormChecks

  /** The `{ email?: string; password?: string }` error object: one optional message per field. */
  datatype LoginErrors = LoginErrors(email: Option<string>, password: Option<string>)
  {
    /** `Object.keys(errors).length == 0`. */
    predicate IsEmpty()
    {
      email.None? && password.None?
    }
  }

  const NoLoginErrors := LoginErrors(None, None)

  /** The messages `handleLogin` collects for the two fields. */
  function CheckLogin(email: string, password: string): (r: LoginErrors)
    ensures r.email.None? <==> MatchesEmailPattern(email)
    ensures r.password.None? <==> Utf16Length(password) >= MinPasswordLength
    ensures r.IsEmpty() <==> MatchesEmailPattern(email) && Utf16Length(password) >= MinPasswordLength
  {
    LoginErrors(EmailError(email), PasswordError(password))
  }

  /** Both fields are reported together when both fail. */
  lemma BothFieldsReported()
    ensures CheckLogin("", "abc")
      == LoginErrors(Some("Email is required"), Some("Password must be at least 6 characters"))
  {
  }

  /** The form state of the login screen. */
  class LoginForm {
    var email: string
    var password: string
    var errors: LoginErrors

    constructor ()
      ensures email == "" && password == "" && errors == NoLoginErrors
    {
      email, password, errors := "", "", NoLoginErrors;
    }

    /**
     * `handleLogin`: store the collected messages; with none, clear them and
     * return the user name passed to `onLogin`.
     */
    method HandleLogin() returns (loggedInAs: Option<string>)
      modifies this`errors
      ensures errors == CheckLogin(email, password)
      ensures loggedInAs.Some? <==> MatchesEmailPattern(email) && Utf16Length(password) >= MinPasswordLength
      ensures loggedInAs.Some? ==> loggedInAs.value == UsernameOf(email)
    {
      var newErrors := NoLoginErrors;
      if email == "" {
        newErrors := newErrors.(email := Some("Email is required"));
      } else if !MatchesEmailPattern(email) {
        newErrors := newErrors.(email := Some("Please enter a valid email"));
      }
      if password == "" {
        newErrors := newErrors.(password := Some("Password is required"));
      } else if Utf16Length(password) < MinPasswordLength {
        newErrors := newErrors.(password := Some("Password must be at least 6 characters"));
      }
      if !newErrors.IsEmpty() {
        errors := newErrors;
        return None;
      }
      errors := NoLoginErrors;
      loggedInAs := Some(UsernameOf(email));
    }
  }
}
