/**
 * `components/ui/RegisterScreen.tsx`: `handleRegister` checks four fields,
 * one message per field, and calls `onRegister(name)` only when none fails.
 */
module RegisterScreen {
  import opened Wrappers
  import opened Text
  import opened FormChecks

  /** The error object: one optional message per field. */
  datatype RegisterErrors = RegisterErrors(
    name: Option<string>,
    email: Option<string>,
    password: Option<string>,
    confirmPassword: Option<string>)
  {
    /** `Object.keys(errors).length == 0`. */
    predicate IsEmpty()
    {
      name.None? && email.None? && password.None? && confirmPassword.None?
    }
  }

  const NoRegisterErrors := RegisterErrors(None, None, None, None)

  function NameError(name: string): (r: Option<string>)
    ensures r.None? <==> name != ""
    ensures r.Some? ==> r.value == "Name is required"
  {
    if name == "" then Some("Name is required") else None
  }

  /** The confirmation is required, then compared with the password whatever the password's own verdict. */
  function ConfirmError(password: string, confirmPassword: string): (r: Option<string>)
    ensures r.None? <==> confirmPassword != "" && confirmPassword == password
    ensures r.Some? ==> r.value == (if confirmPassword == "" then "Please confirm your password"
                                    else "Passwords do not match")
  {
    if confirmPassword == "" then Some("Please confirm your password")
    else if password != confirmPassword then Some("Passwords do not match")
    else None
  }

  /** The messages `handleRegister` collects. */
  function CheckRegister(name: string, email: string, password: string, confirmPassword: string)
    : (r: RegisterErrors)
    ensures r.name.None? <==> name != ""
    ensures r.email.None? <==> MatchesEmailPattern(email)
    ensures r.password.None? <==> Utf16Length(password) >= MinPasswordLength
    ensures r.confirmPassword.None? <==> confirmPassword != "" && confirmPassword == password
    ensures r.IsEmpty() <==>
      name != "" && MatchesEmailPattern(email) && Utf16Length(password) >= MinPasswordLength && confirmPassword == password
  {
    RegisterErrors(NameError(name), EmailError(email), PasswordError(password),
                   ConfirmError(password, confirmPassword))
  }

  /** A mismatched confirmation is reported even when the password itself is rejected. */
  lemma MismatchReportedBesidePasswordError()
    ensures CheckRegister("Ann", "a@b.c", "abc", "abd")
      == RegisterErrors(None, None, Some("Password must be at least 6 characters"), Some("Passwords do not match"))
  {
    assert EmailMatchAt("a@b.c", 0, 1, 3, 5);
  }

  /** The form state of the register screen. */
  class RegisterForm {
    var name: string
    var email: string
    var password: string
    var confirmPassword: string
    var errors: RegisterErrors

    constructor ()
      ensures name == "" && email == "" && password == "" && confirmPassword == ""
      ensures errors == NoRegisterErrors
    {
      name, email, password, confirmPassword := "", "", "", "";
      errors := NoRegisterErrors;
    }

    /** `handleRegister`: store the messages; with none, clear them and return the name passed to `onRegister`. */
    method HandleRegister() returns (registered: Option<string>)
      modifies this`errors
      ensures errors == CheckRegister(name, email, password, confirmPassword)
      ensures registered.Some? <==> errors.IsEmpty()
      ensures registered.Some? ==> registered.value == name
    {
      var newErrors := NoRegisterErrors;
      if name == "" {
        newErrors := newErrors.(name := Some("Name is required"));
      }
      if email == "" {
        newErrors := newErrors.(email := Some("Email is required"));
      } else if !MatchesEmailPattern(email) {
        newErrors := newErrors.(email := Some("Please enter a valid email"));
      }
      if password == "" {
        newErrors := newErrors.(password := Some("Password is required"));
      } else if Utf16Length(password) < MinPasswordLength {
        newErrors := newErrors.(password := Some("Password must be at least 6 characters"));
      }
      if confirmPassword == "" {
        newErrors := newErrors.(confirmPassword := Some("Please confirm your password"));
      } else if password != confirmPassword {
        newErrors := newErrors.(confirmPassword := Some("Passwords do not match"));
      }
      if !newErrors.IsEmpty() {
        errors := newErrors;
        return None;
      }
      errors := NoRegisterErrors;
      registered := Some(name);
    }
  }
}
