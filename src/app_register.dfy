/**
 * `app/register.tsx`: the `registerSchema` rules and what `onSubmit` does
 * with data that passes them. The verdict of yup's own `.email()` test and
 * the outcome of the register request are parameters.
 */
module AppRegister {
  import opened Wrappers
  import opened Text
  import opened YupRules

  const FirstNameRules: seq<Rule> :=
    [Required("First name is required"), Min(2, "First name must be at least 2 characters")]
  const LastNameRules: seq<Rule> :=
    [Required("Last name is required"), Min(2, "Last name must be at least 2 characters")]
  const UsernameRules: seq<Rule> :=
    [Required("Username is required"), Min(3, "Username must be at least 3 characters"),
     WordCharacters("Username can only contain letters, numbers, and underscores")]
  const EmailRules: seq<Rule> :=
    [Required("Email is required"), EmailFormat("Please enter a valid email")]
  const PasswordRules: seq<Rule> :=
    [Required("Password is required"), Min(6, "Password must be at least 6 characters")]
  /** `.required(...).oneOf([yup.ref('password')], ...)`: yup runs the `oneOf` whitelist first. */
  const ConfirmPasswordRules: seq<Rule> :=
    [EqualsPassword("Passwords must match"), Required("Please confirm your password")]

  datatype RegisterFormData = RegisterFormData(
    firstName: string, lastName: string, username: string,
    email: string, password: string, confirmPassword: string)

  /** The form's `errors`: at most one message per field. */
  datatype RegisterFormErrors = RegisterFormErrors(
    firstName: Option<string>, lastName: Option<string>, username: Option<string>,
    email: Option<string>, password: Option<string>, confirmPassword: Option<string>)
  {
    predicate IsEmpty()
    {
      firstName.None? && lastName.None? && username.None?
      && email.None? && password.None? && confirmPassword.None?
    }
  }

  /** `^[a-zA-Z0-9_]+$`. */
  predicate IsWordString(s: string)
  {
    s != [] && forall k | 0 <= k < |s| :: IsWordCharacter(s[k])
  }

  /** `yupResolver(registerSchema)` applied to the form values. */
  function Validate(data: RegisterFormData, emailAccepted: bool): (r: RegisterFormErrors)
    ensures r.firstName.None? <==> Utf16Length(data.firstName) >= 2
    ensures r.lastName.None? <==> Utf16Length(data.lastName) >= 2
    ensures r.username.None? <==> Utf16Length(data.username) >= 3 && IsWordString(data.username)
    ensures r.email.None? <==> data.email != "" && emailAccepted
    ensures r.password.None? <==> Utf16Length(data.password) >= 6
    ensures r.confirmPassword.None? <==> data.confirmPassword != "" && data.confirmPassword == data.password
    ensures r.IsEmpty() <==>
      Utf16Length(data.firstName) >= 2 && Utf16Length(data.lastName) >= 2 && Utf16Length(data.username) >= 3 && IsWordString(data.username)
      && data.email != "" && emailAccepted && Utf16Length(data.password) >= 6 && data.confirmPassword == data.password
  {
    var context := Context(data.password, emailAccepted);
    FirstFailureOfTwo(FirstNameRules[0], FirstNameRules[1], data.firstName, context);
    FirstFailureOfTwo(LastNameRules[0], LastNameRules[1], data.lastName, context);
    FirstFailureOfThree(UsernameRules[0], UsernameRules[1], UsernameRules[2], data.username, context);
    FirstFailureOfTwo(EmailRules[0], EmailRules[1], data.email, context);
    FirstFailureOfTwo(PasswordRules[0], PasswordRules[1], data.password, context);
    FirstFailureOfTwo(ConfirmPasswordRules[0], ConfirmPasswordRules[1], data.confirmPassword, context);
    RegisterFormErrors(
      FirstFailure(FirstNameRules, data.firstName, context),
      FirstFailure(LastNameRules, data.lastName, context),
      FirstFailure(UsernameRules, data.username, context),
      FirstFailure(EmailRules, data.email, context),
      FirstFailure(PasswordRules, data.password, context),
      FirstFailure(ConfirmPasswordRules, data.confirmPassword, context))
  }

  /**
   * The confirmation is compared with the password before it is required: an
   * empty confirmation of a set password is a mismatch, and "required" is
   * shown only when both are empty.
   */
  lemma ConfirmMessages(emailAccepted: bool)
    ensures Validate(RegisterFormData("", "", "", "", "abcdef", ""), emailAccepted).confirmPassword
      == Some("Passwords must match")
    ensures Validate(RegisterFormData("", "", "", "", "", ""), emailAccepted).confirmPassword
      == Some("Please confirm your password")
  {
    FirstFailureOfTwo(ConfirmPasswordRules[0], ConfirmPasswordRules[1], "", Context("", emailAccepted));
  }

  /** The user name rules report length before the character class. */
  lemma UsernameMessages(emailAccepted: bool)
    ensures Validate(RegisterFormData("Ann", "Lee", "a b", "", "", ""), emailAccepted).username
      == Some("Username can only contain letters, numbers, and underscores")
    ensures Validate(RegisterFormData("Ann", "Lee", "a!", "", "", ""), emailAccepted).username
      == Some("Username must be at least 3 characters")
  {
    var context := Context("", emailAccepted);
    FirstFailureOfThree(UsernameRules[0], UsernameRules[1], UsernameRules[2], "a b", context);
    assert !IsWordCharacter("a b"[1]);
    FirstFailureOfThree(UsernameRules[0], UsernameRules[1], UsernameRules[2], "a!", context);
  }

  /** The body of the `register` request: the form values without the confirmation. */
  datatype RegisterPayload = RegisterPayload(
    firstName: string, lastName: string, username: string, email: string, password: string)

  function PayloadOf(data: RegisterFormData): (p: RegisterPayload)
    ensures p.firstName == data.firstName && p.lastName == data.lastName && p.username == data.username
    ensures p.email == data.email && p.password == data.password
  {
    RegisterPayload(data.firstName, data.lastName, data.username, data.email, data.password)
  }

  /** What submitting the form does, in order. */
  datatype Effect = ClearAuthError | DispatchRegister(payload: RegisterPayload) | ReplaceRoute(path: string)

  const TabsRoute := "/(tabs)"

  /** `handleSubmit(onSubmit)`: `onSubmit` runs only on valid data, and navigates only when registration is fulfilled. */
  function Submit(data: RegisterFormData, emailAccepted: bool, registerFulfilled: bool): (effects: seq<Effect>)
    ensures effects == [] <==> !Validate(data, emailAccepted).IsEmpty()
    ensures effects != [] ==>
      |effects| >= 2 && effects[0] == ClearAuthError && effects[1] == DispatchRegister(PayloadOf(data))
    ensures ReplaceRoute(TabsRoute) in effects <==> Validate(data, emailAccepted).IsEmpty() && registerFulfilled
    ensures forall k | 0 <= k < |effects| && effects[k].ReplaceRoute? :: k == 2 && effects[0] == ClearAuthError
  {
    if !Validate(data, emailAccepted).IsEmpty() then []
    else
      var navigation := if registerFulfilled then [ReplaceRoute(TabsRoute)] else [];
      [ClearAuthError, DispatchRegister(PayloadOf(data))] + navigation
  }
}
