/**
 * `app/login.tsx`: the `loginSchema` rules and what `onSubmit` does with
 * data that passes them. The outcome of the login request is a parameter.
 */
module AppLogin {
  import opened Wrappers
  import opened Text
  import opened YupRules

  const UsernameRules: seq<Rule> :=
    [Required("Username is required"), Min(3, "Username must be at least 3 characters")]
  const PasswordRules: seq<Rule> :=
    [Required("Password is required"), Min(4, "Password must be at least 4 characters")]

  datatype LoginFormData = LoginFormData(username: string, password: string)

  /** The form's `errors`: at most one message per field. */
  datatype LoginFormErrors = LoginFormErrors(username: Option<string>, password: Option<string>)
  {
    predicate IsEmpty()
    {
      username.None? && password.None?
    }
  }

  /** `yupResolver(loginSchema)` applied to the form values. */
  function Validate(data: LoginFormData): (r: LoginFormErrors)
    ensures r.username.None? <==> Utf16Length(data.username) >= 3
    ensures r.password.None? <==> Utf16Length(data.password) >= 4
    ensures r.IsEmpty() <==> Utf16Length(data.username) >= 3 && Utf16Length(data.password) >= 4
    ensures data.username == "" ==> r.username == Some("Username is required")
    ensures 0 < Utf16Length(data.username) < 3 ==> r.username == Some("Username must be at least 3 characters")
    ensures data.password == "" ==> r.password == Some("Password is required")
    ensures 0 < Utf16Length(data.password) < 4 ==> r.password == Some("Password must be at least 4 characters")
  {
    var context := Context(data.password, false);
    FirstFailureOfTwo(UsernameRules[0], UsernameRules[1], data.username, context);
    FirstFailureOfTwo(PasswordRules[0], PasswordRules[1], data.password, context);
    LoginFormErrors(FirstFailure(UsernameRules, data.username, context),
                    FirstFailure(PasswordRules, data.password, context))
  }

  /** The body of the `login` request. */
  datatype LoginPayload = LoginPayload(username: string, password: string)

  /** What submitting the form does, in order. */
  datatype Effect = ClearAuthError | DispatchLogin(payload: LoginPayload) | ReplaceRoute(path: string)

  const TabsRoute := "/(tabs)"

  /** `handleSubmit(onSubmit)`: `onSubmit` runs only on valid data, and navigates only when login is fulfilled. */
  function Submit(data: LoginFormData, loginFulfilled: bool): (effects: seq<Effect>)
    ensures effects == [] <==> !Validate(data).IsEmpty()
    ensures effects != [] ==>
      |effects| >= 2 && effects[0] == ClearAuthError && effects[1] == DispatchLogin(LoginPayload(data.username, data.password))
    ensures ReplaceRoute(TabsRoute) in effects <==> Validate(data).IsEmpty() && loginFulfilled
    ensures forall k | 0 <= k < |effects| && effects[k].ReplaceRoute? :: k == 2 && effects[0] == ClearAuthError
  {
    if !Validate(data).IsEmpty() then []
    else
      var navigation := if loginFulfilled then [ReplaceRoute(TabsRoute)] else [];
      [ClearAuthError, DispatchLogin(LoginPayload(data.username, data.password))] + navigation
  }
}
