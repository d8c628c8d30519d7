/** The sign-in / sign-up page: a two-mode form, the mode toggle, the
    submit handler and the redirect of a signed-in visitor. The session
    provider's `signIn` and `signUp` are inputs: the model receives what
    they returned and computes the form's next state and the toast. */
module AuthPage {
  import opened Wrappers
  import opened Text
  import opened Display
  import opened Session

  datatype AuthForm = AuthForm(
    isLogin: bool,
    email: string,
    password: string,
    fullName: string,
    phoneNumber: string,
    loading: bool)

  /** The page opens in login mode, with empty fields, not loading. */
  const InitialForm := AuthForm(true, "", "", "", "", false)

  /** The "Sign Up" / "Sign In" link under the form: it flips the mode and
      touches nothing else, so typed values survive a mode change. */
  function Toggle(f: AuthForm): (r: AuthForm)
    ensures r.isLogin == !f.isLogin
    ensures r.(isLogin := f.isLogin) == f
  {
    f.(isLogin := !f.isLogin)
  }

  lemma ToggleTwice(f: AuthForm)
    ensures Toggle(Toggle(f)) == f
  {
  }

  /** What a provider call gave back: no error, an error value with its
      message, or a thrown exception. */
  datatype CallResult = CallOk | CallError(message: string) | CallThrew

  /** The provider call made, with its arguments. */
  datatype AuthCall =
    | SignInCall(email: string, password: string)
    | SignUpCall(email: string, password: string, fullName: string, phoneNumber: string)

  datatype Toast =
    | LoginFailed(description: string)
    | FullNameRequired
    | SignupFailed(description: string)
    | AccountCreated
    | SomethingWentWrong

  datatype SubmitStep = SubmitStep(form: AuthForm, call: Option<AuthCall>, toast: Option<Toast>)

  const LoginFallback := "Please check your credentials and try again."
  const SignupFallback := "Please try again with different details."

  /** `handleSubmit`. In login mode only `signIn` is called and the mode
      never changes; in signup mode a full name that is blank after
      trimming stops the submit before any call; a successful signup
      switches to login mode. `finally` clears the loading flag on every
      path, the early return included. */
  function SubmitAuth(f: AuthForm, result: CallResult): (out: SubmitStep)
    ensures !out.form.loading
    ensures out.form.(isLogin := f.isLogin, loading := f.loading) == f
    ensures f.isLogin ==> out.call == Some(SignInCall(f.email, f.password)) && out.form.isLogin
    ensures !f.isLogin && Trim(f.fullName) == [] ==> out.call == None && out.toast == Some(FullNameRequired) && !out.form.isLogin
    ensures !f.isLogin && Trim(f.fullName) != [] ==> out.call == Some(SignUpCall(f.email, f.password, f.fullName, f.phoneNumber))
    ensures out.form.isLogin <==> f.isLogin || (out.call.Some? && result == CallOk)
    ensures out.toast == None <==> f.isLogin && result == CallOk
    ensures out.call.Some? && result == CallThrew ==> out.toast == Some(SomethingWentWrong)
    ensures out.toast == Some(AccountCreated) <==> !f.isLogin && out.call.Some? && result == CallOk
    ensures f.isLogin && result.CallError? ==> out.toast == Some(LoginFailed(OrFallback(result.message, LoginFallback)))
    ensures !f.isLogin && out.call.Some? && result.CallError? ==>
              out.toast == Some(SignupFailed(OrFallback(result.message, SignupFallback)))
  {
    var done := f.(loading := false);
    if f.isLogin then
      var toast := match result
        case CallOk => None
        case CallError(m) => Some(LoginFailed(OrFallback(m, LoginFallback)))
        case CallThrew => Some(SomethingWentWrong);
      SubmitStep(done, Some(SignInCall(f.email, f.password)), toast)
    else if Trim(f.fullName) == [] then
      SubmitStep(done, None, Some(FullNameRequired))
    else
      var call := Some(SignUpCall(f.email, f.password, f.fullName, f.phoneNumber));
      match result
      case CallOk => SubmitStep(done.(isLogin := true), call, Some(AccountCreated))
      case CallError(m) => SubmitStep(done, call, Some(SignupFailed(OrFallback(m, SignupFallback))))
      case CallThrew => SubmitStep(done, call, Some(SomethingWentWrong))
  }

  /** A signup is attempted exactly when the full name has a character
      that trimming keeps: a name of spaces, tabs or line breaks alone is
      refused before any call. */
  lemma SignupNeedsVisibleName(f: AuthForm, result: CallResult)
    requires !f.isLogin
    ensures SubmitAuth(f, result).call.Some? <==> !IsBlank(f.fullName)
  {
  }

  /** After a successful signup the next submit signs in with the same
      credentials. */
  lemma SignupThenSignIn(f: AuthForm, result: CallResult)
    requires !f.isLogin && !IsBlank(f.fullName)
    ensures SubmitAuth(SubmitAuth(f, CallOk).form, result).call == Some(SignInCall(f.email, f.password))
  {
  }

  /** The mount effect: a present user sends the browser to the home page. */
  function RedirectTarget(user: Option<User>): (r: Option<string>)
    ensures r.Some? <==> user.Some?
    ensures r.Some? ==> r.value == "/"
  {
    if user.Some? then Some("/") else None
  }

  /** The visible parts of the form. */
  datatype View = View(nameField: bool, phoneField: bool, buttonDisabled: bool, buttonLabel: string)

  function ViewOf(f: AuthForm): (v: View)
    ensures v.nameField <==> !f.isLogin
    ensures v.phoneField <==> !f.isLogin
    ensures v.buttonDisabled <==> f.loading
    ensures v.buttonLabel == "Please wait..." <==> f.loading
    ensures !f.loading ==> v.buttonLabel == (if f.isLogin then "Sign In" else "Create Account")
  {
    View(!f.isLogin, !f.isLogin, f.loading,
         if f.loading then "Please wait..." else if f.isLogin then "Sign In" else "Create Account")
  }
}
