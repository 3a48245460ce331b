/**
 * app/login.tsx: validation of the sign-in form, and the `isLoading`
 * protocol around the three sign-in calls. Presentation and animation are
 * not modelled.
 */
module Login {
  import opened Wrappers
  import opened Navigation
  import opened EmailPattern
  import opened Loading
  import opened Session

  const FillAllFields := "Please fill in all fields"
  const InvalidEmail := "Please enter a valid email address"
  const LoginErrorTitle: Option<string> := Some("Login Error")
  const LoginFallback := "An error occurred during login"
  const GoogleErrorTitle: Option<string> := Some("Google Sign-In Error")
  const GoogleFallback := "An error occurred during Google sign-in"
  const AppleErrorTitle: Option<string> := Some("Apple Sign-In Error")
  const AppleFallback := "An error occurred during Apple sign-in"

  /**
   * The two checks of `handleLogin`, in order: both fields filled, then the
   * email pattern. None when `login` may be called.
   */
  function ValidateLogin(email: string, password: string): (problem: Option<string>)
    ensures problem == Some(FillAllFields) <==> email == "" || password == ""
    ensures problem == Some(InvalidEmail) <==> email != "" && password != "" && !MatchesEmailPattern(email)
    ensures problem == None <==> email != "" && password != "" && MatchesEmailPattern(email)
  {
    if email == "" || password == "" then Some(FillAllFields)
    else if !MatchesEmailPattern(email) then Some(InvalidEmail)
    else None
  }

  /** The alert a failed call shows: its title and `error.message || fallback`. */
  function ErrorAlert(title: Option<string>, fallback: string, result: CallResult): (alert: Option<Outcome>)
    ensures alert.None? <==> result.Resolved?
    ensures result.Rejected? ==> alert == Some(Alert(title, MessageOr(result.message, fallback)))
  {
    match result
    case Resolved => None
    case Rejected(message) => Some(Alert(title, MessageOr(message, fallback)))
  }

  /** The Sign Up link under the form. */
  function HandleSignUpLink(): (o: Outcome)
    ensures o == Push(SignupNameRoute, map[])
  {
    Push(SignupNameRoute, map[])
  }

  class LoginScreen {
    var email: string
    var password: string
    var showPassword: bool
    var isLoading: bool
    /** Every `setIsLoading` and every awaited call, in order. */
    var log: seq<Event>

    /**
     * Between handlers the flag is clear and every call so far was guarded.
     * The three buttons are `disabled={isLoading}`, so a handler is only ever
     * entered in this state.
     */
    ghost predicate Valid()
      reads this
    {
      !isLoading && WellBracketed(log)
    }

    constructor ()
      ensures Valid()
      ensures email == "" && password == "" && !showPassword && log == []
    {
      email, password, showPassword, isLoading, log := "", "", false, false, [];
    }

    method SetEmail(text: string)
      requires Valid()
      modifies this`email
      ensures Valid()
      ensures email == text
    {
      email := text;
    }

    method SetPassword(text: string)
      requires Valid()
      modifies this`password
      ensures Valid()
      ensures password == text
    {
      password := text;
    }

    method ToggleShowPassword()
      requires Valid()
      modifies this`showPassword
      ensures Valid()
      ensures showPassword == !old(showPassword)
    {
      showPassword := !showPassword;
    }

    /**
     * `handleLogin`. A validation failure alerts and returns before the flag
     * is touched. Otherwise `login` runs with the flag set, a throw becomes
     * the "Login Error" alert, and the flag is cleared either way. `result`
     * says how the awaited `login` ended; the provider's own `login` always
     * resolves, and only then is the session written.
     */
    method HandleLogin(auth: AuthProvider, result: CallResult) returns (alert: Option<Outcome>)
      requires Valid() && auth.Valid()
      modifies this`isLoading, this`log, auth
      ensures Valid() && auth.Valid()
      ensures ValidateLogin(email, password).Some? ==>
        && alert == Some(Alert(ErrorTitle, ValidateLogin(email, password).value))
        && log == old(log)
        && auth.isLoggedIn == old(auth.isLoggedIn) && auth.redirects == old(auth.redirects)
      ensures ValidateLogin(email, password).None? ==>
        && log == old(log) + Bracket(SignIn(email, password))
        && alert == ErrorAlert(LoginErrorTitle, LoginFallback, result)
        && (result.Resolved? ==>
              auth.isLoggedIn == Some(true)
              && auth.redirects == old(auth.redirects) + RedirectLog(old(auth.isLoggedIn), [AuthOp.Login]))
        && (result.Rejected? ==>
              auth.isLoggedIn == old(auth.isLoggedIn) && auth.redirects == old(auth.redirects))
    {
      if email == "" || password == "" {
        return Some(Alert(ErrorTitle, FillAllFields));
      }
      var wellFormed := MatchEmail(email);
      if !wellFormed {
        return Some(Alert(ErrorTitle, InvalidEmail));
      }
      alert := SignInWhileLoading(auth, result);
    }

    /**
     * The `try`/`catch`/`finally` of `handleLogin`: the flag is set, `login`
     * is awaited, a throw becomes the "Login Error" alert, and the flag is
     * cleared whichever way the call ended.
     */
    method SignInWhileLoading(auth: AuthProvider, result: CallResult) returns (alert: Option<Outcome>)
      requires Valid() && auth.Valid()
      modifies this`isLoading, this`log, auth
      ensures Valid() && auth.Valid()
      ensures log == old(log) + Bracket(SignIn(email, password))
      ensures alert == ErrorAlert(LoginErrorTitle, LoginFallback, result)
      ensures result.Resolved? ==>
        auth.isLoggedIn == Some(true)
        && auth.redirects == old(auth.redirects) + RedirectLog(old(auth.isLoggedIn), [AuthOp.Login])
      ensures result.Rejected? ==>
        auth.isLoggedIn == old(auth.isLoggedIn) && auth.redirects == old(auth.redirects)
    {
      var call := SignIn(email, password);
      BracketExtends(log, call);
      isLoading := true;
      log := log + [SetLoading(true), Invoke(call)];
      if result.Resolved? {
        auth.Login();
      }
      alert := ErrorAlert(LoginErrorTitle, LoginFallback, result);
      isLoading := false;
      log := log + [SetLoading(false)];
      assert log == old(log) + Bracket(call);
    }

    /**
     * `handleGoogleSignIn`: the same protocol around an opaque, fallible call.
     * Its effect on the session is not part of this model.
     */
    method HandleGoogleSignIn(result: CallResult) returns (alert: Option<Outcome>)
      requires Valid()
      modifies this`isLoading, this`log
      ensures Valid()
      ensures log == old(log) + Bracket(GoogleSignIn)
      ensures alert == ErrorAlert(GoogleErrorTitle, GoogleFallback, result)
    {
      BracketExtends(log, GoogleSignIn);
      isLoading := true;
      log := log + [SetLoading(true), Invoke(GoogleSignIn)];
      alert := ErrorAlert(GoogleErrorTitle, GoogleFallback, result);
      isLoading := false;
      log := log + [SetLoading(false)];
      assert log == old(log) + Bracket(GoogleSignIn);
    }

    /** `handleAppleSignIn`: as `handleGoogleSignIn`, with Apple's texts. */
    method HandleAppleSignIn(result: CallResult) returns (alert: Option<Outcome>)
      requires Valid()
      modifies this`isLoading, this`log
      ensures Valid()
      ensures log == old(log) + Bracket(AppleSignIn)
      ensures alert == ErrorAlert(AppleErrorTitle, AppleFallback, result)
    {
      BracketExtends(log, AppleSignIn);
      isLoading := true;
      log := log + [SetLoading(true), Invoke(AppleSignIn)];
      alert := ErrorAlert(AppleErrorTitle, AppleFallback, result);
      isLoading := false;
      log := log + [SetLoading(false)];
      assert log == old(log) + Bracket(AppleSignIn);
    }
  }

  /** `login` is reached only with both fields filled and a well-formed email. */
  lemma SignInOnlyWhenValid(email: string, password: string)
    ensures ValidateLogin(email, password).None? ==> email != "" && password != "" && MatchesEmailPattern(email)
    ensures email == "" || password == "" ==> ValidateLogin(email, password) == Some(FillAllFields)
  {
  }

  /** An empty or missing error message falls back to the fixed text. */
  lemma EmptyMessageFallsBack()
    ensures ErrorAlert(LoginErrorTitle, LoginFallback, Rejected("")) == Some(Alert(LoginErrorTitle, LoginFallback))
  {
  }
}
