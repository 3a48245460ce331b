/**
 * app/signup/password.tsx: the last signup step. Its checks run in a fixed
 * order; its four requirement indicators are shown but never enforced,
 * except the length, which the checks enforce separately.
 */
module SignupPassword {
  import opened Wrappers
  import opened Navigation
  import opened Loading
  import opened Session

  const FillBoth := "Please fill in both password fields"
  const Mismatch := "Passwords do not match"
  const TooShort := "Password must be at least 6 characters long"
  const MinLength := 6
  const SignupErrorTitle: Option<string> := Some("Signup Error")
  const SignupFallback := "An error occurred during signup"

  /** The checks of `handleSignUp`, in order. None when `signup` may be called. */
  function CheckPasswords(password: string, confirmPassword: string): (problem: Option<string>)
    ensures problem == Some(FillBoth) <==> password == "" || confirmPassword == ""
    ensures problem == Some(Mismatch) <==> password != "" && confirmPassword != "" && password != confirmPassword
    ensures problem == Some(TooShort) <==> password != "" && password == confirmPassword && |password| < MinLength
    ensures problem == None <==> password != "" && password == confirmPassword && |password| >= MinLength
  {
    if password == "" || confirmPassword == "" then Some(FillBoth)
    else if password != confirmPassword then Some(Mismatch)
    else if |password| < MinLength then Some(TooShort)
    else None
  }

  /** Two different short passwords report the mismatch, which is checked first. */
  lemma MismatchBeforeLength(password: string, confirmPassword: string)
    requires password != "" && confirmPassword != "" && password != confirmPassword
    requires |password| < MinLength && |confirmPassword| < MinLength
    ensures CheckPasswords(password, confirmPassword) == Some(Mismatch)
  {
  }

  /** Some character of `s` lies in lo..hi: the unanchored `/(?=.*[lo-hi])/`. */
  predicate ContainsInRange(s: string, lo: char, hi: char)
  {
    exists i :: 0 <= i < |s| && lo <= s[i] <= hi
  }

  /** Which of the four requirement items is ticked. */
  datatype Indicators = Indicators(length: bool, lowercase: bool, uppercase: bool, digit: bool)

  /** The icons of the requirement items. */
  function Requirements(password: string): (ticked: Indicators)
    ensures ticked.length <==> |password| >= MinLength
    ensures ticked.lowercase <==> exists i :: 0 <= i < |password| && 'a' <= password[i] <= 'z'
    ensures ticked.uppercase <==> exists i :: 0 <= i < |password| && 'A' <= password[i] <= 'Z'
    ensures ticked.digit <==> exists i :: 0 <= i < |password| && '0' <= password[i] <= '9'
  {
    Indicators(|password| >= MinLength, ContainsInRange(password, 'a', 'z'),
               ContainsInRange(password, 'A', 'Z'), ContainsInRange(password, '0', '9'))
  }

  /** The text colours of the items, which add a `password.length >= 1` guard to the last three. */
  function RequirementTexts(password: string): (coloured: Indicators)
    ensures coloured.length <==> |password| >= MinLength
    ensures coloured.lowercase <==> exists i :: 0 <= i < |password| && 'a' <= password[i] <= 'z'
    ensures coloured.uppercase <==> exists i :: 0 <= i < |password| && 'A' <= password[i] <= 'Z'
    ensures coloured.digit <==> exists i :: 0 <= i < |password| && '0' <= password[i] <= '9'
  {
    Indicators(|password| >= MinLength,
               |password| >= 1 && ContainsInRange(password, 'a', 'z'),
               |password| >= 1 && ContainsInRange(password, 'A', 'Z'),
               |password| >= 1 && ContainsInRange(password, '0', '9'))
  }

  /** The guard is redundant: the text colours always agree with the icons. */
  lemma TextGuardRedundant(password: string)
    ensures RequirementTexts(password) == Requirements(password)
  {
  }

  /**
   * Only length is enforced: once both fields hold the same non-empty text,
   * `signup` is reached exactly when the length item is ticked, whatever the
   * other three items show.
   */
  lemma OnlyLengthEnforced(password: string)
    requires password != ""
    ensures CheckPasswords(password, password).None? <==> Requirements(password).length
  {
  }

  /** A password with no letter at all, and one with no upper-case letter or digit, both pass. */
  lemma IndicatorsDoNotBlock()
    ensures CheckPasswords("123456", "123456").None?
    ensures !Requirements("123456").lowercase && !Requirements("123456").uppercase
    ensures CheckPasswords("abcdef", "abcdef").None?
    ensures !Requirements("abcdef").uppercase && !Requirements("abcdef").digit
  {
    assert "abcdef"[0] == 'a';
    assert "123456"[0] == '1';
  }

  /** The call `signup(email, password, firstName, lastName)` with the values read from the route params. */
  function SignupCall(params: Params, password: string): (call: Call)
    ensures call.CreateAccount? && call.accountPassword == password
    ensures call.accountEmail.Some? <==> "email" in params
    ensures call.firstName.Some? <==> "firstName" in params
    ensures call.lastName.Some? <==> "lastName" in params
    ensures "email" in params ==> call.accountEmail.value == params["email"]
    ensures "firstName" in params ==> call.firstName.value == params["firstName"]
    ensures "lastName" in params ==> call.lastName.value == params["lastName"]
  {
    CreateAccount(Param(params, "email"), password, Param(params, "firstName"), Param(params, "lastName"))
  }

  class PasswordScreen {
    /** The route params this screen was opened with (`useLocalSearchParams`). */
    const params: Params
    var password: string
    var confirmPassword: string
    var showPassword: bool
    var showConfirmPassword: bool
    var isLoading: bool
    /** Every `setIsLoading` and every awaited call, in order. */
    var log: seq<Event>

    /** Between handlers the flag is clear; the Create Account button is `disabled={isLoading}`. */
    ghost predicate Valid()
      reads this
    {
      !isLoading && WellBracketed(log)
    }

    constructor (params: Params)
      ensures Valid()
      ensures this.params == params && password == "" && confirmPassword == "" && log == []
      ensures !showPassword && !showConfirmPassword
    {
      this.params := params;
      password, confirmPassword := "", "";
      showPassword, showConfirmPassword, isLoading, log := false, false, false, [];
    }

    method SetPassword(text: string)
      requires Valid()
      modifies this`password
      ensures Valid()
      ensures password == text
    {
      password := text;
    }

    method SetConfirmPassword(text: string)
      requires Valid()
      modifies this`confirmPassword
      ensures Valid()
      ensures confirmPassword == text
    {
      confirmPassword := text;
    }

    method ToggleShowPassword()
      requires Valid()
      modifies this`showPassword
      ensures Valid()
      ensures showPassword == !old(showPassword)
    {
      showPassword := !showPassword;
    }

    method ToggleShowConfirmPassword()
      requires Valid()
      modifies this`showConfirmPassword
      ensures Valid()
      ensures showConfirmPassword == !old(showConfirmPassword)
    {
      showConfirmPassword := !showConfirmPassword;
    }

    /**
     * `handleSignUp`. A failed check alerts and returns before the flag is
     * touched. Otherwise `signup` runs with the flag set, a throw becomes the
     * "Signup Error" alert, and the flag is cleared either way. The
     * provider's `signup` ignores its arguments, always resolves, and then
     * the session is written.
     */
    method HandleSignUp(auth: AuthProvider, result: CallResult) returns (alert: Option<Outcome>)
      requires Valid() && auth.Valid()
      modifies this`isLoading, this`log, auth
      ensures Valid() && auth.Valid()
      ensures CheckPasswords(password, confirmPassword).Some? ==>
        && alert == Some(Alert(ErrorTitle, CheckPasswords(password, confirmPassword).value))
        && log == old(log)
        && auth.isLoggedIn == old(auth.isLoggedIn) && auth.redirects == old(auth.redirects)
      ensures CheckPasswords(password, confirmPassword).None? ==>
        && log == old(log) + Bracket(SignupCall(params, password))
        && alert == (if result.Resolved? then None
                     else Some(Alert(SignupErrorTitle, MessageOr(result.message, SignupFallback))))
        && (result.Resolved? ==>
              auth.isLoggedIn == Some(true)
              && auth.redirects == old(auth.redirects) + RedirectLog(old(auth.isLoggedIn), [AuthOp.Signup]))
        && (result.Rejected? ==>
              auth.isLoggedIn == old(auth.isLoggedIn) && auth.redirects == old(auth.redirects))
    {
      if password == "" || confirmPassword == "" {
        return Some(Alert(ErrorTitle, FillBoth));
      }
      if password != confirmPassword {
        return Some(Alert(ErrorTitle, Mismatch));
      }
      if |password| < MinLength {
        return Some(Alert(ErrorTitle, TooShort));
      }
      alert := SignUpWhileLoading(auth, result);
    }

    /**
     * The `try`/`catch`/`finally` of `handleSignUp`: the flag is set,
     * `signup` is awaited with the route params, a throw becomes the
     * "Signup Error" alert, and the flag is cleared either way.
     */
    method SignUpWhileLoading(auth: AuthProvider, result: CallResult) returns (alert: Option<Outcome>)
      requires Valid() && auth.Valid()
      modifies this`isLoading, this`log, auth
      ensures Valid() && auth.Valid()
      ensures log == old(log) + Bracket(SignupCall(params, password))
      ensures alert == (if result.Resolved? then None
                        else Some(Alert(SignupErrorTitle, MessageOr(result.message, SignupFallback))))
      ensures result.Resolved? ==>
        auth.isLoggedIn == Some(true)
        && auth.redirects == old(auth.redirects) + RedirectLog(old(auth.isLoggedIn), [AuthOp.Signup])
      ensures result.Rejected? ==>
        auth.isLoggedIn == old(auth.isLoggedIn) && auth.redirects == old(auth.redirects)
    {
      var call := SignupCall(params, password);
      BracketExtends(log, call);
      isLoading := true;
      log := log + [SetLoading(true), Invoke(call)];
      match result {
        case Resolved =>
          auth.Signup();
          alert := None;
        case Rejected(message) =>
          alert := Some(Alert(SignupErrorTitle, MessageOr(message, SignupFallback)));
      }
      isLoading := false;
      log := log + [SetLoading(false)];
      assert log == old(log) + Bracket(call);
    }
  }
}
