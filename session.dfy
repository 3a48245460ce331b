/**
 * The session flag of components/auth-provider.tsx. `isLoggedIn` is
 * tri-state: None while the startup check has not run (loading), then
 * Some(false) or Some(true). Each change of the flag re-runs the redirect
 * effect, which replaces the current route with the login screen or the tab
 * dashboard. The provider's operations take no arguments and call nothing
 * external: they only write the flag.
 */
module Session {
  import opened Wrappers
  import opened Navigation

  /** The operations that write the flag: the startup check and the three context setters. */
  datatype AuthOp = CheckLoginStatus | Login | Signup | Logout

  /** The value an operation passes to `setIsLoggedIn`. */
  function Written(op: AuthOp): bool
  {
    match op
    case CheckLoginStatus => false
    case Login => true
    case Signup => true
    case Logout => false
  }

  /** The flag after one operation. It never depends on the flag before. */
  function Step(isLoggedIn: Option<bool>, op: AuthOp): (next: Option<bool>)
    ensures next.Some?
    ensures (op.Login? || op.Signup?) ==> next == Some(true)
    ensures (op.CheckLoginStatus? || op.Logout?) ==> next == Some(false)
  {
    Some(Written(op))
  }

  /** The redirect rule of the effect: where each resolved value sends the user; none while loading. */
  function RedirectTarget(isLoggedIn: Option<bool>): (target: Option<Route>)
    ensures target.None? <==> isLoggedIn.None?
    ensures isLoggedIn == Some(false) ==> target == Some(LoginRoute)
    ensures isLoggedIn == Some(true) ==> target == Some(TabsRoute)
  {
    match isLoggedIn
    case None => None
    case Some(loggedIn) => Some(if loggedIn then TabsRoute else LoginRoute)
  }

  /**
   * The redirects issued when the flag goes from `before` to `after`. The
   * effect depends on `isLoggedIn`, so React re-runs it only when the value
   * changed, and then it replaces the route at most once.
   */
  function EffectRedirects(before: Option<bool>, after: Option<bool>): (issued: seq<Route>)
    ensures |issued| <= 1
    ensures issued != [] <==> before != after && after.Some?
    ensures issued != [] ==> Some(issued[0]) == RedirectTarget(after)
  {
    if before == after then []
    else match RedirectTarget(after)
      case None => []
      case Some(route) => [route]
  }

  /** The flag after a sequence of operations, applied in order. */
  function Run(isLoggedIn: Option<bool>, ops: seq<AuthOp>): Option<bool>
    decreases |ops|
  {
    if ops == [] then isLoggedIn else Run(Step(isLoggedIn, ops[0]), ops[1..])
  }

  /** The redirects a sequence of operations issues, in order. */
  function RedirectLog(isLoggedIn: Option<bool>, ops: seq<AuthOp>): seq<Route>
    decreases |ops|
  {
    if ops == [] then []
    else
      var next := Step(isLoggedIn, ops[0]);
      EffectRedirects(isLoggedIn, next) + RedirectLog(next, ops[1..])
  }

  /** No route is redirected to twice in a row. */
  ghost predicate NoRepeats(redirects: seq<Route>)
  {
    forall i :: 0 <= i < |redirects| - 1 ==> redirects[i] != redirects[i + 1]
  }

  /**
   * The redirects issued so far agree with the flag: none while loading; once
   * resolved, the latest one is the target of the current value; and no two
   * successive ones are the same.
   */
  ghost predicate Tracks(isLoggedIn: Option<bool>, redirects: seq<Route>)
  {
    && (isLoggedIn.None? <==> redirects == [])
    && (redirects != [] ==> Some(redirects[|redirects| - 1]) == RedirectTarget(isLoggedIn))
    && NoRepeats(redirects)
  }

  /** Writing the flag and running the effect keeps the redirect log in agreement with it. */
  lemma SetPreservesTracks(isLoggedIn: Option<bool>, redirects: seq<Route>, value: bool)
    requires Tracks(isLoggedIn, redirects)
    ensures Tracks(Some(value), redirects + EffectRedirects(isLoggedIn, Some(value)))
  {
    var after := redirects + EffectRedirects(isLoggedIn, Some(value));
    if isLoggedIn != Some(value) && isLoggedIn.Some? {
      // The flag flipped: the new target differs from the latest redirect.
      assert redirects[|redirects| - 1] != after[|after| - 1];
    }
  }

  /** The redirects of `ops ++ more` are those of `ops` followed by those of `more`. */
  lemma {:induction false} RedirectLogAppend(isLoggedIn: Option<bool>, ops: seq<AuthOp>, more: seq<AuthOp>)
    ensures Run(isLoggedIn, ops + more) == Run(Run(isLoggedIn, ops), more)
    ensures RedirectLog(isLoggedIn, ops + more)
         == RedirectLog(isLoggedIn, ops) + RedirectLog(Run(isLoggedIn, ops), more)
    decreases |ops|
  {
    if ops == [] {
      assert ops + more == more;
    } else {
      assert (ops + more)[0] == ops[0];
      assert (ops + more)[1..] == ops[1..] + more;
      RedirectLogAppend(Step(isLoggedIn, ops[0]), ops[1..], more);
    }
  }

  /** Last write wins: after a non-empty sequence the flag is what the last operation wrote. */
  lemma {:induction false} LastWriteWins(isLoggedIn: Option<bool>, ops: seq<AuthOp>)
    requires ops != []
    ensures Run(isLoggedIn, ops) == Some(Written(ops[|ops| - 1]))
    decreases |ops|
  {
    if |ops| > 1 {
      LastWriteWins(Step(isLoggedIn, ops[0]), ops[1..]);
    }
  }

  /** Once resolved, the flag never returns to loading: no operation writes null. */
  lemma {:induction false} NeverBackToLoading(isLoggedIn: Option<bool>, ops: seq<AuthOp>)
    requires isLoggedIn.Some? || ops != []
    ensures Run(isLoggedIn, ops).Some?
  {
    if ops != [] {
      LastWriteWins(isLoggedIn, ops);
    }
  }

  /** Splitting off the first operation of a run, on top of an existing redirect log. */
  lemma RunFirstStep(isLoggedIn: Option<bool>, redirects: seq<Route>, ops: seq<AuthOp>)
    requires ops != []
    ensures Run(isLoggedIn, ops) == Run(Step(isLoggedIn, ops[0]), ops[1..])
    ensures redirects + RedirectLog(isLoggedIn, ops)
         == (redirects + EffectRedirects(isLoggedIn, Step(isLoggedIn, ops[0])))
            + RedirectLog(Step(isLoggedIn, ops[0]), ops[1..])
  {
  }

  /** Any sequence of operations keeps the redirect log in agreement with the flag. */
  lemma {:induction false} RunPreservesTracks(isLoggedIn: Option<bool>, redirects: seq<Route>, ops: seq<AuthOp>)
    requires Tracks(isLoggedIn, redirects)
    ensures Tracks(Run(isLoggedIn, ops), redirects + RedirectLog(isLoggedIn, ops))
    decreases |ops|
  {
    if ops != [] {
      var next := Step(isLoggedIn, ops[0]);
      var log := redirects + EffectRedirects(isLoggedIn, next);
      RunFirstStep(isLoggedIn, redirects, ops);
      SetPreservesTracks(isLoggedIn, redirects, Written(ops[0]));
      RunPreservesTracks(next, log, ops[1..]);
    }
  }

  /**
   * From the initial loading state: no redirect is issued until the first
   * operation, and afterwards the latest redirect always targets the current
   * value, with no route repeated twice in a row.
   */
  lemma FromStartup(ops: seq<AuthOp>)
    ensures Tracks(Run(None, ops), RedirectLog(None, ops))
    ensures RedirectLog(None, ops) == [] <==> ops == []
  {
    RunPreservesTracks(None, [], ops);
    assert [] + RedirectLog(None, ops) == RedirectLog(None, ops);
    if ops != [] {
      NeverBackToLoading(None, ops);
    }
  }

  /** Repeating an operation immediately changes neither the flag nor the redirects. */
  lemma RepeatIsIdempotent(isLoggedIn: Option<bool>, ops: seq<AuthOp>, op: AuthOp)
    ensures Run(isLoggedIn, ops + [op, op]) == Run(isLoggedIn, ops + [op])
    ensures RedirectLog(isLoggedIn, ops + [op, op]) == RedirectLog(isLoggedIn, ops + [op])
  {
    var mid := Run(isLoggedIn, ops);
    RedirectLogAppend(isLoggedIn, ops, [op, op]);
    RedirectLogAppend(isLoggedIn, ops, [op]);
    assert [op, op][1..] == [op];
    assert RedirectLog(mid, [op, op]) == RedirectLog(mid, [op]);
  }

  /** Startup resolves to logged out and sends the user to the login screen exactly once. */
  lemma StartupScenario()
    ensures Run(None, [CheckLoginStatus]) == Some(false)
    ensures RedirectLog(None, [CheckLoginStatus]) == [LoginRoute]
  {
  }

  /** A login after startup issues exactly one further redirect, to the dashboard. */
  lemma LoginScenario()
    ensures Run(None, [CheckLoginStatus, Login]) == Some(true)
    ensures RedirectLog(None, [CheckLoginStatus, Login]) == [LoginRoute, TabsRoute]
  {
  }

  /** The value the provider puts in the React context (its setters are the class's methods). */
  datatype AuthContext = AuthContext(isLoggedIn: Option<bool>)

  const UseAuthError := "useAuth must be used within an AuthProvider"

  /** `useAuth`: the context value, or the error it throws outside an AuthProvider. */
  function UseAuth(context: Option<AuthContext>): (r: Result<AuthContext, string>)
    ensures r.Failure? <==> context.None?
    ensures r.Failure? ==> r.error == UseAuthError
    ensures r.Success? ==> r.value == context.value
  {
    match context
    case None => Failure(UseAuthError)
    case Some(value) => Success(value)
  }

  /**
   * The provider component. `redirects` records, in order, every
   * `router.replace` its redirect effect performs.
   */
  class AuthProvider {
    var isLoggedIn: Option<bool>
    var redirects: seq<Route>

    ghost predicate Valid()
      reads this
    {
      Tracks(isLoggedIn, redirects)
    }

    /** Mounting: the flag starts as loading; the effect's first run issues nothing. */
    constructor ()
      ensures Valid()
      ensures isLoggedIn == None && redirects == []
    {
      isLoggedIn := None;
      redirects := [];
    }

    /** `setIsLoggedIn(value)` followed by the redirect effect. */
    method SetIsLoggedIn(value: bool)
      requires Valid()
      modifies this
      ensures Valid()
      ensures isLoggedIn == Some(value)
      ensures redirects == old(redirects) + EffectRedirects(old(isLoggedIn), Some(value))
    {
      SetPreservesTracks(isLoggedIn, redirects, value);
      var before := isLoggedIn;
      isLoggedIn := Some(value);
      redirects := redirects + EffectRedirects(before, isLoggedIn);
    }

    /** The startup check: with no stored token to look at, it always resolves to logged out. */
    method CheckLoginStatus()
      requires Valid()
      modifies this
      ensures Valid()
      ensures isLoggedIn == Step(old(isLoggedIn), AuthOp.CheckLoginStatus) == Some(false)
      ensures redirects == old(redirects) + RedirectLog(old(isLoggedIn), [AuthOp.CheckLoginStatus])
    {
      SetIsLoggedIn(false);
    }

    method Login()
      requires Valid()
      modifies this
      ensures Valid()
      ensures isLoggedIn == Step(old(isLoggedIn), AuthOp.Login) == Some(true)
      ensures redirects == old(redirects) + RedirectLog(old(isLoggedIn), [AuthOp.Login])
    {
      SetIsLoggedIn(true);
    }

    method Signup()
      requires Valid()
      modifies this
      ensures Valid()
      ensures isLoggedIn == Step(old(isLoggedIn), AuthOp.Signup) == Some(true)
      ensures redirects == old(redirects) + RedirectLog(old(isLoggedIn), [AuthOp.Signup])
    {
      SetIsLoggedIn(true);
    }

    method Logout()
      requires Valid()
      modifies this
      ensures Valid()
      ensures isLoggedIn == Step(old(isLoggedIn), AuthOp.Logout) == Some(false)
      ensures redirects == old(redirects) + RedirectLog(old(isLoggedIn), [AuthOp.Logout])
    {
      SetIsLoggedIn(false);
    }

    /** The value the provider passes down to `useAuth`. */
    function Context(): (context: AuthContext)
      reads this
      ensures context.isLoggedIn == isLoggedIn
    {
      AuthContext(isLoggedIn)
    }
  }
}
