/**
 * hooks/use-auth-redirect.ts: two one-sided versions of the provider's
 * redirect rule, for screens that need a session (useRequireAuth) or must not
 * be shown to a logged-in user (useRedirectIfLoggedIn). Each reads the flag
 * through `useAuth`, may replace the route, and returns the flag unchanged.
 */
module AuthRedirect {
  import opened Wrappers
  import opened Navigation
  import opened Session

  /** What a hook does: the route it replaces (if any) and the `isLoggedIn` it returns. */
  datatype HookResult = HookResult(redirect: Option<Route>, isLoggedIn: Option<bool>)

  /** `useRequireAuth(redirectTo = '/login')`: leave when the flag is resolved to false. */
  function UseRequireAuth(context: Option<AuthContext>, redirectTo: Route := LoginRoute): (r: Result<HookResult, string>)
    ensures context.None? ==> r == Failure(UseAuthError)
    ensures context.Some? ==> r.Success? && r.value.isLoggedIn == context.value.isLoggedIn
    ensures context.Some? ==> (r.value.redirect.Some? <==> context.value.isLoggedIn == Some(false))
    ensures r.Success? && r.value.redirect.Some? ==> r.value.redirect.value == redirectTo
  {
    match UseAuth(context)
    case Failure(e) => Failure(e)
    case Success(ctx) =>
      Success(HookResult(if ctx.isLoggedIn == Some(false) then Some(redirectTo) else None, ctx.isLoggedIn))
  }

  /** `useRedirectIfLoggedIn(redirectTo = '/(tabs)/index')`: leave when the flag is resolved to true. */
  function UseRedirectIfLoggedIn(context: Option<AuthContext>, redirectTo: Route := TabsRoute): (r: Result<HookResult, string>)
    ensures context.None? ==> r == Failure(UseAuthError)
    ensures context.Some? ==> r.Success? && r.value.isLoggedIn == context.value.isLoggedIn
    ensures context.Some? ==> (r.value.redirect.Some? <==> context.value.isLoggedIn == Some(true))
    ensures r.Success? && r.value.redirect.Some? ==> r.value.redirect.value == redirectTo
  {
    match UseAuth(context)
    case Failure(e) => Failure(e)
    case Success(ctx) =>
      Success(HookResult(if ctx.isLoggedIn == Some(true) then Some(redirectTo) else None, ctx.isLoggedIn))
  }

  /** While the flag is loading neither hook redirects, whatever its target. */
  lemma NoRedirectWhileLoading(to1: Route, to2: Route)
    ensures UseRequireAuth(Some(AuthContext(None)), to1) == Success(HookResult(None, None))
    ensures UseRedirectIfLoggedIn(Some(AuthContext(None)), to2) == Success(HookResult(None, None))
  {
  }

  /** For any one state of the flag, at most one of the two hooks redirects. */
  lemma AtMostOneRedirects(context: AuthContext, to1: Route, to2: Route)
    ensures !(UseRequireAuth(Some(context), to1).value.redirect.Some?
              && UseRedirectIfLoggedIn(Some(context), to2).value.redirect.Some?)
  {
  }

  /**
   * With their default targets, the two hooks together are the provider's own
   * redirect rule: whichever of them redirects goes where the provider's
   * effect would.
   */
  lemma HooksMatchProviderRule(isLoggedIn: Option<bool>)
    ensures var require := UseRequireAuth(Some(AuthContext(isLoggedIn))).value.redirect;
            var avoid := UseRedirectIfLoggedIn(Some(AuthContext(isLoggedIn))).value.redirect;
            RedirectTarget(isLoggedIn) == (if require.Some? then require else avoid)
  {
  }

  /** The default targets are the login screen and the tab dashboard. */
  lemma DefaultTargets()
    ensures UseRequireAuth(Some(AuthContext(Some(false)))) == Success(HookResult(Some(LoginRoute), Some(false)))
    ensures UseRedirectIfLoggedIn(Some(AuthContext(Some(true)))) == Success(HookResult(Some(TabsRoute), Some(true)))
  {
  }
}
