/** app/signup/email.tsx: the second signup step. */
module SignupEmail {
  import opened Wrappers
  import opened Navigation
  import opened EmailPattern

  const InvalidEmail := "Please enter a valid email address"

  /**
   * `handleNext` as written: a non-empty email matching the pattern pushes
   * the password step, with no params; anything else alerts.
   */
  function HandleNext(email: string): (o: Outcome)
    ensures o.Alert? <==> email == "" || !MatchesEmailPattern(email)
    ensures o.Alert? ==> o == Alert(None, InvalidEmail)
    ensures !o.Alert? ==> o == Push(SignupPasswordRoute, map[])
  {
    if email == "" || !MatchesEmailPattern(email) then Alert(None, InvalidEmail)
    else Push(SignupPasswordRoute, map[])
  }

  /**
   * `handleNext` as the password step expects it: forward the names this
   * step received together with the email it collected.
   */
  function HandleNextForwarding(email: string, received: Params): (o: Outcome)
    ensures o.Alert? <==> email == "" || !MatchesEmailPattern(email)
    ensures o.Alert? ==> o == Alert(None, InvalidEmail)
    ensures !o.Alert? ==> o.Push? && o.route == SignupPasswordRoute
    ensures !o.Alert? ==> Param(o.params, "email") == Some(email)
    ensures !o.Alert? ==> forall name :: name in received && name != "email" ==>
                            Param(o.params, name) == Param(received, name)
  {
    if email == "" || !MatchesEmailPattern(email) then Alert(None, InvalidEmail)
    else Push(SignupPasswordRoute, received["email" := email])
  }

  /** The Next button's `disabled` prop: set exactly when `handleNext` would reject. */
  function NextDisabled(email: string): (disabled: bool)
    ensures disabled <==> HandleNext(email).Alert?
  {
    email == "" || !MatchesEmailPattern(email)
  }

  /** The empty string and every string with whitespace in it are rejected. */
  lemma EmptyOrWhitespaceRejected(email: string, i: int)
    requires email == "" || (0 <= i < |email| && IsWhitespace(email[i]))
    ensures HandleNext(email) == Alert(None, InvalidEmail)
  {
  }

  /** The step accepts exactly the emails the login screen accepts. */
  lemma SameRuleAsLogin(email: string)
    ensures HandleNext(email).Push? <==> MatchesEmailPattern(email)
  {
    if MatchesEmailPattern(email) {
      MatchIsNonEmpty(email);
    }
  }
}
