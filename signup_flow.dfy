/**
 * The three signup steps chained: name, email, password. The password step
 * reads `email`, `firstName` and `lastName` from its route params and passes
 * them to `signup`.
 */
module SignupFlow {
  import opened Wrappers
  import opened Loading
  import SignupName
  import SignupEmail
  import SignupPassword

  /**
   * As written, the email step pushes no params, so `signup` receives
   * neither the email nor the names that were typed.
   */
  lemma AsWrittenDropsDetails(firstName: string, lastName: string, email: string, password: string)
    requires SignupName.HandleNext(firstName, lastName).Push?
    requires SignupEmail.HandleNext(email).Push?
    ensures SignupPassword.SignupCall(SignupEmail.HandleNext(email).params, password)
         == CreateAccount(None, password, None, None)
  {
  }

  /** One concrete run: "Jo", "Doe", "jo@x.io". */
  lemma AsWrittenExample()
    ensures SignupName.HandleNext("Jo", "Doe").Push?
    ensures SignupEmail.HandleNext("jo@x.io").Push?
    ensures SignupPassword.SignupCall(SignupEmail.HandleNext("jo@x.io").params, "secret1").accountEmail == None
  {
    assert "jo@x.io"[2] == '@' && "jo@x.io"[4] == '.';
  }

  /**
   * With the email step forwarding what it received plus the email, `signup`
   * receives exactly what the user typed on the three screens.
   */
  lemma ForwardingReachesSignup(firstName: string, lastName: string, email: string, password: string)
    requires SignupName.HandleNext(firstName, lastName).Push?
    requires SignupEmail.HandleNextForwarding(email, SignupName.HandleNext(firstName, lastName).params).Push?
    ensures var named := SignupName.HandleNext(firstName, lastName).params;
            var pushed := SignupEmail.HandleNextForwarding(email, named).params;
            SignupPassword.SignupCall(pushed, password)
              == CreateAccount(Some(email), password, Some(firstName), Some(lastName))
  {
    var named := SignupName.HandleNext(firstName, lastName).params;
    assert "firstName" in named && "lastName" in named;
  }
}
