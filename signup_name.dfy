/** app/signup/name.tsx: the first signup step. */
module SignupName {
  import opened Navigation

  const NameMissing := "Please enter both first and last name"

  /**
   * `handleNext`: both names must be non-empty (they are not trimmed); then
   * the email step is pushed with the names exactly as typed.
   */
  function HandleNext(firstName: string, lastName: string): (o: Outcome)
    ensures o.Alert? <==> firstName == "" || lastName == ""
    ensures o.Alert? ==> o == Alert(ErrorTitle, NameMissing)
    ensures !o.Alert? ==> o == Push(SignupEmailRoute, map["firstName" := firstName, "lastName" := lastName])
  {
    if firstName == "" || lastName == "" then Alert(ErrorTitle, NameMissing)
    else Push(SignupEmailRoute, map["firstName" := firstName, "lastName" := lastName])
  }

  /** The Next button's `disabled` prop: set exactly when `handleNext` would reject. */
  function NextDisabled(firstName: string, lastName: string): (disabled: bool)
    ensures disabled <==> HandleNext(firstName, lastName).Alert?
  {
    firstName == "" || lastName == ""
  }

  /** Names made only of spaces pass: the check is emptiness, not content. */
  lemma BlankNamesPass()
    ensures HandleNext(" ", " ") == Push(SignupEmailRoute, map["firstName" := " ", "lastName" := " "])
  {
  }
}
