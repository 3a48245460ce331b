/** app/onboarding/personal-info.tsx: the first onboarding step. */
module PersonalInfo {
  import opened Wrappers
  import opened Navigation

  datatype Gender = Male | Female | Other

  const FillAllFields := "Please fill in all fields"

  class PersonalInfoScreen {
    var firstName: string
    var lastName: string
    var dateOfBirth: string
    var gender: Option<Gender>

    constructor ()
      ensures firstName == "" && lastName == "" && dateOfBirth == "" && gender == None
    {
      firstName, lastName, dateOfBirth, gender := "", "", "", None;
    }

    method SetFirstName(text: string)
      modifies this`firstName
      ensures firstName == text
    {
      firstName := text;
    }

    method SetLastName(text: string)
      modifies this`lastName
      ensures lastName == text
    {
      lastName := text;
    }

    /** Free text: no date format is imposed. */
    method SetDateOfBirth(text: string)
      modifies this`dateOfBirth
      ensures dateOfBirth == text
    {
      dateOfBirth := text;
    }

    /** A press on one of the three gender options replaces the previous choice. */
    method SetGender(choice: Gender)
      modifies this`gender
      ensures gender == Some(choice)
    {
      gender := Some(choice);
    }

    /** `handleNext`: the four fields must be non-empty or set; the date is not parsed. */
    function HandleNext(): (o: Outcome)
      reads this
      ensures o.Push? <==> firstName != "" && lastName != "" && dateOfBirth != "" && gender.Some?
      ensures o.Push? ==> o == Push(FitnessGoalsRoute, map[])
      ensures !o.Push? ==> o == Alert(None, FillAllFields)
    {
      if firstName == "" || lastName == "" || dateOfBirth == "" || gender.None? then Alert(None, FillAllFields)
      else Push(FitnessGoalsRoute, map[])
    }

    /** `handleSkip`: the same push, without looking at the form (the function reads no field). */
    function HandleSkip(): (o: Outcome)
      ensures o.Push? && o.route == FitnessGoalsRoute && o.params == map[]
    {
      Push(FitnessGoalsRoute, map[])
    }
  }

  /** An accepted Next goes where Skip goes. */
  lemma NextAgreesWithSkip(screen: PersonalInfoScreen)
    ensures screen.HandleNext().Push? ==> screen.HandleNext() == screen.HandleSkip()
  {
  }
}
