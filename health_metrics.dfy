/** app/onboarding/health-metrics.tsx: the third onboarding step. */
module HealthMetrics {
  import opened Wrappers
  import opened Navigation

  const FillRequired := "Please fill in all required fields"

  class HealthMetricsScreen {
    var height: string
    var weight: string
    var activityLevel: Option<string>
    var injuries: string

    constructor ()
      ensures height == "" && weight == "" && activityLevel == None && injuries == ""
    {
      height, weight, activityLevel, injuries := "", "", None, "";
    }

    /** Free text from a numeric keyboard: never parsed. */
    method SetHeight(text: string)
      modifies this`height
      ensures height == text
    {
      height := text;
    }

    method SetWeight(text: string)
      modifies this`weight
      ensures weight == text
    {
      weight := text;
    }

    /** A press on an activity level replaces the previous one. */
    method SetActivityLevel(level: string)
      modifies this`activityLevel
      ensures activityLevel == Some(level)
    {
      activityLevel := Some(level);
    }

    /** The injuries text is optional: changing it never changes what Next does. */
    method SetInjuries(text: string)
      modifies this`injuries
      ensures injuries == text
      ensures HandleNext() == old(HandleNext())
    {
      injuries := text;
    }

    /** `handleNext`: height and weight non-empty, an activity level set. */
    function HandleNext(): (o: Outcome)
      reads this
      ensures o.Push? <==> height != "" && weight != "" && IsFilled(activityLevel)
      ensures o.Push? ==> o == Push(WorkoutPreferencesRoute, map[])
      ensures !o.Push? ==> o == Alert(None, FillRequired)
    {
      if height == "" || weight == "" || !IsFilled(activityLevel) then Alert(None, FillRequired)
      else Push(WorkoutPreferencesRoute, map[])
    }
  }
}
