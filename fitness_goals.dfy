/** app/onboarding/fitness-goals.tsx: the second onboarding step. */
module FitnessGoals {
  import opened Wrappers
  import opened Navigation
  import opened Selection

  const SelectGoalAndLevel := "Please select at least one goal and your experience level"

  class FitnessGoalsScreen {
    var selectedGoals: seq<string>
    var experienceLevel: Option<string>

    ghost predicate Valid()
      reads this
    {
      NoDuplicates(selectedGoals)
    }

    constructor ()
      ensures Valid()
      ensures selectedGoals == [] && experienceLevel == None
    {
      selectedGoals, experienceLevel := [], None;
    }

    /** `toggleGoal`: the toggled list replaces the selection; the level is not touched. */
    method ToggleGoal(id: string)
      requires Valid()
      modifies this`selectedGoals
      ensures Valid()
      ensures selectedGoals == Toggle(old(selectedGoals), id)
    {
      ToggleKeepsNoDuplicates(selectedGoals, id);
      selectedGoals := Toggle(selectedGoals, id);
    }

    /** `selectExperience`: overwrites the single level. */
    method SelectExperience(level: string)
      requires Valid()
      modifies this`experienceLevel
      ensures Valid()
      ensures experienceLevel == Some(level)
    {
      experienceLevel := Some(level);
    }

    /** `handleNext`: at least one goal and a (non-empty) level. */
    function HandleNext(): (o: Outcome)
      reads this
      ensures o.Push? <==> |selectedGoals| > 0 && IsFilled(experienceLevel)
      ensures o.Push? ==> o == Push(HealthMetricsRoute, map[])
      ensures !o.Push? ==> o == Alert(None, SelectGoalAndLevel)
    {
      if |selectedGoals| == 0 || !IsFilled(experienceLevel) then Alert(None, SelectGoalAndLevel)
      else Push(HealthMetricsRoute, map[])
    }
  }
}
