/** app/onboarding/workout-preferences.tsx: the fourth onboarding step. */
module WorkoutPreferences {
  import opened Wrappers
  import opened Navigation
  import opened Selection

  const SelectTypeAndTime := "Please select at least one workout type and preferred time"

  class WorkoutPreferencesScreen {
    var workoutTypes: seq<string>
    var preferredTime: Option<string>
    var equipment: seq<string>

    ghost predicate Valid()
      reads this
    {
      NoDuplicates(workoutTypes) && NoDuplicates(equipment)
    }

    constructor ()
      ensures Valid()
      ensures workoutTypes == [] && preferredTime == None && equipment == []
    {
      workoutTypes, preferredTime, equipment := [], None, [];
    }

    /** `toggleWorkoutType`; the frame leaves `equipment` and `preferredTime` as they were. */
    method ToggleWorkoutType(id: string)
      requires Valid()
      modifies this`workoutTypes
      ensures Valid()
      ensures workoutTypes == Toggle(old(workoutTypes), id)
    {
      ToggleKeepsNoDuplicates(workoutTypes, id);
      workoutTypes := Toggle(workoutTypes, id);
    }

    /**
     * `toggleEquipment`: the same toggle on its own list. Options do not
     * exclude each other: 'none' and 'all' can be selected together.
     */
    method ToggleEquipment(id: string)
      requires Valid()
      modifies this`equipment
      ensures Valid()
      ensures equipment == Toggle(old(equipment), id)
    {
      ToggleKeepsNoDuplicates(equipment, id);
      equipment := Toggle(equipment, id);
    }

    /** A press on a time option replaces the previous one. */
    method SetPreferredTime(time: string)
      requires Valid()
      modifies this`preferredTime
      ensures Valid()
      ensures preferredTime == Some(time)
    {
      preferredTime := Some(time);
    }

    /** `handleNext`: at least one workout type and a preferred time; equipment is optional. */
    function HandleNext(): (o: Outcome)
      reads this
      ensures o.Push? <==> |workoutTypes| > 0 && IsFilled(preferredTime)
      ensures o.Push? ==> o == Push(NutritionPreferencesRoute, map[])
      ensures !o.Push? ==> o == Alert(None, SelectTypeAndTime)
    {
      if |workoutTypes| == 0 || !IsFilled(preferredTime) then Alert(None, SelectTypeAndTime)
      else Push(NutritionPreferencesRoute, map[])
    }
  }

  /** 'none' and 'all' can both be selected. */
  lemma NoExclusiveEquipment()
    ensures Toggle(Toggle([], "none"), "all") == ["none", "all"]
  {
  }
}
