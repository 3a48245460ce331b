/** app/onboarding/nutrition-preferences.tsx: the last onboarding form. */
module NutritionPreferences {
  import opened Navigation
  import opened Selection

  /** Glasses of water per day. */
  const InitialWaterGoal := 8
  const MinWaterGoal := 1
  const MaxWaterGoal := 16

  /** The minus button: `Math.max(1, prev - 1)`. */
  function Decremented(goal: int): (next: int)
    ensures next >= MinWaterGoal
    ensures goal > MinWaterGoal ==> next == goal - 1
    ensures goal <= MinWaterGoal ==> next == MinWaterGoal
  {
    if goal - 1 < MinWaterGoal then MinWaterGoal else goal - 1
  }

  /** The plus button: `Math.min(16, prev + 1)`. */
  function Incremented(goal: int): (next: int)
    ensures next <= MaxWaterGoal
    ensures goal < MaxWaterGoal ==> next == goal + 1
    ensures goal >= MaxWaterGoal ==> next == MaxWaterGoal
  {
    if goal + 1 > MaxWaterGoal then MaxWaterGoal else goal + 1
  }

  datatype WaterPress = Minus | Plus

  function Pressed(goal: int, press: WaterPress): int
  {
    match press
    case Minus => Decremented(goal)
    case Plus => Incremented(goal)
  }

  /** The goal after a sequence of presses. */
  function AfterPresses(goal: int, presses: seq<WaterPress>): int
    decreases |presses|
  {
    if presses == [] then goal else AfterPresses(Pressed(goal, presses[0]), presses[1..])
  }

  /** Whatever the presses, a goal in [1, 16] stays in [1, 16]. */
  lemma {:induction false} PressesStayInRange(goal: int, presses: seq<WaterPress>)
    requires MinWaterGoal <= goal <= MaxWaterGoal
    ensures MinWaterGoal <= AfterPresses(goal, presses) <= MaxWaterGoal
    decreases |presses|
  {
    if presses != [] {
      PressesStayInRange(Pressed(goal, presses[0]), presses[1..]);
    }
  }

  /** At the bounds the buttons do nothing. */
  lemma ClampsAtBounds()
    ensures Decremented(MinWaterGoal) == MinWaterGoal
    ensures Incremented(MaxWaterGoal) == MaxWaterGoal
  {
  }

  class NutritionPreferencesScreen {
    var dietaryPreferences: seq<string>
    var waterGoal: int
    var trackNutrition: bool

    ghost predicate Valid()
      reads this
    {
      NoDuplicates(dietaryPreferences) && MinWaterGoal <= waterGoal <= MaxWaterGoal
    }

    constructor ()
      ensures Valid()
      ensures dietaryPreferences == [] && waterGoal == InitialWaterGoal && trackNutrition
    {
      dietaryPreferences, waterGoal, trackNutrition := [], InitialWaterGoal, true;
    }

    /** `toggleDietary`. */
    method ToggleDietary(id: string)
      requires Valid()
      modifies this`dietaryPreferences
      ensures Valid()
      ensures dietaryPreferences == Toggle(old(dietaryPreferences), id)
    {
      ToggleKeepsNoDuplicates(dietaryPreferences, id);
      dietaryPreferences := Toggle(dietaryPreferences, id);
    }

    method DecrementWater()
      requires Valid()
      modifies this`waterGoal
      ensures Valid()
      ensures waterGoal == Decremented(old(waterGoal))
    {
      waterGoal := Decremented(waterGoal);
    }

    method IncrementWater()
      requires Valid()
      modifies this`waterGoal
      ensures Valid()
      ensures waterGoal == Incremented(old(waterGoal))
    {
      waterGoal := Incremented(waterGoal);
    }

    /** The switch: the only writer of `trackNutrition`. */
    method SetTrackNutrition(value: bool)
      requires Valid()
      modifies this`trackNutrition
      ensures Valid()
      ensures trackNutrition == value
    {
      trackNutrition := value;
    }

    /** `handleNext`: every field is optional, so it always moves on (it reads no field). */
    function HandleNext(): (o: Outcome)
      ensures o.Push? && o.route == CompletionRoute && o.params == map[]
    {
      Push(CompletionRoute, map[])
    }
  }
}
