/**
 * The fixed chain of onboarding steps, each pushed by the accepted Next of
 * the one before, ending with app/onboarding/completion.tsx, whose Finish
 * button replaces the route with the tab dashboard.
 */
module OnboardingFlow {
  import opened Navigation
  import opened PersonalInfo
  import opened FitnessGoals
  import opened HealthMetrics
  import opened WorkoutPreferences
  import opened NutritionPreferences

  const Steps: seq<Route> := [PersonalInfoRoute, FitnessGoalsRoute, HealthMetricsRoute,
                              WorkoutPreferencesRoute, NutritionPreferencesRoute, CompletionRoute]

  /** The completion screen's `handleFinish`. */
  function HandleFinish(): (o: Outcome)
    ensures o == Replace(TabsRoute)
  {
    Replace(TabsRoute)
  }

  /** When each form is accepted, every step pushes the next one of the chain, and Finish leaves for the dashboard. */
  lemma ChainIsFollowed(personal: PersonalInfoScreen, goals: FitnessGoalsScreen, metrics: HealthMetricsScreen,
                        workout: WorkoutPreferencesScreen, nutrition: NutritionPreferencesScreen)
    requires personal.HandleNext().Push? && goals.HandleNext().Push?
    requires metrics.HandleNext().Push? && workout.HandleNext().Push?
    ensures [personal.HandleNext().route, goals.HandleNext().route, metrics.HandleNext().route,
             workout.HandleNext().route, nutrition.HandleNext().route] == Steps[1..]
    ensures HandleFinish() == Replace(TabsRoute)
  {
  }
}
