/**
 * The router and the alert dialog, as values. A handler of a screen does not
 * navigate or show a dialog itself: it returns the Outcome that expo-router's
 * `push`, `replace` and `back` or React Native's `Alert.alert` / `alert` would
 * have been asked to perform.
 */
module Navigation {
  import opened Wrappers

  type Route = string

  /** Navigation parameters, as expo-router passes them: names to strings. */
  type Params = map<string, string>

  const LoginRoute: Route := "/login"
  const TabsRoute: Route := "/(tabs)/index"
  const SignupNameRoute: Route := "/signup/name"
  const SignupEmailRoute: Route := "/signup/email"
  const SignupPasswordRoute: Route := "/signup/password"
  const PersonalInfoRoute: Route := "/onboarding/personal-info"
  const FitnessGoalsRoute: Route := "/onboarding/fitness-goals"
  const HealthMetricsRoute: Route := "/onboarding/health-metrics"
  const WorkoutPreferencesRoute: Route := "/onboarding/workout-preferences"
  const NutritionPreferencesRoute: Route := "/onboarding/nutrition-preferences"
  const CompletionRoute: Route := "/onboarding/completion"

  /**
   * Alert(Some(t), m) is `Alert.alert(t, m)`; Alert(None, m) is the global
   * `alert(m)`, which has no title of its own.
   */
  datatype Outcome =
    | Alert(title: Option<string>, message: string)
    | Push(route: Route, params: Params)
    | Replace(route: Route)
    | Back

  /** The `title` that `Alert.alert('Error', ...)` shows. */
  const ErrorTitle: Option<string> := Some("Error")

  /** How an awaited call ended: it resolved, or it threw an error with this `message`. */
  datatype CallResult = Resolved | Rejected(message: string)

  /**
   * `error.message || fallback`: the message when it is non-empty, else the
   * fallback. An error without a `message` is modelled as one whose message is "".
   */
  function MessageOr(message: string, fallback: string): (shown: string)
    ensures message != "" ==> shown == message
    ensures message == "" ==> shown == fallback
  {
    if message != "" then message else fallback
  }

  /** `handleBack` of every step screen, and the close button of the first onboarding step. */
  function HandleBack(): (o: Outcome)
    ensures o == Back
  {
    Back
  }

  /** JavaScript truthiness of an optional text field: set and non-empty. */
  function IsFilled(field: Option<string>): (truthy: bool)
    ensures field == None ==> !truthy
    ensures field == Some("") ==> !truthy
    ensures field.Some? && field.value != "" ==> truthy
  {
    field.Some? && field.value != ""
  }

  /** The value of a navigation parameter, absent (`undefined`) when it was not passed. */
  function Param(params: Params, name: string): (value: Option<string>)
    ensures value.Some? <==> name in params
    ensures value.Some? ==> value.value == params[name]
  {
    if name in params then Some(params[name]) else None
  }
}
