# FitBud session and form logic in Dafny

This project models the logic of the FitBud mobile app's authentication and
onboarding screens, a React Native / expo-router app. The screens' markup is
left out. Three groups of logic are modelled.

- **The session flag** (`components/auth-provider.tsx`, `hooks/use-auth-redirect.ts`).
  `isLoggedIn` is `Option<bool>`: `None` means loading. The startup check
  writes `false`, `login` and `signup` write `true`, and `logout` writes
  `false`. Each change runs the redirect effect: `false` goes to `/login`,
  `true` goes to `/(tabs)/index`. The class `Session.AuthProvider` keeps the
  flag and a log of every redirect. Its methods are tied to the pure step
  function `Session.Step` and the effect `Session.EffectRedirects`. Lemmas
  about `Run` and `RedirectLog` cover sequences of operations: last write
  wins, the flag never returns to loading, and the redirect log always agrees
  with the flag. The two hooks are pure functions, checked against the
  provider's rule.
- **Form validators** on the login and signup path. The email pattern
  `^\S+@\S+\.\S+$` is the predicate `EmailPattern.MatchesEmailPattern`. The
  loop `EmailPattern.MatchEmail` is proved equal to it, and `handleLogin`
  uses that loop. The password checks run in a fixed order, and the four
  requirement indicators are modelled too. So are the required-field checks of
  every step. The login and password screens are classes. Their `isLoading`
  flag and a log of `setIsLoading` calls and awaited calls show the
  try/finally protocol.
- **Onboarding state**. The toggle-membership lists share one `Toggle`
  function, with lemmas about membership, order and duplicates. The
  single-choice fields are setters that overwrite. The water goal is clamped
  to [1, 16]. The fixed step chain ends at the tab dashboard.

Handlers return an `Outcome` instead of calling `Alert.alert`, `alert`,
`router.push`, `router.replace` or `router.back`. An awaited call that may
throw takes a `CallResult` parameter: `Resolved`, or `Rejected(message)`.

The provider keeps no in-flight flag, raises no typed errors and starts no
OAuth handshake: its `login`, `signup` and `logout` take no arguments and only
write the flag, and its startup check always writes `false`.

## Model

| member | source | states |
|---|---|---|
| `Session.Step` | components/auth-provider.tsx:44-61 | every operation resolves the flag; login and signup give true, the startup check and logout give false, whatever the flag was |
| `Session.RedirectTarget` | components/auth-provider.tsx:31-42 | no redirect while loading; false goes to /login, true goes to /(tabs)/index |
| `Session.EffectRedirects` | components/auth-provider.tsx:31-42 | the effect issues at most one redirect; it issues one exactly when the flag changed to a resolved value, and that one goes to the value's target |
| `Session.SetPreservesTracks` | components/auth-provider.tsx:31-61 | one write plus its effect keeps the redirect log in agreement with the flag |
| `Session.RedirectLogAppend` | components/auth-provider.tsx:31-61 | running two sequences one after the other gives the concatenation of their redirect logs |
| `Session.LastWriteWins` | components/auth-provider.tsx:44-61 | after any non-empty sequence of operations the flag is whatever the last one wrote |
| `Session.NeverBackToLoading` | components/auth-provider.tsx:44-61 | once resolved, the flag is never null again |
| `Session.RunPreservesTracks` | components/auth-provider.tsx:31-61 | any sequence of operations keeps the log in agreement with the flag: the latest redirect targets the current value, and no route repeats twice in a row |
| `Session.FromStartup` | components/auth-provider.tsx:22-61 | from mount, no redirect is issued until the first operation, and from then on the log agrees with the flag |
| `Session.RepeatIsIdempotent` | components/auth-provider.tsx:51-61 | repeating an operation (login twice, signup twice, ...) changes neither the flag nor the redirects |
| `Session.StartupScenario` | components/auth-provider.tsx:25-49 | startup resolves to false and redirects to /login exactly once |
| `Session.LoginScenario` | components/auth-provider.tsx:31-53 | a login after startup adds exactly one redirect, to the dashboard |
| `Session.UseAuth` | components/auth-provider.tsx:13-19 | fails with "useAuth must be used within an AuthProvider" exactly when there is no context; otherwise returns the context |
| `Session.AuthProvider.constructor` | components/auth-provider.tsx:22 | the flag starts loading and no redirect has happened |
| `Session.AuthProvider.SetIsLoggedIn` | components/auth-provider.tsx:31-42 | the setter writes the value and appends the effect's redirects; the log invariant is kept |
| `Session.AuthProvider.CheckLoginStatus` | components/auth-provider.tsx:44-49 | always resolves to false and logs the redirect of that step |
| `Session.AuthProvider.Login` | components/auth-provider.tsx:51-53 | sets true and logs the redirect of that step |
| `Session.AuthProvider.Signup` | components/auth-provider.tsx:55-57 | sets true and logs the redirect of that step |
| `Session.AuthProvider.Logout` | components/auth-provider.tsx:59-61 | sets false and logs the redirect of that step |
| `Session.AuthProvider.Context` | components/auth-provider.tsx:64 | the context carries the provider's current flag |
| `AuthRedirect.UseRequireAuth` | hooks/use-auth-redirect.ts:5-17 | fails without a provider; redirects if and only if the flag is false, to redirectTo (default /login); returns the flag unchanged |
| `AuthRedirect.UseRedirectIfLoggedIn` | hooks/use-auth-redirect.ts:19-30 | fails without a provider; redirects if and only if the flag is true, to redirectTo (default /(tabs)/index); returns the flag unchanged |
| `AuthRedirect.NoRedirectWhileLoading` | hooks/use-auth-redirect.ts:9-27 | neither hook redirects while the flag is null, whatever its target |
| `AuthRedirect.AtMostOneRedirects` | hooks/use-auth-redirect.ts:9-27 | for any one state, at most one of the two hooks redirects |
| `AuthRedirect.HooksMatchProviderRule` | hooks/use-auth-redirect.ts:5-30 | with their default targets, the two hooks together are the provider's redirect rule |
| `AuthRedirect.DefaultTargets` | hooks/use-auth-redirect.ts:5-19 | the default targets are /login and /(tabs)/index |
| `EmailPattern.IsWhitespace` | app/login.tsx:53 | the characters `\S` excludes: ECMAScript's WhiteSpace and LineTerminator code points; space, tab, newline and carriage return are among them, `@` and `.` are not |
| `EmailPattern.MatchesEmailPattern` | app/login.tsx:53 | the pattern `^\S+@\S+\.\S+$` as a predicate; a match contains an `@` and a `.` |
| `EmailPattern.MatchEmail` | app/login.tsx:53 | the one-pass scan returns true exactly when the string matches the pattern |
| `EmailPattern.PartsMatch` | app/login.tsx:53 | any a@b.c with non-empty, whitespace-free parts matches |
| `EmailPattern.MatchHasParts` | app/login.tsx:53 | every match splits into such a@b.c |
| `EmailPattern.MatchIsNonEmpty` | app/signup/email.tsx:11 | a match has at least five characters, so the `!email` guard adds nothing |
| `EmailPattern.SecondAtAccepted` | app/login.tsx:53 | "a@@b.c" matches, because `\S` also matches `@` |
| `Loading.Bracket` | app/login.tsx:58-66 | one guarded call is: flag set, the call, flag cleared |
| `Loading.BracketExtends` | app/login.tsx:58-66 | appending a guarded call keeps the log well bracketed |
| `Loading.CallsRunWhileLoading` | app/login.tsx:58-66 | in a well-bracketed log, every call comes right after the flag is set and right before it is cleared |
| `Loading.EndsNotLoading` | app/login.tsx:64-66 | a non-empty well-bracketed log ends with the flag cleared |
| `Navigation.MessageOr` | app/login.tsx:63 | the alert text is the error's message, or the fallback when the message is empty |
| `Navigation.HandleBack` | app/signup/name.tsx:23-25 | handleBack always navigates back |
| `Navigation.IsFilled` | app/onboarding/fitness-goals.tsx:40 | JavaScript truthiness of a string-or-null field: null and the empty string are falsy, any other string is truthy |
| `Navigation.Param` | app/signup/password.tsx:17 | a route param is present exactly when it was passed |
| `Login.ValidateLogin` | app/login.tsx:48-56 | an empty field gives "Please fill in all fields"; otherwise a bad email gives "Please enter a valid email address"; only filled fields with a valid email pass |
| `Login.ErrorAlert` | app/login.tsx:62-63 | a resolved call shows nothing; a thrown one shows its title and the message or the fallback |
| `Login.HandleSignUpLink` | app/login.tsx:229 | the Sign Up link pushes /signup/name |
| `Login.SignInOnlyWhenValid` | app/login.tsx:48-60 | login is reached only with both fields filled and a valid email |
| `Login.EmptyMessageFallsBack` | app/login.tsx:63 | an empty error message shows "An error occurred during login" |
| `Login.LoginScreen.constructor` | app/login.tsx:11-14 | empty fields, password hidden, not loading, nothing logged |
| `Login.LoginScreen.SetEmail` | app/login.tsx:135 | the text input replaces the email |
| `Login.LoginScreen.SetPassword` | app/login.tsx:155 | the text input replaces the password |
| `Login.LoginScreen.ToggleShowPassword` | app/login.tsx:167 | the eye button flips password visibility |
| `Login.LoginScreen.HandleLogin` | app/login.tsx:46-67 | a failed check alerts and leaves the flag, the log and the session alone; otherwise login runs inside set/clear of isLoading, a throw alerts "Login Error" with the message or the fallback, a resolved call logs in, and isLoading ends false |
| `Login.LoginScreen.SignInWhileLoading` | app/login.tsx:58-66 | login runs with the flag set and the flag is cleared after it; a throw alerts "Login Error" with the message or the fallback; only a resolved call logs in |
| `Login.LoginScreen.HandleGoogleSignIn` | app/login.tsx:69-79 | the call runs inside set/clear of isLoading; a throw alerts "Google Sign-In Error"; isLoading ends false |
| `Login.LoginScreen.HandleAppleSignIn` | app/login.tsx:81-91 | the call runs inside set/clear of isLoading; a throw alerts "Apple Sign-In Error"; isLoading ends false |
| `SignupName.HandleNext` | app/signup/name.tsx:11-21 | alerts exactly when a name is empty; otherwise pushes /signup/email with both names exactly as typed |
| `SignupName.NextDisabled` | app/signup/name.tsx:99 | the Next button is disabled exactly when handleNext would reject |
| `SignupName.BlankNamesPass` | app/signup/name.tsx:12 | names are not trimmed: names made of spaces pass |
| `SignupEmail.HandleNext` | app/signup/email.tsx:10-16 | alerts exactly when the email is empty or does not match; otherwise pushes /signup/password with no params |
| `SignupEmail.HandleNextForwarding` | app/signup/email.tsx:15 | corrected step: same check, and the push carries the email plus every param the step received |
| `SignupEmail.NextDisabled` | app/signup/email.tsx:79 | the Next button is disabled exactly when handleNext would reject |
| `SignupEmail.EmptyOrWhitespaceRejected` | app/signup/email.tsx:11 | the empty string and any string with whitespace are rejected with the alert |
| `SignupEmail.SameRuleAsLogin` | app/signup/email.tsx:11 | the step accepts exactly the emails that match the login screen's pattern |
| `SignupPassword.CheckPasswords` | app/signup/password.tsx:19-33 | in order: an empty field, then a mismatch, then a length under 6; passes exactly when both fields are equal, non-empty and at least 6 long |
| `SignupPassword.MismatchBeforeLength` | app/signup/password.tsx:25-33 | two different short passwords report the mismatch, not the length |
| `SignupPassword.Requirements` | app/signup/password.tsx:150-184 | the four icons are ticked exactly for length at least 6, an ASCII a-z, an ASCII A-Z, a digit 0-9 |
| `SignupPassword.RequirementTexts` | app/signup/password.tsx:150-185 | the text colours are green exactly for length at least 6, an ASCII a-z, an ASCII A-Z, a digit 0-9 |
| `SignupPassword.SignupCall` | app/signup/password.tsx:17-38 | `signup` receives the typed password, and the email and names from the route params, each absent exactly when the param was not passed |
| `SignupPassword.TextGuardRedundant` | app/signup/password.tsx:165-185 | the extra `length >= 1` guard on the text colours never changes them |
| `SignupPassword.OnlyLengthEnforced` | app/signup/password.tsx:30-38 | with equal non-empty fields, signup is reached exactly when the length item is ticked |
| `SignupPassword.IndicatorsDoNotBlock` | app/signup/password.tsx:30-38 | passwords with no letter, or with no capital and no digit, still pass |
| `SignupPassword.PasswordScreen.constructor` | app/signup/password.tsx:9-17 | the screen keeps the route params it was opened with; empty fields, not loading |
| `SignupPassword.PasswordScreen.SetPassword` | app/signup/password.tsx:90 | the text input replaces the password |
| `SignupPassword.PasswordScreen.SetConfirmPassword` | app/signup/password.tsx:123 | the text input replaces the confirmation |
| `SignupPassword.PasswordScreen.ToggleShowPassword` | app/signup/password.tsx:103 | flips password visibility |
| `SignupPassword.PasswordScreen.ToggleShowConfirmPassword` | app/signup/password.tsx:136 | flips confirmation visibility |
| `SignupPassword.PasswordScreen.HandleSignUp` | app/signup/password.tsx:19-45 | a failed check alerts and leaves the flag, the log and the session alone; otherwise signup runs, with the params' email and names, inside set/clear of isLoading; a throw alerts "Signup Error"; a resolved call logs in |
| `SignupPassword.PasswordScreen.SignUpWhileLoading` | app/signup/password.tsx:35-44 | signup runs with the params' email and names while the flag is set, and the flag is cleared after it; a throw alerts "Signup Error"; only a resolved call logs in |
| `SignupFlow.AsWrittenDropsDetails` | app/signup/email.tsx:15 | through the steps as written, signup receives no email and no names |
| `SignupFlow.AsWrittenExample` | app/signup/email.tsx:15 | "Jo", "Doe", "jo@x.io" are all accepted, and signup still receives no email |
| `SignupFlow.ForwardingReachesSignup` | app/signup/password.tsx:17-38 | with the corrected email step, signup receives exactly the email and names that were typed |
| `Selection.RemoveAll` | app/onboarding/fitness-goals.tsx:29 | `filter` removes every occurrence of the id and keeps every other element |
| `Selection.Toggle` | app/onboarding/fitness-goals.tsx:27-33 | after a toggle the id is present exactly when it was absent before; other ids keep their membership; an absent id is appended at the end |
| `Selection.RemoveAllAppend` | app/onboarding/fitness-goals.tsx:29 | filtering distributes over concatenation |
| `Selection.RemoveAbsent` | app/onboarding/fitness-goals.tsx:29 | filtering out an absent id changes nothing |
| `Selection.RemoveAllIdempotent` | app/onboarding/fitness-goals.tsx:29 | filtering twice is the same as filtering once |
| `Selection.RemoveAllKeepsNoDuplicates` | app/onboarding/fitness-goals.tsx:29 | filtering keeps a list free of duplicates |
| `Selection.ToggleKeepsNoDuplicates` | app/onboarding/fitness-goals.tsx:27-33 | a toggle keeps a list free of duplicates, so lists that start from [] never get any |
| `Selection.ToggleKeepsOthers` | app/onboarding/fitness-goals.tsx:27-33 | a toggle leaves the other ids and their relative order unchanged |
| `Selection.TogglePresentRemovesAll` | app/onboarding/fitness-goals.tsx:28-29 | toggling a present id removes every occurrence of it, so the list gets shorter |
| `Selection.RemoveAllShorter` | app/onboarding/fitness-goals.tsx:29 | filtering a present id shortens the list |
| `Selection.ToggleTwiceRestores` | app/onboarding/fitness-goals.tsx:27-33 | toggling an absent id twice restores the list |
| `Selection.ToggleTwiceMovesToEnd` | app/onboarding/fitness-goals.tsx:27-33 | toggling a present id twice moves it to the end |
| `PersonalInfo.PersonalInfoScreen.constructor` | app/onboarding/personal-info.tsx:7-10 | empty names and date, gender unset |
| `PersonalInfo.PersonalInfoScreen.SetFirstName` | app/onboarding/personal-info.tsx:61 | the text input replaces the first name |
| `PersonalInfo.PersonalInfoScreen.SetLastName` | app/onboarding/personal-info.tsx:75 | the text input replaces the last name |
| `PersonalInfo.PersonalInfoScreen.SetDateOfBirth` | app/onboarding/personal-info.tsx:89 | the date is free text, stored as typed |
| `PersonalInfo.PersonalInfoScreen.SetGender` | app/onboarding/personal-info.tsx:101-128 | each press replaces the previous gender choice |
| `PersonalInfo.PersonalInfoScreen.HandleNext` | app/onboarding/personal-info.tsx:14-20 | pushes /onboarding/fitness-goals exactly when the names and date are non-empty and a gender is set; otherwise alerts |
| `PersonalInfo.PersonalInfoScreen.HandleSkip` | app/onboarding/personal-info.tsx:22-24 | always pushes /onboarding/fitness-goals, whatever the fields hold |
| `PersonalInfo.NextAgreesWithSkip` | app/onboarding/personal-info.tsx:14-24 | an accepted Next goes where Skip goes |
| `FitnessGoals.FitnessGoalsScreen.constructor` | app/onboarding/fitness-goals.tsx:7-8 | no goals and no level |
| `FitnessGoals.FitnessGoalsScreen.ToggleGoal` | app/onboarding/fitness-goals.tsx:27-33 | the toggled list replaces the goals and stays free of duplicates; the level is untouched |
| `FitnessGoals.FitnessGoalsScreen.SelectExperience` | app/onboarding/fitness-goals.tsx:35-37 | overwrites the single level |
| `FitnessGoals.FitnessGoalsScreen.HandleNext` | app/onboarding/fitness-goals.tsx:39-45 | pushes /onboarding/health-metrics exactly when a goal is selected and a level is set; otherwise alerts |
| `HealthMetrics.HealthMetricsScreen.constructor` | app/onboarding/health-metrics.tsx:7-10 | empty height, weight and injuries; level unset |
| `HealthMetrics.HealthMetricsScreen.SetHeight` | app/onboarding/health-metrics.tsx:70 | stored as typed, never parsed |
| `HealthMetrics.HealthMetricsScreen.SetWeight` | app/onboarding/health-metrics.tsx:85 | stored as typed, never parsed |
| `HealthMetrics.HealthMetricsScreen.SetActivityLevel` | app/onboarding/health-metrics.tsx:102 | each press replaces the previous level |
| `HealthMetrics.HealthMetricsScreen.SetInjuries` | app/onboarding/health-metrics.tsx:129 | changing the injuries text never changes what Next does |
| `HealthMetrics.HealthMetricsScreen.HandleNext` | app/onboarding/health-metrics.tsx:22-28 | pushes /onboarding/workout-preferences exactly when height and weight are non-empty and a level is set; otherwise alerts |
| `WorkoutPreferences.WorkoutPreferencesScreen.constructor` | app/onboarding/workout-preferences.tsx:7-9 | empty lists, no time |
| `WorkoutPreferences.WorkoutPreferencesScreen.ToggleWorkoutType` | app/onboarding/workout-preferences.tsx:38-44 | toggles only the workout types, which stay free of duplicates |
| `WorkoutPreferences.WorkoutPreferencesScreen.ToggleEquipment` | app/onboarding/workout-preferences.tsx:46-52 | toggles only the equipment, which stays free of duplicates |
| `WorkoutPreferences.WorkoutPreferencesScreen.SetPreferredTime` | app/onboarding/workout-preferences.tsx:127 | each press replaces the previous time |
| `WorkoutPreferences.WorkoutPreferencesScreen.HandleNext` | app/onboarding/workout-preferences.tsx:54-60 | pushes /onboarding/nutrition-preferences exactly when a workout type is selected and a time is set; equipment plays no part |
| `WorkoutPreferences.NoExclusiveEquipment` | app/onboarding/workout-preferences.tsx:29-36 | 'none' and 'all' can be selected together |
| `NutritionPreferences.Decremented` | app/onboarding/nutrition-preferences.tsx:110 | minus lowers the goal by one but never below 1 |
| `NutritionPreferences.Incremented` | app/onboarding/nutrition-preferences.tsx:123 | plus raises the goal by one but never above 16 |
| `NutritionPreferences.PressesStayInRange` | app/onboarding/nutrition-preferences.tsx:108-126 | any sequence of presses keeps a goal in [1, 16] |
| `NutritionPreferences.ClampsAtBounds` | app/onboarding/nutrition-preferences.tsx:110-123 | minus at 1 and plus at 16 change nothing |
| `NutritionPreferences.NutritionPreferencesScreen.constructor` | app/onboarding/nutrition-preferences.tsx:7-10 | no diets, a goal of 8, tracking on |
| `NutritionPreferences.NutritionPreferencesScreen.ToggleDietary` | app/onboarding/nutrition-preferences.tsx:25-31 | toggles the diets, which stay free of duplicates |
| `NutritionPreferences.NutritionPreferencesScreen.DecrementWater` | app/onboarding/nutrition-preferences.tsx:110 | applies the minus clamp; the goal stays in [1, 16] |
| `NutritionPreferences.NutritionPreferencesScreen.IncrementWater` | app/onboarding/nutrition-preferences.tsx:123 | applies the plus clamp; the goal stays in [1, 16] |
| `NutritionPreferences.NutritionPreferencesScreen.SetTrackNutrition` | app/onboarding/nutrition-preferences.tsx:140-142 | the switch is the only writer of trackNutrition |
| `NutritionPreferences.NutritionPreferencesScreen.HandleNext` | app/onboarding/nutrition-preferences.tsx:33-36 | always pushes /onboarding/completion, with no validation |
| `OnboardingFlow.HandleFinish` | app/onboarding/completion.tsx:9-13 | Finish replaces the route with /(tabs)/index |
| `OnboardingFlow.ChainIsFollowed` | app/onboarding/personal-info.tsx:19 | when each form is accepted, the steps push fitness-goals, health-metrics, workout-preferences, nutrition-preferences and completion, in that order |

## Findings

| source | as written | input that shows it | evidently intended | confidence | as-written member | corrected member |
|---|---|---|---|---|---|---|
| app/signup/email.tsx:15 | the email step pushes `/signup/password` with no params, so the password step reads `email`, `firstName` and `lastName` (app/signup/password.tsx:17) as undefined and passes them to `signup` | names "Jo" and "Doe", email "jo@x.io" | forward the names it received together with the email, as the comment at app/signup/password.tsx:37 expects | high (not executed) | `SignupFlow.AsWrittenDropsDetails` | `SignupFlow.ForwardingReachesSignup` |

The screen models use the step as written (`SignupEmail.HandleNext`). The
corrected step (`SignupEmail.HandleNextForwarding`) is what the flow lemma
`SignupFlow.ForwardingReachesSignup` uses. The provider's `signup` ignores its
arguments anyway, so the lost values have no further effect on the session.

## Left out

- Layout, styles, icons, gradients and the login animations: presentation only.
- Concurrency. Each handler runs to completion as one atomic step, and an awaited call is a `CallResult` parameter. Buttons are `disabled={isLoading}`, so a screen's handler `requires Valid()`, which includes `!isLoading`. Presses that arrive while a call is still pending are not modelled.
- `Alert`, `alert` and expo-router are not modelled as libraries. Handlers return `Outcome` values instead. The global `alert(msg)` is `Alert(None, msg)`, whatever title the runtime gives it.
- Login.LoginScreen.HandleGoogleSignIn: says nothing about the session. `signInWithGoogle` is read from the context, but the provider never puts it there (components/auth-provider.tsx:64). The real call is therefore undefined, and calling it throws. The model treats it as an opaque call that may throw.
- Login.LoginScreen.HandleAppleSignIn: says nothing about the session, for the same reason.
- The provider's `login` and `signup` never throw, and they ignore their arguments. `HandleLogin` and `HandleSignUp` still take a `CallResult`, so the screens' catch branches are modelled. The session is written only when the call resolves.
- String lengths. JavaScript counts UTF-16 code units. The model counts Dafny characters, which are Unicode scalar values. So a character outside the Basic Multilingual Plane counts once here but twice in `password.length`. The `\S` and the character classes are not affected.
- An error thrown without a `message` is treated as one whose message is empty. Both show the fallback text.
- The toggles read the list the handler closed over, not a functional update. With one press at a time the result is the same.
- `router` is assumed stable, so the provider's redirect effect re-runs only when `isLoggedIn` changes. React's development-mode double run of effects is not modelled.
- The allergies field of the nutrition step has no setter in the code, so it is not modelled.
- JavaScript numbers are modelled as integers. The water goal only ever holds integers.
- The `handleBack` of each onboarding step is the one `Navigation.HandleBack`.
- lib/supabase.js, app/auth-callback.tsx, the layouts, the theme and the tab screens are not part of this model. They are configuration, static data and display code.
