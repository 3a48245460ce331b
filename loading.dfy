/**
 * The `isLoading` protocol shared by the login and password screens: set the
 * flag, await the call, and clear the flag in `finally`, whether the call
 * resolved or threw. A screen records every `setIsLoading` and every call it
 * makes, in order, as Events.
 */
module Loading {
  import opened Wrappers

  /** The calls a screen awaits, with the arguments it passes. */
  datatype Call =
    | SignIn(email: string, password: string)
    | GoogleSignIn
    | AppleSignIn
    | CreateAccount(accountEmail: Option<string>, accountPassword: string, firstName: Option<string>, lastName: Option<string>)

  datatype Event = SetLoading(on: bool) | Invoke(call: Call)

  /** One guarded call: `setIsLoading(true)`, the call, then `setIsLoading(false)` in `finally`. */
  function Bracket(call: Call): (events: seq<Event>)
    ensures |events| == 3 && events[1] == Invoke(call)
    ensures events[0] == SetLoading(true) && events[2] == SetLoading(false)
  {
    [SetLoading(true), Invoke(call), SetLoading(false)]
  }

  /** A log made only of complete guarded calls. */
  ghost predicate WellBracketed(log: seq<Event>)
    decreases |log|
  {
    log == [] || (|log| >= 3 && log[1].Invoke? && log[..3] == Bracket(log[1].call) && WellBracketed(log[3..]))
  }

  lemma {:induction false} BracketExtends(log: seq<Event>, call: Call)
    requires WellBracketed(log)
    ensures WellBracketed(log + Bracket(call))
    decreases |log|
  {
    if log == [] {
      assert log + Bracket(call) == Bracket(call);
      assert Bracket(call)[3..] == [];
    } else {
      assert (log + Bracket(call))[..3] == log[..3];
      assert (log + Bracket(call))[3..] == log[3..] + Bracket(call);
      BracketExtends(log[3..], call);
    }
  }

  /** In such a log every call ran with the flag set, and the flag was cleared right after it. */
  lemma {:induction false} CallsRunWhileLoading(log: seq<Event>, i: int)
    requires WellBracketed(log)
    requires 0 <= i < |log| && log[i].Invoke?
    ensures 0 < i < |log| - 1
    ensures log[i - 1] == SetLoading(true) && log[i + 1] == SetLoading(false)
    decreases |log|
  {
    if i >= 3 {
      assert log[3..][i - 3] == log[i];
      CallsRunWhileLoading(log[3..], i - 3);
      assert log[3..][i - 4] == log[i - 1] && log[3..][i - 2] == log[i + 1];
    } else {
      assert log[..3] == Bracket(log[1].call);
      assert log[..3][i] == log[i];
    }
  }

  /** A non-empty such log ends with the flag cleared. */
  lemma {:induction false} EndsNotLoading(log: seq<Event>)
    requires WellBracketed(log) && log != []
    ensures log[|log| - 1] == SetLoading(false)
    decreases |log|
  {
    if |log| == 3 {
      assert log == log[..3];
    } else {
      assert log[3..] != [];
      EndsNotLoading(log[3..]);
      assert log[3..][|log| - 4] == log[|log| - 1];
    }
  }
}
