/** Properties of the view-settings reducer over sequences of actions. */
module ViewSettingsReducerProperties {
  import opened Wrappers
  import opened ViewSettingsReducer
  import Reducers

  /** Running `a` then `b` is running `a + b`; a throw in `a` ends both. */
  lemma {:induction false} RunAppend(initial: ViewSettings, state: ViewSettings, a: seq<ViewSettingsAction>, b: seq<ViewSettingsAction>)
    ensures Run(initial, state, a + b) ==
              match Run(initial, state, a)
              case Success(mid) => Run(initial, mid, b)
              case Failure(e) => Failure(e)
    decreases |a|
  {
    if |a| == 0 {
      assert a + b == b;
    } else {
      assert (a + b)[0] == a[0];
      assert (a + b)[1..] == a[1..] + b;
      match Reduce(initial, state, a[0])
      case Success(next) => RunAppend(initial, next, a[1..], b);
      case Failure(_) =>
    }
  }

  /** `reset` ends any run that got that far in exactly the value the
      reducer was built with, whatever setters or `setAll`s came before. */
  lemma ResetAfterAnyRun(initial: ViewSettings, state: ViewSettings, actions: seq<ViewSettingsAction>)
    requires Run(initial, state, actions).Success?
    ensures Run(initial, state, actions + [Reset]) == Success(initial)
  {
    RunAppend(initial, state, actions, [Reset]);
    assert [Reset][1..] == [];
  }

  predicate Accepted(action: ViewSettingsAction) {
    !Refused(action)
  }

  /** A run that only uses `setAll`, `reset` and non-negative setters
      never throws. */
  lemma {:induction false} AcceptedRunSucceeds(initial: ViewSettings, state: ViewSettings, actions: seq<ViewSettingsAction>)
    requires forall i :: 0 <= i < |actions| ==> Accepted(actions[i])
    ensures Run(initial, state, actions).Success?
    decreases |actions|
  {
    if |actions| > 0 {
      var next := Reduce(initial, state, actions[0]).value;
      assert forall i :: 0 <= i < |actions| - 1 ==> actions[1..][i] == actions[i + 1];
      AcceptedRunSucceeds(initial, next, actions[1..]);
    }
  }

  /** Non-negativity is an invariant of every run from valid values, as
      long as each `setAll` brings valid settings: the setters cannot break
      it, and `reset` returns to a valid initial value. */
  lemma {:induction false} RunPreservesValid(initial: ViewSettings, state: ViewSettings, actions: seq<ViewSettingsAction>)
    requires Valid(initial) && Valid(state)
    requires forall i :: 0 <= i < |actions| && actions[i].SetAll? ==> Valid(actions[i].settings)
    requires Run(initial, state, actions).Success?
    ensures Valid(Run(initial, state, actions).value)
    decreases |actions|
  {
    if |actions| > 0 {
      var next := Reduce(initial, state, actions[0]).value;
      assert forall i :: 0 <= i < |actions| - 1 ==> actions[1..][i] == actions[i + 1];
      RunPreservesValid(initial, next, actions[1..]);
    }
  }

  /** Only the sign is checked: a minimum frequency above the maximum is
      accepted. */
  lemma MinAboveMaxAccepted(initial: ViewSettings, state: ViewSettings, f: real)
    requires f >= 0.0
    ensures Reduce(initial, state, SetMinFreq(f)) == Success(state.(minFreq := f))
  {
  }

  /** A negative duration throws before anything is written: the hook gets
      no new state. */
  lemma NegativeDurationThrows(hook: Reducers.Hook<ViewSettings>, d: real)
    requires d < 0.0
    ensures Dispatch(hook, SetDuration(d)) == Failure(NegativeDuration)
    ensures Message(NegativeDuration) == "Window size must be non-negative"
  {
  }

  /** Each error has its own message, so the thrown text tells the caller
      which check failed (and, for an unknown action, which type). */
  lemma MessagesDistinguishErrors(e1: ReducerError, e2: ReducerError)
    requires e1 != e2
    ensures Message(e1) != Message(e2)
  {
    var m1, m2 := Message(e1), Message(e2);
    if e1.UnknownActionType? && e2.UnknownActionType? {
      var prefix := "Unknown action: ";
      assert |m1| - |prefix| != |m2| - |prefix| || exists i :: 0 <= i < |e1.kind| && e1.kind[i] != e2.kind[i] by {
        if |e1.kind| == |e2.kind| {
          var i :| 0 <= i < |e1.kind| && e1.kind[i] != e2.kind[i];
        }
      }
      if |m1| == |m2| {
        var i :| 0 <= i < |e1.kind| && e1.kind[i] != e2.kind[i];
        assert m1[|prefix| + i] == e1.kind[i];
        assert m2[|prefix| + i] == e2.kind[i];
      }
    } else if e1.NegativeMinFreq? || e2.NegativeMinFreq? {
      if e1.NegativeMaxFreq? || e2.NegativeMaxFreq? {
        assert m1[1] != m2[1];
      } else {
        assert m1[0] != m2[0];
      }
    } else {
      assert m1[0] != m2[0];
    }
  }
}
