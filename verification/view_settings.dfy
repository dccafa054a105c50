/** The view-settings reducer and the hook around it
    (front/src/lib/hooks/settings/useViewSettings.ts). */
module ViewSettingsReducer {
  import opened Wrappers
  import Reducers

  /** Length of the displayed window and its frequency range; the upper
      bound may be null. */
  datatype ViewSettings = ViewSettings(duration: real, minFreq: real, maxFreq: Option<real>)

  /** An action `type` the reducer's switch has no case for. */
  type UnknownActionName = s: string | s !in {"setAll", "setDuration", "setMinFreq", "setMaxFreq", "reset"} witness ""

  /** ViewSettingsAction, plus any other `type` a caller may dispatch at
      run time. */
  datatype ViewSettingsAction =
    | SetAll(settings: ViewSettings)
    | SetDuration(duration: real)
    | SetMinFreq(minFreq: real)
    | SetMaxFreq(maxFreq: real)
    | Reset
    | UnknownAction(kind: UnknownActionName)

  /** The errors the reducer throws. */
  datatype ReducerError =
    | NegativeDuration
    | NegativeMinFreq
    | NegativeMaxFreq
    | UnknownActionType(kind: string)

  /** The text of each thrown error. */
  function Message(e: ReducerError): (m: string)
    ensures e.NegativeDuration? ==> m == "Window size must be non-negative"
    ensures e.NegativeMinFreq? ==> m == "Minimum frequency must be non-negative"
    ensures e.NegativeMaxFreq? ==> m == "Maximum frequency must be non-negative"
    ensures e.UnknownActionType? ==> m == "Unknown action: " + e.kind
  {
    match e
    case NegativeDuration => "Window size must be non-negative"
    case NegativeMinFreq => "Minimum frequency must be non-negative"
    case NegativeMaxFreq => "Maximum frequency must be non-negative"
    case UnknownActionType(kind) => "Unknown action: " + kind
  }

  /** The actions the reducer refuses: a per-field setter with a negative
      value, or an action type it does not know. */
  predicate Refused(action: ViewSettingsAction) {
    || (action.SetDuration? && action.duration < 0.0)
    || (action.SetMinFreq? && action.minFreq < 0.0)
    || (action.SetMaxFreq? && action.maxFreq < 0.0)
    || action.UnknownAction?
  }

  /** Every field non-negative. The reducer's setters keep to this, but
      `setAll` does not check it. */
  predicate Valid(s: ViewSettings) {
    s.duration >= 0.0 && s.minFreq >= 0.0 && (s.maxFreq.Some? ==> s.maxFreq.value >= 0.0)
  }

  /** createViewSettingsReducer({initial}) applied to (state, action). A
      setter checks only the sign of its own value, then changes only its
      own field; `setAll` replaces the state unchecked; `reset` returns the
      captured `initial`; an unknown type throws. */
  function Reduce(initial: ViewSettings, state: ViewSettings, action: ViewSettingsAction)
    : (r: Result<ViewSettings, ReducerError>)
    ensures r.Failure? <==> Refused(action)
    ensures action.SetAll? ==> r == Success(action.settings)
    ensures action.Reset? ==> r == Success(initial)
    ensures action.UnknownAction? ==> r == Failure(UnknownActionType(action.kind))
    ensures action.SetDuration? && action.duration < 0.0 ==> r == Failure(NegativeDuration)
    ensures action.SetMinFreq? && action.minFreq < 0.0 ==> r == Failure(NegativeMinFreq)
    ensures action.SetMaxFreq? && action.maxFreq < 0.0 ==> r == Failure(NegativeMaxFreq)
    ensures action.SetDuration? && r.Success? ==>
              && r.value.duration == action.duration
              && r.value.minFreq == state.minFreq && r.value.maxFreq == state.maxFreq
    ensures action.SetMinFreq? && r.Success? ==>
              && r.value.minFreq == action.minFreq
              && r.value.duration == state.duration && r.value.maxFreq == state.maxFreq
    ensures action.SetMaxFreq? && r.Success? ==>
              && r.value.maxFreq == Some(action.maxFreq)
              && r.value.duration == state.duration && r.value.minFreq == state.minFreq
  {
    match action
    case SetAll(settings) => Success(settings)
    case SetDuration(d) =>
      if d < 0.0 then Failure(NegativeDuration) else Success(state.(duration := d))
    case SetMinFreq(f) =>
      if f < 0.0 then Failure(NegativeMinFreq) else Success(state.(minFreq := f))
    case SetMaxFreq(f) =>
      if f < 0.0 then Failure(NegativeMaxFreq) else Success(state.(maxFreq := Some(f)))
    case Reset => Success(initial)
    case UnknownAction(kind) => Failure(UnknownActionType(kind))
  }

  /** Actions applied in order; the first that throws ends the run, so a run
      throws exactly when one of its actions is refused, and then with the
      error of the first such action (a refusal does not depend on the
      state it meets). */
  function Run(initial: ViewSettings, state: ViewSettings, actions: seq<ViewSettingsAction>)
    : (r: Result<ViewSettings, ReducerError>)
    ensures r.Failure? <==> exists i :: 0 <= i < |actions| && Refused(actions[i])
    ensures r.Failure? ==> exists i ::
              && 0 <= i < |actions| && Refused(actions[i])
              && (forall j :: 0 <= j < i ==> !Refused(actions[j]))
              && r.error == Reduce(initial, state, actions[i]).error
    decreases |actions|
  {
    if |actions| == 0 then Success(state)
    else
      var next :- Reduce(initial, state, actions[0]);
      Run(initial, next, actions[1..])
  }

  /** useViewSettings on mount: without `initialSettings` the reducer starts
      from, and resets to, the default view settings. */
  function UseViewSettings(initialSettings: Option<ViewSettings>, defaults: ViewSettings)
    : (h: Reducers.Hook<ViewSettings>)
    ensures initialSettings.None? ==> h.initial == defaults && h.settings == defaults
    ensures initialSettings.Some? ==> h.initial == initialSettings.value && h.settings == initialSettings.value
  {
    var initial := initialSettings.GetOr(defaults);
    Reducers.Hook(initial, initial)
  }

  /** useViewSettings on a later render: the memoised reducer is rebuilt
      with the new `initialSettings`, which becomes the reset target, while
      the reducer's state is kept (a reducer hook reads its initial state
      only on mount). */
  function RerenderViewSettings(hook: Reducers.Hook<ViewSettings>, initialSettings: Option<ViewSettings>, defaults: ViewSettings)
    : (h: Reducers.Hook<ViewSettings>)
    ensures h.settings == hook.settings
    ensures h.initial == initialSettings.GetOr(defaults)
  {
    hook.(initial := initialSettings.GetOr(defaults))
  }

  /** `dispatch`: the hook's reducer applied to its current state. A thrown
      error yields no new state, so the hook keeps the one it had. */
  function Dispatch(hook: Reducers.Hook<ViewSettings>, action: ViewSettingsAction)
    : (r: Result<Reducers.Hook<ViewSettings>, ReducerError>)
    ensures r.Failure? <==> Refused(action)
    ensures r.Success? ==> r.value.initial == hook.initial
    ensures action.Reset? ==> r == Success(hook.(settings := hook.initial))
    ensures action.SetAll? ==> r == Success(hook.(settings := action.settings))
    ensures action.SetDuration? && action.duration >= 0.0 ==>
      r == Success(hook.(settings := hook.settings.(duration := action.duration)))
    ensures action.SetMinFreq? && action.minFreq >= 0.0 ==>
      r == Success(hook.(settings := hook.settings.(minFreq := action.minFreq)))
    ensures action.SetMaxFreq? && action.maxFreq >= 0.0 ==>
      r == Success(hook.(settings := hook.settings.(maxFreq := Some(action.maxFreq))))
    ensures r.Success? ==> r.value == hook.(settings := Reduce(hook.initial, hook.settings, action).value)
  {
    var next :- Reduce(hook.initial, hook.settings, action);
    Success(hook.(settings := next))
  }
}
