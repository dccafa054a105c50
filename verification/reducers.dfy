/** What every settings hook holds, and the audio and spectrogram reducers
    in the only form the settings menu uses them. */
module Reducers {

  /** A mounted settings hook: the value its reducer resets to, and the
      current value. */
  datatype Hook<T> = Hook(initial: T, settings: T)

  /** A settings hook mounted from a stored value: its reducer starts from,
      and resets to, that value. */
  function MountHook<T>(stored: T): (h: Hook<T>)
    ensures h.initial == stored && h.settings == stored
  {
    Hook(stored, stored)
  }

  /** A render after the stored value changed: the rebuilt reducer resets to
      the new value, the current state is kept. */
  function RerenderHook<T>(hook: Hook<T>, stored: T): (h: Hook<T>)
    ensures h.initial == stored && h.settings == hook.settings
  {
    hook.(initial := stored)
  }

  /** The two actions the settings menu sends to every settings reducer. */
  datatype BasicAction<T> = SetAll(settings: T) | Reset

  /** A settings reducer seen only through `setAll` and `reset`: the audio
      and spectrogram reducers, whose other actions are not part of this
      model. */
  function BasicReduce<T>(initial: T, state: T, action: BasicAction<T>): (r: T)
    ensures action.SetAll? ==> r == action.settings
    ensures action.Reset? ==> r == initial
  {
    match action
    case SetAll(s) => s
    case Reset => initial
  }

  function BasicDispatch<T>(hook: Hook<T>, action: BasicAction<T>): (h: Hook<T>)
    ensures h.initial == hook.initial
    ensures h.settings == BasicReduce(hook.initial, hook.settings, action)
  {
    hook.(settings := BasicReduce(hook.initial, hook.settings, action))
  }
}
