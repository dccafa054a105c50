/** Properties of the view slice's setter. */
module ViewStoreProperties {
  import opened Wrappers
  import opened ViewSettingsReducer
  import opened ViewStore

  /** The last write wins: an earlier save leaves no trace. */
  lemma LastWriteWins<R>(store: Store<R>, first: ViewSettings, second: ViewSettings)
    ensures SetViewSettings(SetViewSettings(store, first), second) == SetViewSettings(store, second)
  {
  }

  /** Saving the same value twice is saving it once. */
  lemma SetViewSettingsIdempotent<R>(store: Store<R>, settings: ViewSettings)
    ensures SetViewSettings(SetViewSettings(store, settings), settings) == SetViewSettings(store, settings)
  {
  }

  /** No value is refused: even negative settings are stored as given. */
  lemma SaveIsUnchecked<R>(store: Store<R>)
    ensures var bad := ViewSettings(-1.0, -2.0, Some(-3.0));
      !Valid(bad) && SetViewSettings(store, bad).viewSettings == bad
  {
  }
}
