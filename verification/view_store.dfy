/** The process-wide store's view slice: the last saved view settings
    (front/src/app/store/view.ts). */
module ViewStore {
  import opened ViewSettingsReducer

  /** The store as the view slice sees it: its own field, and every other
      slice's state, which it never reads. */
  datatype Store<R> = Store(viewSettings: ViewSettings, others: R)

  /** createViewSlice: the store starts out holding the default view
      settings. */
  function CreateViewSlice<R>(defaults: ViewSettings, others: R): (s: Store<R>)
    ensures s.viewSettings == defaults
    ensures s.others == others
  {
    Store(defaults, others)
  }

  /** setViewSettings: the argument replaces the saved value unchecked; the
      spread keeps every other field. */
  function SetViewSettings<R>(store: Store<R>, settings: ViewSettings): (s: Store<R>)
    ensures s.viewSettings == settings
    ensures s.others == store.others
  {
    store.(viewSettings := settings)
  }
}
