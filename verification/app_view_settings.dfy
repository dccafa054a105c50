/** The application's view-settings hook: the base hook seeded from the
    store (front/src/app/hooks/settings/useViewSettings.ts). */
module AppViewSettings {
  import opened Wrappers
  import opened ViewSettingsReducer
  import opened ViewStore
  import Reducers

  /** Mounting: the reducer starts from, and resets to, the store's current
      view settings. `defaults` stands for the base hook's own default,
      which is never used here because a value is always passed. */
  function UseAppViewSettings<R>(store: Store<R>, defaults: ViewSettings): (h: Reducers.Hook<ViewSettings>)
    ensures h.initial == store.viewSettings
    ensures h.settings == store.viewSettings
  {
    UseViewSettings(Some(store.viewSettings), defaults)
  }

  /** A render after the store changed: the reset target follows the store,
      the current settings stay as they are. */
  function RerenderAppViewSettings<R>(store: Store<R>, hook: Reducers.Hook<ViewSettings>, defaults: ViewSettings)
    : (h: Reducers.Hook<ViewSettings>)
    ensures h.initial == store.viewSettings
    ensures h.settings == hook.settings
  {
    RerenderViewSettings(hook, Some(store.viewSettings), defaults)
  }
}
