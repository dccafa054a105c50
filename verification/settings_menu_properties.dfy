/** Properties of save and reset across a session of menu events. */
module SettingsMenuProperties {
  import opened ViewSettingsReducer
  import opened ViewStore
  import opened SettingsMenu
  import opened AppViewSettings

  /** A freshly mounted page is synced with its store. */
  lemma MountedPageIsSynced<A, S, Q>(store: Store<OtherSlices<A, S, Q>>, defaults: ViewSettings)
    ensures Synced(MountPage(store, defaults))
  {
  }

  /** Saving dispatches nothing: every reducer keeps its state. */
  lemma SaveKeepsReducerStates<A, S, Q>(page: Page<A, S, Q>, defaults: ViewSettings)
    ensures var r := Step(page, Save, defaults);
      && r.audio.settings == page.audio.settings
      && r.spectrogram.settings == page.spectrogram.settings
      && r.view.settings == page.view.settings
  {
  }

  /** Resetting writes nothing to the store. */
  lemma ResetKeepsStore<A, S, Q>(page: Page<A, S, Q>, defaults: ViewSettings)
    ensures Step(page, ResetSettings, defaults).store == page.store
  {
  }

  /** Reset followed by save stores each reducer's reset target. */
  lemma ResetThenSaveStoresInitials<A, S, Q>(page: Page<A, S, Q>, defaults: ViewSettings)
    ensures var st := Step(Step(page, ResetSettings, defaults), Save, defaults).store;
      && st.viewSettings == page.view.initial
      && st.others.audioSettings == page.audio.initial
      && st.others.spectrogramSettings == page.spectrogram.initial
      && st.others.rest == page.store.others.rest
  {
  }

  /** After a save, reset brings every reducer back to the value just saved. */
  lemma ResetAfterSaveRestoresSaved<A, S, Q>(page: Page<A, S, Q>, defaults: ViewSettings)
    ensures var r := Step(Step(page, Save, defaults), ResetSettings, defaults);
      && r.view.settings == page.view.settings
      && r.audio.settings == page.audio.settings
      && r.spectrogram.settings == page.spectrogram.settings
  {
  }

  /** Each hook's reset target is its slot's saved value in the store. */
  ghost predicate Synced<A, S, Q>(page: Page<A, S, Q>) {
    && page.view.initial == page.store.viewSettings
    && page.audio.initial == page.store.others.audioSettings
    && page.spectrogram.initial == page.store.others.spectrogramSettings
  }

  /** Every menu event keeps each hook's reset target equal to the store's
      saved value: edits and resets touch neither, a save moves both to the
      same value. */
  lemma {:induction false} RunKeepsSynced<A, S, Q>(page: Page<A, S, Q>, events: seq<MenuEvent<A, S>>, defaults: ViewSettings)
    requires Synced(page)
    ensures Synced(RunSession(page, events, defaults))
    decreases |events|
  {
    if |events| > 0 {
      RunKeepsSynced(Step(page, events[0], defaults), events[1..], defaults);
    }
  }

  /** Whatever happened in the session, a reset restores every reducer to
      the last saved value held in the store. */
  lemma ResetRestoresLastSaved<A, S, Q>(page: Page<A, S, Q>, events: seq<MenuEvent<A, S>>, defaults: ViewSettings)
    requires Synced(page)
    ensures var p := RunSession(page, events, defaults);
      var r := Step(p, ResetSettings, defaults);
      && r.view.settings == p.store.viewSettings
      && r.audio.settings == p.store.others.audioSettings
      && r.spectrogram.settings == p.store.others.spectrogramSettings
  {
    RunKeepsSynced(page, events, defaults);
  }

  /** Until the first save the store and every reset target keep the value
      they started with. */
  lemma {:induction false} NoSaveKeepsResetTarget<A, S, Q>(page: Page<A, S, Q>, events: seq<MenuEvent<A, S>>, defaults: ViewSettings)
    requires forall i :: 0 <= i < |events| ==> !events[i].Save?
    ensures RunSession(page, events, defaults).view.initial == page.view.initial
    ensures RunSession(page, events, defaults).audio.initial == page.audio.initial
    ensures RunSession(page, events, defaults).spectrogram.initial == page.spectrogram.initial
    ensures RunSession(page, events, defaults).store == page.store
    decreases |events|
  {
    if |events| > 0 {
      assert forall i :: 0 <= i < |events| - 1 ==> events[1..][i] == events[i + 1];
      NoSaveKeepsResetTarget(Step(page, events[0], defaults), events[1..], defaults);
    }
  }

  /** In a fresh page over a fresh store, before any save, reset returns the
      default view settings. */
  lemma ResetBeforeSaveGivesDefaults<A, S, Q>(page: Page<A, S, Q>, events: seq<MenuEvent<A, S>>, defaults: ViewSettings)
    requires page.view == UseAppViewSettings(page.store, defaults)
    requires page.store.viewSettings == defaults
    requires forall i :: 0 <= i < |events| ==> !events[i].Save?
    ensures Step(RunSession(page, events, defaults), ResetSettings, defaults).view.settings == defaults
  {
    NoSaveKeepsResetTarget(page, events, defaults);
  }
}
