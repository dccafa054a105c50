/** The spectrogram settings menu: save, reset and form edits wired to the
    three settings reducers and the store
    (front/src/app/components/spectrograms/SettingsMenu.tsx). */
module SettingsMenu {
  import opened Wrappers
  import opened ViewSettingsReducer
  import opened ViewStore
  import opened AppViewSettings
  import Reducers

  /** The store's other slices as the menu uses them: the saved audio and
      spectrogram settings, and everything else. */
  datatype OtherSlices<A, S, Q> = OtherSlices(audioSettings: A, spectrogramSettings: S, rest: Q)

  /** What the menu works on: the store and the three mounted settings
      hooks (audio, spectrogram, view). */
  datatype Page<A, S, Q> = Page(
    store: Store<OtherSlices<A, S, Q>>,
    audio: Reducers.Hook<A>,
    spectrogram: Reducers.Hook<S>,
    view: Reducers.Hook<ViewSettings>)

  /** A whole new value submitted by one of the three settings forms. */
  datatype FormChange<A, S> = AudioChanged(audio: A) | SpectrogramChanged(spectrogram: S) | ViewChanged(view: ViewSettings)

  datatype MenuEvent<A, S> = Save | ResetSettings | Change(change: FormChange<A, S>)

  /** One action dispatched to one of the three reducers. */
  datatype Dispatched<A, S> =
    | ToAudio(audioAction: Reducers.BasicAction<A>)
    | ToSpectrogram(spectrogramAction: Reducers.BasicAction<S>)
    | ToView(viewAction: ViewSettingsAction)

  predicate IsReset<A, S>(d: Dispatched<A, S>) {
    match d
    case ToAudio(a) => a.Reset?
    case ToSpectrogram(s) => s.Reset?
    case ToView(v) => v.Reset?
  }

  /** handleReset: one `reset` to each reducer, spectrogram first. */
  function ResetDispatches<A, S>(): (ds: seq<Dispatched<A, S>>)
    ensures |ds| == 3
    ensures forall i :: 0 <= i < |ds| ==> IsReset(ds[i])
    ensures ds[0].ToSpectrogram? && ds[1].ToAudio? && ds[2].ToView?
  {
    [ToSpectrogram(Reducers.Reset), ToAudio(Reducers.Reset), ToView(Reset)]
  }

  /** onXSettingsChange: the whole value, as `setAll`, to the matching reducer. */
  function ChangeDispatch<A, S>(change: FormChange<A, S>): (d: Dispatched<A, S>)
    ensures change.AudioChanged? <==> d.ToAudio?
    ensures change.SpectrogramChanged? <==> d.ToSpectrogram?
    ensures change.ViewChanged? <==> d.ToView?
    ensures d.ToAudio? ==> d.audioAction == Reducers.SetAll(change.audio)
    ensures d.ToSpectrogram? ==> d.spectrogramAction == Reducers.SetAll(change.spectrogram)
    ensures d.ToView? ==> d.viewAction == SetAll(change.view)
  {
    match change
    case AudioChanged(a) => ToAudio(Reducers.SetAll(a))
    case SpectrogramChanged(s) => ToSpectrogram(Reducers.SetAll(s))
    case ViewChanged(v) => ToView(SetAll(v))
  }

  /** The dispatches a menu event performs, in order; saving performs none. */
  function MenuDispatches<A, S>(ev: MenuEvent<A, S>): seq<Dispatched<A, S>> {
    match ev
    case Save => []
    case ResetSettings => ResetDispatches()
    case Change(c) => [ChangeDispatch(c)]
  }

  function Apply<A, S, Q>(page: Page<A, S, Q>, d: Dispatched<A, S>): Result<Page<A, S, Q>, ReducerError> {
    match d
    case ToAudio(a) => Success(page.(audio := Reducers.BasicDispatch(page.audio, a)))
    case ToSpectrogram(s) => Success(page.(spectrogram := Reducers.BasicDispatch(page.spectrogram, s)))
    case ToView(v) =>
      var view :- ViewSettingsReducer.Dispatch(page.view, v);
      Success(page.(view := view))
  }

  function ApplyAll<A, S, Q>(page: Page<A, S, Q>, ds: seq<Dispatched<A, S>>): Result<Page<A, S, Q>, ReducerError>
    decreases |ds|
  {
    if |ds| == 0 then Success(page)
    else
      var next :- Apply(page, ds[0]);
      ApplyAll(next, ds[1..])
  }

  /** A dispatch the view reducer cannot refuse. */
  predicate CannotThrow<A, S>(d: Dispatched<A, S>) {
    d.ToView? ==> !Refused(d.viewAction)
  }

  lemma {:induction false} ApplyAllSucceeds<A, S, Q>(page: Page<A, S, Q>, ds: seq<Dispatched<A, S>>)
    requires forall i :: 0 <= i < |ds| ==> CannotThrow(ds[i])
    ensures ApplyAll(page, ds).Success?
    decreases |ds|
  {
    if |ds| > 0 {
      var next := Apply(page, ds[0]).value;
      assert forall i :: 0 <= i < |ds| - 1 ==> ds[1..][i] == ds[i + 1];
      ApplyAllSucceeds(next, ds[1..]);
    }
  }

  /** The menu only ever dispatches `setAll` and `reset`: a form edit is one
      `setAll` of the whole new value to its own reducer, a reset is one
      `reset` to each reducer, and a save dispatches nothing. */
  lemma MenuDispatchShapes<A, S>(ev: MenuEvent<A, S>)
    ensures forall i :: 0 <= i < |MenuDispatches(ev)| ==> CannotThrow(MenuDispatches(ev)[i])
    ensures ev.Save? ==> MenuDispatches(ev) == []
    ensures ev.ResetSettings? ==>
              MenuDispatches(ev) == [ToSpectrogram(Reducers.Reset), ToAudio(Reducers.Reset), ToView(Reset)]
    ensures ev.Change? && ev.change.AudioChanged? ==>
              MenuDispatches(ev) == [ToAudio(Reducers.SetAll(ev.change.audio))]
    ensures ev.Change? && ev.change.SpectrogramChanged? ==>
              MenuDispatches(ev) == [ToSpectrogram(Reducers.SetAll(ev.change.spectrogram))]
    ensures ev.Change? && ev.change.ViewChanged? ==>
              MenuDispatches(ev) == [ToView(SetAll(ev.change.view))]
  {
  }

  /** handleSave: the three current values, each into its own slot of the
      store; the rest of the store is kept. */
  function HandleSave<A, S, Q>(page: Page<A, S, Q>): (store: Store<OtherSlices<A, S, Q>>)
    ensures store.viewSettings == page.view.settings
    ensures store.others.audioSettings == page.audio.settings
    ensures store.others.spectrogramSettings == page.spectrogram.settings
    ensures store.others.rest == page.store.others.rest
  {
    var withAudio := page.store.(others := page.store.others.(audioSettings := page.audio.settings));
    var withSpectrogram := withAudio.(others := withAudio.others.(spectrogramSettings := page.spectrogram.settings));
    SetViewSettings(withSpectrogram, page.view.settings)
  }

  /** One menu event: its dispatches, then for a save the store write and
      the hooks' render against the new store, which moves each reset
      target to the saved value. */
  function Step<A, S, Q>(page: Page<A, S, Q>, ev: MenuEvent<A, S>, defaults: ViewSettings): (r: Page<A, S, Q>)
    ensures ev.Save? ==>
              && r.store == HandleSave(page)
              && r.audio.settings == page.audio.settings && r.audio.initial == page.audio.settings
              && r.spectrogram.settings == page.spectrogram.settings
              && r.spectrogram.initial == page.spectrogram.settings
              && r.view.settings == page.view.settings
              && r.view.initial == page.view.settings
    ensures ev.ResetSettings? ==>
              && r.store == page.store
              && r.audio == page.audio.(settings := page.audio.initial)
              && r.spectrogram == page.spectrogram.(settings := page.spectrogram.initial)
              && r.view == page.view.(settings := page.view.initial)
    ensures ev.Change? ==>
              && r.store == page.store && r.view.initial == page.view.initial
              && r.audio.initial == page.audio.initial && r.spectrogram.initial == page.spectrogram.initial
    ensures ev.Change? && ev.change.AudioChanged? ==>
              r == page.(audio := page.audio.(settings := ev.change.audio))
    ensures ev.Change? && ev.change.SpectrogramChanged? ==>
              r == page.(spectrogram := page.spectrogram.(settings := ev.change.spectrogram))
    ensures ev.Change? && ev.change.ViewChanged? ==>
              r == page.(view := page.view.(settings := ev.change.view))
  {
    MenuDispatchShapes(ev);
    ApplyAllSucceeds(page, MenuDispatches(ev));
    var p := ApplyAll(page, MenuDispatches(ev)).value;
    if ev.Save? then
      var store := HandleSave(p);
      p.(store := store,
         audio := Reducers.RerenderHook(p.audio, store.others.audioSettings),
         spectrogram := Reducers.RerenderHook(p.spectrogram, store.others.spectrogramSettings),
         view := RerenderAppViewSettings(store, p.view, defaults))
    else p
  }

  /** A session of menu events, in order. */
  function RunSession<A, S, Q>(page: Page<A, S, Q>, events: seq<MenuEvent<A, S>>, defaults: ViewSettings): Page<A, S, Q>
    decreases |events|
  {
    if |events| == 0 then page
    else RunSession(Step(page, events[0], defaults), events[1..], defaults)
  }

  /** The page right after the app hooks mount: each hook seeded from its
      slot of the store. */
  function MountPage<A, S, Q>(store: Store<OtherSlices<A, S, Q>>, defaults: ViewSettings)
    : (page: Page<A, S, Q>)
    ensures page.store == store
    ensures page.view.initial == store.viewSettings && page.view.settings == store.viewSettings
    ensures page.audio.initial == store.others.audioSettings && page.audio.settings == store.others.audioSettings
    ensures page.spectrogram.initial == store.others.spectrogramSettings
    ensures page.spectrogram.settings == store.others.spectrogramSettings
  {
    Page(store,
         Reducers.MountHook(store.others.audioSettings),
         Reducers.MountHook(store.others.spectrogramSettings),
         UseAppViewSettings(store, defaults))
  }
}
