/** The control-bar button that turns subtitles on and off. */
module SubtitleButton {
  import opened Wrappers
  import opened VideoStateContext

  /** `toggle`: a selector returning only the negated `isSubtitleDisabled`. */
  function Toggle(prev: TrackState): TrackPatch {
    EmptyPatch().(isSubtitleDisabled := Some(!prev.isSubtitleDisabled))
  }

  /** Through the store's overlay, a toggle flips the flag and nothing else. */
  lemma ToggleFlipsOnlyFlag(s: TrackState)
    ensures Overlay(s, Toggle(s)) == s.(isSubtitleDisabled := !s.isSubtitleDisabled)
  {
  }

  /** Two toggles give back the state. */
  lemma ToggleTwiceRestores(s: TrackState)
    ensures var t := Overlay(s, Toggle(s)); Overlay(t, Toggle(t)) == s
  {
    ToggleFlipsOnlyFlag(s);
    ToggleFlipsOnlyFlag(Overlay(s, Toggle(s)));
  }

  /** The button's tooltip, or `None` (`null`, no button) when there are no subtitle tracks. */
  function ButtonTooltip(s: TrackState, enableText: string, disableText: string): (t: Option<string>)
    ensures t.None? <==> |s.subtitles| == 0
    ensures t.Some? && s.isSubtitleDisabled ==> t.value == enableText
    ensures t.Some? && !s.isSubtitleDisabled ==> t.value == disableText
  {
    if |s.subtitles| == 0 then None
    else Some(if s.isSubtitleDisabled then enableText else disableText)
  }

  /** Two clicks on the button leave the store as it was, storage entry included. */
  method ClickTwice(store: TrackStore)
    requires store.stored == Some(SaveBlob(store.state))
    modifies store
    ensures store.state == old(store.state) && store.stored == old(store.stored)
  {
    store.UpdateState(Toggle);
    store.UpdateState(Toggle);
    ToggleTwiceRestores(old(store.state));
  }
}
