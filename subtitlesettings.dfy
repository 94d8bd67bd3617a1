/**
  The subtitle appearance settings: defaults, the host's overrides, updates,
  and the whole record restored from and written back to browser storage
  (an input value here).
 */
module SubtitleSettingsContext {
  import opened Wrappers

  datatype TextStyle = NoStyle | Outline

  datatype SubtitleSettings = SubtitleSettings(
    fontSize: string,
    backgroundOpacity: real,
    textStyle: TextStyle,
    fontOpacity: real)

  function DefaultSubtitleSettings(): SubtitleSettings {
    SubtitleSettings(fontSize := "1.5rem", backgroundOpacity := 0.75, textStyle := NoStyle, fontOpacity := 1.0)
  }

  /** A `Partial<SubtitleSettings>`. */
  datatype SettingsPatch = SettingsPatch(
    fontSize: Option<string>,
    backgroundOpacity: Option<real>,
    textStyle: Option<TextStyle>,
    fontOpacity: Option<real>)

  /** `{ ...s, ...p }`. */
  function Overlay(s: SubtitleSettings, p: SettingsPatch): (r: SubtitleSettings)
    ensures r.fontSize == p.fontSize.GetOr(s.fontSize)
    ensures r.backgroundOpacity == p.backgroundOpacity.GetOr(s.backgroundOpacity)
    ensures r.textStyle == p.textStyle.GetOr(s.textStyle)
    ensures r.fontOpacity == p.fontOpacity.GetOr(s.fontOpacity)
  {
    SubtitleSettings(
      p.fontSize.GetOr(s.fontSize), p.backgroundOpacity.GetOr(s.backgroundOpacity),
      p.textStyle.GetOr(s.textStyle), p.fontOpacity.GetOr(s.fontOpacity))
  }

  /** The initial state: the defaults, overridden key by key by the host's `defaultState` (by default `{}`). */
  function InitialSettings(defaultState: Option<SettingsPatch>): SubtitleSettings {
    Overlay(DefaultSubtitleSettings(), defaultState.GetOr(SettingsPatch(None, None, None, None)))
  }

  /** Without overrides the initial state is the defaults; with them, each key the host gives wins. */
  lemma InitialSettingsPrecedence(defaultState: Option<SettingsPatch>)
    ensures defaultState.None? ==> InitialSettings(defaultState) == DefaultSubtitleSettings()
    ensures defaultState.Some? ==>
              var p := defaultState.value;
              InitialSettings(defaultState) ==
              SubtitleSettings(p.fontSize.GetOr("1.5rem"), p.backgroundOpacity.GetOr(0.75), p.textStyle.GetOr(NoStyle),
                               p.fontOpacity.GetOr(1.0))
  {
  }

  /** Overlaying the very keys a state already has changes nothing. */
  lemma OverlaySameValues(s: SubtitleSettings)
    ensures Overlay(s, SettingsPatch(Some(s.fontSize), Some(s.backgroundOpacity), Some(s.textStyle), Some(s.fontOpacity))) == s
  {
  }

  class SubtitleSettingsStore {
    var state: SubtitleSettings
    /** The storage entry under `netplayer_subtitle_settings`, parsed. */
    var stored: Option<SubtitleSettings>

    /**
      Mounting the provider: the initial state, replaced outright by a stored
      record when there is one, and the result written back.
     */
    constructor(defaultState: Option<SettingsPatch>, stored: Option<SubtitleSettings>)
      ensures stored.Some? ==> state == stored.value
      ensures stored.None? ==> state == InitialSettings(defaultState)
      ensures this.stored == Some(state)
    {
      var initial := InitialSettings(defaultState);
      if stored.Some? {
        initial := stored.value;
      }
      state := initial;
      this.stored := Some(initial);
    }

    /** `updateState(selector)` and the save effect that follows it. */
    method UpdateState(selector: SubtitleSettings -> SettingsPatch)
      modifies this
      ensures state == Overlay(old(state), selector(old(state)))
      ensures stored == Some(state)
    {
      state := Overlay(state, selector(state));
      stored := Some(state);
    }
  }
}
