/**
  The track-selection store: which subtitles, qualities and audio tracks exist
  and which are selected. The persisted selections are an input value (the
  parsed browser storage entry, or `None` when there is none).
 */
module VideoStateContext {
  import opened Wrappers
  import opened Types
  import opened Utils

  /** `null` and `undefined` selections are both `None`. */
  datatype TrackState = TrackState(
    subtitles: seq<Subtitle>,
    qualities: seq<string>,
    currentQuality: Option<string>,
    currentSubtitle: Option<string>,
    isSubtitleDisabled: bool,
    currentAudio: Option<string>,
    audios: seq<Audio>)

  function DefaultVideoState(): TrackState {
    TrackState(
      subtitles := [], qualities := [], currentQuality := None, currentSubtitle := None,
      isSubtitleDisabled := false, currentAudio := None, audios := [])
  }

  /** A `Partial<VideoState>`: `None` for a key the object does not have. */
  datatype TrackPatch = TrackPatch(
    subtitles: Option<seq<Subtitle>>,
    qualities: Option<seq<string>>,
    currentQuality: Option<Option<string>>,
    currentSubtitle: Option<Option<string>>,
    isSubtitleDisabled: Option<bool>,
    currentAudio: Option<Option<string>>,
    audios: Option<seq<Audio>>)

  function EmptyPatch(): TrackPatch {
    TrackPatch(None, None, None, None, None, None, None)
  }

  /** `{ ...s, ...p }`: the keys `p` has replace those of `s`, the others are kept. */
  function Overlay(s: TrackState, p: TrackPatch): (r: TrackState)
    ensures r.subtitles == p.subtitles.GetOr(s.subtitles)
    ensures r.qualities == p.qualities.GetOr(s.qualities)
    ensures r.currentQuality == p.currentQuality.GetOr(s.currentQuality)
    ensures r.currentSubtitle == p.currentSubtitle.GetOr(s.currentSubtitle)
    ensures r.isSubtitleDisabled == p.isSubtitleDisabled.GetOr(s.isSubtitleDisabled)
    ensures r.currentAudio == p.currentAudio.GetOr(s.currentAudio)
    ensures r.audios == p.audios.GetOr(s.audios)
  {
    TrackState(
      p.subtitles.GetOr(s.subtitles), p.qualities.GetOr(s.qualities), p.currentQuality.GetOr(s.currentQuality),
      p.currentSubtitle.GetOr(s.currentSubtitle), p.isSubtitleDisabled.GetOr(s.isSubtitleDisabled),
      p.currentAudio.GetOr(s.currentAudio), p.audios.GetOr(s.audios))
  }

  /** One object spread over another: the keys of `q` win. */
  function Then(p: TrackPatch, q: TrackPatch): TrackPatch {
    TrackPatch(
      if q.subtitles.Some? then q.subtitles else p.subtitles,
      if q.qualities.Some? then q.qualities else p.qualities,
      if q.currentQuality.Some? then q.currentQuality else p.currentQuality,
      if q.currentSubtitle.Some? then q.currentSubtitle else p.currentSubtitle,
      if q.isSubtitleDisabled.Some? then q.isSubtitleDisabled else p.isSubtitleDisabled,
      if q.currentAudio.Some? then q.currentAudio else p.currentAudio,
      if q.audios.Some? then q.audios else p.audios)
  }

  lemma OverlayEmpty(s: TrackState)
    ensures Overlay(s, EmptyPatch()) == s
  {
  }

  /** Two overlays in a row are one overlay of the spread of the two partial objects. */
  lemma OverlayThen(s: TrackState, p: TrackPatch, q: TrackPatch)
    ensures Overlay(Overlay(s, p), q) == Overlay(s, Then(p, q))
  {
  }

  // ---------------------------------------------------------------------
  // Defaults derived from the props
  // ---------------------------------------------------------------------

  /** `sources.filter(source => source.label).map(source => source.label!)`. */
  function DefaultQualities(sources: seq<Source>): (qs: seq<string>)
    ensures |qs| <= |sources|
    ensures forall i :: 0 <= i < |qs| ==> qs[i] != ""
  {
    if |sources| == 0 then []
    else (if Labelled(sources[0]) then [sources[0].labelText.value] else []) + DefaultQualities(sources[1..])
  }

  /** The quality list of a concatenation is the concatenation of the lists: the filter keeps the source order. */
  lemma {:induction false} DefaultQualitiesConcat(a: seq<Source>, b: seq<Source>)
    ensures DefaultQualities(a + b) == DefaultQualities(a) + DefaultQualities(b)
    decreases |a|
  {
    if |a| == 0 {
      assert a + b == b;
    } else {
      assert (a + b)[1..] == a[1..] + b;
      DefaultQualitiesConcat(a[1..], b);
    }
  }

  lemma DefaultQualitiesOne(s: Source)
    ensures DefaultQualities([s]) == if Labelled(s) then [s.labelText.value] else []
  {
    assert [s][1..] == [];
  }

  /** A quality is listed exactly when some source carries it as its non-empty label. */
  lemma {:induction false} DefaultQualitiesMembers(sources: seq<Source>, q: string)
    ensures q in DefaultQualities(sources) <==>
            exists i :: 0 <= i < |sources| && Labelled(sources[i]) && sources[i].labelText.value == q
    decreases |sources|
  {
    if |sources| > 0 {
      DefaultQualitiesMembers(sources[1..], q);
      if exists i :: 0 <= i < |sources| && Labelled(sources[i]) && sources[i].labelText.value == q {
        var i :| 0 <= i < |sources| && Labelled(sources[i]) && sources[i].labelText.value == q;
        if i > 0 {
          assert sources[1..][i - 1] == sources[i];
        }
      }
      if exists i :: 0 <= i < |sources| - 1 && Labelled(sources[1..][i]) && sources[1..][i].labelText.value == q {
        var i :| 0 <= i < |sources| - 1 && Labelled(sources[1..][i]) && sources[1..][i].labelText.value == q;
        assert sources[i + 1] == sources[1..][i];
      }
    }
  }

  /** The first subtitle's `lang`, `undefined` when there is none. */
  function FirstSubtitleLang(subtitles: seq<Subtitle>): (r: Option<string>)
    ensures r.Some? <==> |subtitles| > 0
    ensures r.Some? ==> r.value == subtitles[0].lang
  {
    if |subtitles| > 0 then Some(subtitles[0].lang) else None
  }

  /** The memoised `defaultState`. */
  function DerivedDefaults(sources: seq<Source>, subtitles: seq<Subtitle>): TrackPatch {
    EmptyPatch().(
      currentSubtitle := Some(FirstSubtitleLang(subtitles)),
      subtitles := Some(subtitles),
      qualities := Some(DefaultQualities(sources)))
  }

  /** `{ ...defaultVideoState, ...defaultState, ...props.defaultVideoState }`. */
  function MergedState(sources: seq<Source>, subtitles: seq<Subtitle>, overrides: TrackPatch): TrackState {
    Overlay(Overlay(DefaultVideoState(), DerivedDefaults(sources, subtitles)), overrides)
  }

  /** The host's own defaults win over the derived ones, which win over the empty state. */
  lemma MergedStatePrecedence(sources: seq<Source>, subtitles: seq<Subtitle>, overrides: TrackPatch)
    ensures var s := MergedState(sources, subtitles, overrides);
      && s.subtitles == overrides.subtitles.GetOr(subtitles)
      && s.qualities == overrides.qualities.GetOr(DefaultQualities(sources))
      && s.currentSubtitle == overrides.currentSubtitle.GetOr(FirstSubtitleLang(subtitles))
      && s.currentQuality == overrides.currentQuality.GetOr(None)
      && s.currentAudio == overrides.currentAudio.GetOr(None)
      && s.isSubtitleDisabled == overrides.isSubtitleDisabled.GetOr(false)
      && s.audios == overrides.audios.GetOr([])
  {
  }

  // ---------------------------------------------------------------------
  // Persisted selections
  // ---------------------------------------------------------------------

  /** The parsed storage entry; a key that is missing or `null` is `None`. */
  datatype Settings = Settings(
    currentAudio: Option<string>,
    currentQuality: Option<string>,
    currentSubtitle: Option<string>,
    isSubtitleDisabled: Option<bool>)

  /** The `lang` of an audio track. */
  function AudioLang(a: Audio): string {
    a.lang
  }

  /** The `lang` of a subtitle track. */
  function SubtitleLang(t: Subtitle): string {
    t.lang
  }

  /** `tracks.map(t => t.lang)`, for audio tracks or subtitle tracks. */
  function LangList<T>(tracks: seq<T>, langOf: T -> string): (ls: seq<string>)
    ensures |ls| == |tracks| && forall i :: 0 <= i < |ls| ==> ls[i] == langOf(tracks[i])
  {
    seq(|tracks|, i requires 0 <= i < |tracks| => langOf(tracks[i]))
  }

  /**
    The `filter(a => a?.lang)` of the restore: the languages that are not
    empty, in order. Applied to the `LangList` of the audio or subtitle tracks it is
    the list a persisted audio or subtitle choice is looked up in.
   */
  function NonEmptyLangs(langs: seq<string>): (ls: seq<string>)
    ensures forall i :: 0 <= i < |ls| ==> ls[i] != ""
  {
    if |langs| == 0 then []
    else (if langs[0] != "" then [langs[0]] else []) + NonEmptyLangs(langs[1..])
  }

  /** Some track has this non-empty `lang`. */
  predicate HasLang<T>(tracks: seq<T>, langOf: T -> string, lang: string) {
    lang != "" && exists i :: 0 <= i < |tracks| && langOf(tracks[i]) == lang
  }

  /** The filter keeps exactly the non-empty languages of the list. */
  lemma {:induction false} NonEmptyLangsMembers(langs: seq<string>, lang: string)
    ensures lang in NonEmptyLangs(langs) <==> lang != "" && lang in langs
    decreases |langs|
  {
    if |langs| > 0 {
      NonEmptyLangsMembers(langs[1..], lang);
      assert langs == [langs[0]] + langs[1..];
    }
  }

  /** A persisted audio or subtitle language is accepted exactly when some track has it. */
  lemma TrackLangsMembers<T>(tracks: seq<T>, langOf: T -> string, lang: string)
    ensures lang in NonEmptyLangs(LangList(tracks, langOf)) <==> HasLang(tracks, langOf, lang)
  {
    var ls := LangList(tracks, langOf);
    NonEmptyLangsMembers(ls, lang);
    if lang in ls {
      var i :| 0 <= i < |ls| && ls[i] == lang;
    }
  }

  /** `isInArray(persisted, available) ? persisted : fallback`. */
  function Restored(persisted: Option<string>, available: seq<string>, fallback: Option<string>): Option<string> {
    if persisted.Some? && IsInArray(persisted.value, available) then persisted else fallback
  }

  /** `getState()`: the merged defaults, with each persisted selection kept when it is still available. */
  function GetState(sources: seq<Source>, subtitles: seq<Subtitle>, overrides: TrackPatch, stored: Option<Settings>)
    : TrackState
  {
    var s := MergedState(sources, subtitles, overrides);
    match stored
    case None => s
    case Some(settings) =>
      s.(currentAudio := Restored(settings.currentAudio, NonEmptyLangs(LangList(s.audios, AudioLang)), s.currentAudio),
         currentQuality := Restored(settings.currentQuality, s.qualities, s.currentQuality),
         currentSubtitle := Restored(settings.currentSubtitle, NonEmptyLangs(LangList(s.subtitles, SubtitleLang)), s.currentSubtitle))
  }

  /** Without a storage entry the merged defaults come back unchanged. */
  lemma NothingStoredGivesDefaults(sources: seq<Source>, subtitles: seq<Subtitle>, overrides: TrackPatch)
    ensures GetState(sources, subtitles, overrides, None) == MergedState(sources, subtitles, overrides)
    ensures GetState(sources, subtitles, EmptyPatch(), None) ==
            TrackState(subtitles, DefaultQualities(sources), None, FirstSubtitleLang(subtitles), false, None, [])
  {
  }

  /**
    A persisted selection is kept exactly when the merged state still offers
    it (an audio or subtitle track with that non-empty `lang`, or that
    quality); otherwise the merged default for that key is used.
   */
  lemma RestoreKeepsAvailable(sources: seq<Source>, subtitles: seq<Subtitle>, overrides: TrackPatch, settings: Settings)
    ensures var s := MergedState(sources, subtitles, overrides);
            var g := GetState(sources, subtitles, overrides, Some(settings));
      && g.currentAudio ==
         (if settings.currentAudio.Some? && HasLang(s.audios, AudioLang, settings.currentAudio.value)
          then settings.currentAudio else s.currentAudio)
      && g.currentQuality ==
         (if settings.currentQuality.Some? && settings.currentQuality.value in s.qualities
          then settings.currentQuality else s.currentQuality)
      && g.currentSubtitle ==
         (if settings.currentSubtitle.Some? && HasLang(s.subtitles, SubtitleLang, settings.currentSubtitle.value)
          then settings.currentSubtitle else s.currentSubtitle)
  {
    var s := MergedState(sources, subtitles, overrides);
    if settings.currentAudio.Some? {
      TrackLangsMembers(s.audios, AudioLang, settings.currentAudio.value);
    }
    if settings.currentSubtitle.Some? {
      TrackLangsMembers(s.subtitles, SubtitleLang, settings.currentSubtitle.value);
    }
  }

  /** Restoring touches only the three selections; in particular the persisted `isSubtitleDisabled` is ignored. */
  lemma RestoreTouchesOnlySelections(sources: seq<Source>, subtitles: seq<Subtitle>, overrides: TrackPatch,
                                     settings: Settings)
    ensures var s := MergedState(sources, subtitles, overrides);
            var g := GetState(sources, subtitles, overrides, Some(settings));
      && g == s.(currentAudio := g.currentAudio, currentQuality := g.currentQuality, currentSubtitle := g.currentSubtitle)
      && g.isSubtitleDisabled == s.isSubtitleDisabled
  {
  }

  /** The storage entry written after every change: the three selections and `isSubtitleDisabled`, nothing else. */
  function SaveBlob(state: TrackState): (b: Settings)
    ensures b.currentAudio == state.currentAudio && b.currentQuality == state.currentQuality
    ensures b.currentSubtitle == state.currentSubtitle && b.isSubtitleDisabled == Some(state.isSubtitleDisabled)
  {
    Settings(state.currentAudio, state.currentQuality, state.currentSubtitle, Some(state.isSubtitleDisabled))
  }

  /** Saving a restored state and restoring it again under the same props gives the same state. */
  lemma SaveThenRestoreIsStable(sources: seq<Source>, subtitles: seq<Subtitle>, overrides: TrackPatch,
                                stored: Option<Settings>)
    ensures var g := GetState(sources, subtitles, overrides, stored);
            GetState(sources, subtitles, overrides, Some(SaveBlob(g))) == g
  {
    var s := MergedState(sources, subtitles, overrides);
    var g := GetState(sources, subtitles, overrides, stored);
    assert g.currentAudio == s.currentAudio || (g.currentAudio.Some? && g.currentAudio.value in NonEmptyLangs(LangList(s.audios, AudioLang)));
    assert g.currentSubtitle == s.currentSubtitle ||
           (g.currentSubtitle.Some? && g.currentSubtitle.value in NonEmptyLangs(LangList(s.subtitles, SubtitleLang)));
  }

  /** A saved selection the props still offer comes back on the next restore. */
  lemma SavedSelectionComesBack(sources: seq<Source>, subtitles: seq<Subtitle>, overrides: TrackPatch, state: TrackState)
    ensures var s := MergedState(sources, subtitles, overrides);
            var g := GetState(sources, subtitles, overrides, Some(SaveBlob(state)));
      && (state.currentAudio.Some? && HasLang(s.audios, AudioLang, state.currentAudio.value) ==>
            g.currentAudio == state.currentAudio)
      && (state.currentQuality.Some? && state.currentQuality.value in s.qualities ==>
            g.currentQuality == state.currentQuality)
      && (state.currentSubtitle.Some? && HasLang(s.subtitles, SubtitleLang, state.currentSubtitle.value) ==>
            g.currentSubtitle == state.currentSubtitle)
  {
    RestoreKeepsAvailable(sources, subtitles, overrides, SaveBlob(state));
  }

  /** The store of the provider: the state and the storage entry it writes back. */
  class TrackStore {
    var state: TrackState
    /** The storage entry under `netplayer_video_settings`, as a parsed value. */
    var stored: Option<Settings>

    /** The provider starts from `getState()` and its save effect then writes the entry. */
    constructor(sources: seq<Source>, subtitles: seq<Subtitle>, overrides: TrackPatch, stored: Option<Settings>)
      ensures state == GetState(sources, subtitles, overrides, stored)
      ensures this.stored == Some(SaveBlob(state))
    {
      var initial := GetState(sources, subtitles, overrides, stored);
      state := initial;
      this.stored := Some(SaveBlob(initial));
    }

    /** The save effect. */
    method Persist()
      modifies this
      ensures state == old(state) && stored == Some(SaveBlob(state))
    {
      stored := Some(SaveBlob(state));
    }

    /** `updateState(selector)` followed by the save effect. */
    method UpdateState(selector: TrackState -> TrackPatch)
      modifies this
      ensures state == Overlay(old(state), selector(old(state)))
      ensures stored == Some(SaveBlob(state))
    {
      state := Overlay(state, selector(state));
      Persist();
    }

    /** The effect that re-runs `getState()` when the props change, followed by the save effect. */
    method Reload(sources: seq<Source>, subtitles: seq<Subtitle>, overrides: TrackPatch)
      modifies this
      ensures state == GetState(sources, subtitles, overrides, old(stored))
      ensures stored == Some(SaveBlob(state))
    {
      state := GetState(sources, subtitles, overrides, stored);
      Persist();
    }
  }
}
