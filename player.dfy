/**
  The player's decisions: which engine plays a source, the quality list and
  its initial choice, what the engines' events publish to the track store,
  how fatal engine errors are recovered, and what a change of quality or
  audio track does. The store updates the player requests are returned as
  `TrackPatch` values; the engines are the classes of `Engines`.
 */
module Player {
  import opened Wrappers
  import opened Strings
  import opened Types
  import opened Utils
  import opened Sorting
  import opened Engines
  import opened Media
  import opened VideoStateContext

  // ---------------------------------------------------------------------
  // Source classification
  // ---------------------------------------------------------------------

  predicate ShouldPlayHls(s: Source) {
    Contains(s.file, "m3u8") || s.kind == Some("hls")
  }

  predicate ShouldPlayDash(s: Source) {
    Contains(s.file, "mpd") || s.kind == Some("dash")
  }

  datatype Playback = HlsPlayback | DashPlayback | DirectPlayback

  /** The branch `initPlayer` takes: HLS is tried first, then DASH, else the element plays the file itself. */
  function Classify(s: Source): (p: Playback)
    ensures p == HlsPlayback <==> ShouldPlayHls(s)
    ensures p == DashPlayback <==> !ShouldPlayHls(s) && ShouldPlayDash(s)
    ensures p == DirectPlayback <==> !ShouldPlayHls(s) && !ShouldPlayDash(s)
  {
    if ShouldPlayHls(s) then HlsPlayback
    else if ShouldPlayDash(s) then DashPlayback
    else DirectPlayback
  }

  /** A source that names both formats goes to the HLS engine. */
  lemma HlsTypeWins(file: string)
    ensures Classify(Source(file, None, Some("hls"))) == HlsPlayback
    ensures Classify(Source(file + ".mpd", None, Some("hls"))) == HlsPlayback
  {
  }

  // ---------------------------------------------------------------------
  // Qualities from source labels
  // ---------------------------------------------------------------------

  /** The sort key of a quality label: `parseNumberFromString`. */
  function LabelKey(text: string): int {
    ParseNumberFromString(text)
  }

  /** The labels of the labelled sources, best first. */
  function SortedQualities(sources: seq<Source>): seq<string> {
    SortDesc(DefaultQualities(sources), LabelKey)
  }

  /** `initQuality()`: the de-duplicated sorted labels, and the first sorted label as the selection. */
  function InitQuality(sources: seq<Source>): TrackPatch {
    var sorted := SortedQualities(sources);
    EmptyPatch().(
      qualities := Some(Dedupe(sorted)),
      currentQuality := Some(if |sorted| > 0 then Some(sorted[0]) else None))
  }

  /** The quality list holds each label of a labelled source exactly once, best first. */
  lemma InitQualityList(sources: seq<Source>)
    ensures var p := InitQuality(sources);
            var labels := DefaultQualities(sources);
      && p.qualities.Some?
      && var qs := p.qualities.value;
      && SortedDesc(qs, LabelKey)
      && (forall i, j :: 0 <= i < j < |qs| ==> qs[i] != qs[j])
      && (forall i :: 0 <= i < |qs| ==> qs[i] in labels)
      && (forall i :: 0 <= i < |labels| ==> labels[i] in qs)
  {
    var labels := DefaultQualities(sources);
    var sorted := SortedQualities(sources);
    SortDescCorrect(labels, LabelKey);
    DedupeKeepsSorted(sorted, LabelKey);
    SameMembers(sorted, labels);
  }

  lemma SameMembers<T>(a: seq<T>, b: seq<T>)
    requires multiset(a) == multiset(b)
    ensures |a| == |b|
    ensures forall i :: 0 <= i < |a| ==> a[i] in b
    ensures forall i :: 0 <= i < |b| ==> b[i] in a
  {
    assert |multiset(a)| == |multiset(b)|;
    forall i | 0 <= i < |a| ensures a[i] in b {
      assert a[i] in multiset(a);
    }
    forall i | 0 <= i < |b| ensures b[i] in a {
      assert b[i] in multiset(b);
    }
  }

  /**
    The selection is the best label, and among equally good labels the one
    whose source comes first; it heads the quality list. It is missing
    exactly when no source has a label.
   */
  lemma InitQualitySelection(sources: seq<Source>)
    ensures var p := InitQuality(sources);
            var labels := DefaultQualities(sources);
      && p.qualities.Some? && p.currentQuality.Some?
      && var cq := p.currentQuality.value;
      && (cq.None? <==> |labels| == 0)
      && (cq.Some? ==> |p.qualities.value| > 0 && p.qualities.value[0] == cq.value)
      && (cq.Some? ==> exists i :: 0 <= i < |labels| && labels[i] == cq.value &&
                         (forall j :: 0 <= j < |labels| ==> LabelKey(labels[j]) <= LabelKey(cq.value)) &&
                         (forall j :: 0 <= j < i ==> LabelKey(labels[j]) < LabelKey(cq.value)))
  {
    var labels := DefaultQualities(sources);
    var sorted := SortedQualities(sources);
    SortDescCorrect(labels, LabelKey);
    assert |multiset(sorted)| == |multiset(labels)|;
    if |labels| > 0 {
      DedupeHead(sorted);
      SortedHeadIsMax(labels, LabelKey);
      SortedHeadIsFirstBest(labels, LabelKey);
    }
  }

  // ---------------------------------------------------------------------
  // Qualities from HLS levels
  // ---------------------------------------------------------------------

  function HeightKey(l: Level): int {
    l.height
  }

  /** `${height}p`. */
  function LevelLabel(height: nat): string {
    NatToString(height) + "p"
  }

  /** A level label reads back as its height. */
  lemma LevelLabelKey(height: nat)
    ensures LabelKey(LevelLabel(height)) == height
  {
    ParseNumberOfLabel(height, "p");
  }

  /** `levels.filter(level => level.height).map(level => `${level.height}p`)`. */
  function LevelLabels(levels: seq<Level>): (labels: seq<string>)
    ensures |labels| <= |levels|
  {
    if |levels| == 0 then []
    else (if levels[0].height > 0 then [LevelLabel(levels[0].height)] else []) + LevelLabels(levels[1..])
  }

  /**
    Over levels sorted by height, the labels are those of the leading levels
    with a height, in order, and every later level has none.
   */
  lemma {:induction false} LevelLabelsOfSorted(levels: seq<Level>)
    requires SortedDesc(levels, HeightKey)
    ensures var labels := LevelLabels(levels);
      && (forall i :: 0 <= i < |labels| ==> levels[i].height > 0 && labels[i] == LevelLabel(levels[i].height))
      && (forall i :: |labels| <= i < |levels| ==> levels[i].height == 0)
    decreases |levels|
  {
    if |levels| > 0 {
      assert SortedDesc(levels[1..], HeightKey);
      LevelLabelsOfSorted(levels[1..]);
      var rest := LevelLabels(levels[1..]);
      if levels[0].height > 0 {
        assert LevelLabels(levels) == [LevelLabel(levels[0].height)] + rest;
        forall i | 1 <= i < |rest| + 1 ensures levels[i].height > 0 && LevelLabels(levels)[i] == LevelLabel(levels[i].height) {
          assert levels[i] == levels[1..][i - 1];
        }
        forall i | |rest| + 1 <= i < |levels| ensures levels[i].height == 0 {
          assert levels[i] == levels[1..][i - 1];
        }
      } else {
        forall i | 0 <= i < |levels| ensures levels[i].height == 0 {
          assert HeightKey(levels[0]) >= HeightKey(levels[i]) || i == 0;
        }
      }
    }
  }

  /** `findIndex(level => level.height === height)`. */
  function LevelIndex(levels: seq<Level>, height: int): (i: int)
    ensures -1 <= i < |levels|
    ensures i == -1 <==> forall j :: 0 <= j < |levels| ==> levels[j].height != height
    ensures i >= 0 ==> levels[i].height == height && forall j :: 0 <= j < i ==> levels[j].height != height
  {
    if |levels| == 0 then -1
    else if levels[0].height == height then 0
    else
      var k := LevelIndex(levels[1..], height);
      assert forall j :: 1 <= j < |levels| ==> levels[j] == levels[1..][j - 1];
      if k == -1 then -1 else k + 1
  }

  /**
    Choosing a published level label switches the engine to a level of that
    height, at or before the label's own position (exactly there when the
    heights are distinct).
   */
  lemma PublishedLabelSelectsItsLevel(levels: seq<Level>, i: nat)
    requires SortedDesc(levels, HeightKey)
    requires i < |LevelLabels(levels)|
    ensures var k := LevelIndex(levels, LabelKey(LevelLabels(levels)[i]));
      0 <= k <= i && levels[k].height == levels[i].height
  {
    LevelLabelsOfSorted(levels);
    LevelLabelKey(levels[i].height);
  }

  /** The published labels are sorted best first, like labels from sources. */
  lemma LevelLabelsSorted(levels: seq<Level>)
    requires SortedDesc(levels, HeightKey)
    ensures SortedDesc(LevelLabels(levels), LabelKey)
  {
    LevelLabelsOfSorted(levels);
    var labels := LevelLabels(levels);
    forall i, j | 0 <= i < j < |labels| ensures LabelKey(labels[i]) >= LabelKey(labels[j]) {
      LevelLabelKey(levels[i].height);
      LevelLabelKey(levels[j].height);
    }
  }

  /** `preferQuality?.(levels) || levels[0]`. */
  function PreferredQuality(prefer: Option<seq<string> -> string>, labels: seq<string>): (q: Option<string>)
    ensures prefer.Some? && prefer.value(labels) != "" ==> q == Some(prefer.value(labels))
    ensures (prefer.None? || prefer.value(labels) == "") ==> q == (if |labels| > 0 then Some(labels[0]) else None)
  {
    if prefer.Some? && prefer.value(labels) != "" then Some(prefer.value(labels))
    else if |labels| > 0 then Some(labels[0])
    else None
  }

  // ---------------------------------------------------------------------
  // DASH representations
  // ---------------------------------------------------------------------

  /** `bitrates.map(bitrate => bitrate.height + 'p')`. */
  function BitrateLabels(bitrates: seq<Bitrate>): (labels: seq<string>)
    ensures |labels| == |bitrates|
    ensures forall i :: 0 <= i < |labels| ==> LabelKey(labels[i]) == bitrates[i].height
  {
    if |bitrates| == 0 then []
    else
      LevelLabelKey(bitrates[0].height);
      [LevelLabel(bitrates[0].height)] + BitrateLabels(bitrates[1..])
  }

  /** `bitrates.find(bitrate => bitrate.height === height)`. */
  function FindBitrate(bitrates: seq<Bitrate>, height: int): (r: Option<Bitrate>)
    ensures r.None? <==> forall j :: 0 <= j < |bitrates| ==> bitrates[j].height != height
    ensures r.Some? ==> exists i :: 0 <= i < |bitrates| && bitrates[i] == r.value && r.value.height == height &&
                                    forall j :: 0 <= j < i ==> bitrates[j].height != height
  {
    if |bitrates| == 0 then None
    else if bitrates[0].height == height then Some(bitrates[0])
    else
      var r := FindBitrate(bitrates[1..], height);
      assert forall j :: 1 <= j < |bitrates| ==> bitrates[j] == bitrates[1..][j - 1];
      if r.Some? then
        var i :| 0 <= i < |bitrates| - 1 && bitrates[1..][i] == r.value && r.value.height == height &&
                 forall j :: 0 <= j < i ==> bitrates[1..][j].height != height;
        assert bitrates[i + 1] == r.value;
        r
      else r
  }

  /** A selection that is present and not empty. */
  predicate IsSet(o: Option<string>) {
    o.Some? && o.value != ""
  }

  /**
    `state.currentQuality || preferQuality?.(qualities)`: the quality label the
    DASH listener looks up, with `""` standing for a falsy result.
   */
  function LookedUpQuality(bitrates: seq<Bitrate>, currentQuality: Option<string>,
                           prefer: Option<seq<string> -> string>): string
  {
    if IsSet(currentQuality) then currentQuality.value
    else if prefer.Some? then prefer.value(BitrateLabels(bitrates))
    else ""
  }

  /**
    The representation chosen once DASH data is loaded: the first one whose
    height is the looked-up quality's number, or else the last one.
   */
  function BestBitrate(bitrates: seq<Bitrate>, currentQuality: Option<string>, prefer: Option<seq<string> -> string>)
    : (b: Bitrate)
    requires |bitrates| > 0
    ensures b in bitrates
    ensures var q := LookedUpQuality(bitrates, currentQuality, prefer);
            q != "" && (exists i :: 0 <= i < |bitrates| && bitrates[i].height == LabelKey(q)) ==>
              exists i :: 0 <= i < |bitrates| && b == bitrates[i] && b.height == LabelKey(q) &&
                          forall j :: 0 <= j < i ==> bitrates[j].height != LabelKey(q)
    ensures var q := LookedUpQuality(bitrates, currentQuality, prefer);
            q == "" || (forall i :: 0 <= i < |bitrates| ==> bitrates[i].height != LabelKey(q)) ==>
              b == bitrates[|bitrates| - 1]
  {
    var quality := LookedUpQuality(bitrates, currentQuality, prefer);
    if quality != "" then
      match FindBitrate(bitrates, LabelKey(quality))
      case Some(b) => b
      case None => bitrates[|bitrates| - 1]
    else bitrates[|bitrates| - 1]
  }

  /**
    Without a selection the preferred label is the one looked up: when some
    representation has its number as height, a representation of that height
    is chosen; when none has, or there is neither a selection nor a
    preference, the last representation is.
   */
  lemma BestBitrateUsesPreference(bitrates: seq<Bitrate>, currentQuality: Option<string>, prefer: Option<seq<string> -> string>)
    requires |bitrates| > 0 && !IsSet(currentQuality)
    ensures prefer.None? ==> BestBitrate(bitrates, currentQuality, prefer) == bitrates[|bitrates| - 1]
    ensures prefer.Some? ==>
              (var preferred := prefer.value(BitrateLabels(bitrates));
               && (preferred != "" && (exists i :: 0 <= i < |bitrates| && bitrates[i].height == LabelKey(preferred)) ==>
                     BestBitrate(bitrates, currentQuality, prefer).height == LabelKey(preferred))
               && ((forall i :: 0 <= i < |bitrates| ==> bitrates[i].height != LabelKey(preferred)) ==>
                     BestBitrate(bitrates, currentQuality, prefer) == bitrates[|bitrates| - 1]))
  {
    var b := BestBitrate(bitrates, currentQuality, prefer);
    assert LookedUpQuality(bitrates, currentQuality, prefer) ==
           if prefer.Some? then prefer.value(BitrateLabels(bitrates)) else "";
  }

  /** With a selection whose number is some representation's height, that height is chosen. */
  lemma BestBitrateHonoursSelection(bitrates: seq<Bitrate>, currentQuality: string, prefer: Option<seq<string> -> string>,
                                    i: nat)
    requires i < |bitrates| && currentQuality != "" && bitrates[i].height == LabelKey(currentQuality)
    ensures BestBitrate(bitrates, Some(currentQuality), prefer).height == LabelKey(currentQuality)
  {
  }

  /** What the `loadeddata` listener of a DASH player publishes. */
  function DashLoadedPatch(bitrates: seq<Bitrate>, currentQuality: Option<string>, prefer: Option<seq<string> -> string>)
    : TrackPatch
    requires |bitrates| > 0
  {
    EmptyPatch().(
      qualities := Some(BitrateLabels(bitrates)),
      currentQuality := Some(if IsSet(currentQuality) then currentQuality
                             else Some(LevelLabel(BestBitrate(bitrates, currentQuality, prefer).height))))
  }

  /** Without a selection, the published selection names the chosen representation's height. */
  lemma DashSelectionMatchesChoice(bitrates: seq<Bitrate>, currentQuality: Option<string>,
                                   prefer: Option<seq<string> -> string>)
    requires |bitrates| > 0
    ensures var p := DashLoadedPatch(bitrates, currentQuality, prefer);
      && p.qualities == Some(BitrateLabels(bitrates))
      && p.currentQuality.Some? && p.currentQuality.value.Some?
      && (IsSet(currentQuality) ==> p.currentQuality.value == currentQuality)
      && (!IsSet(currentQuality) ==>
            LabelKey(p.currentQuality.value.value) == BestBitrate(bitrates, currentQuality, prefer).height)
  {
    LevelLabelKey(BestBitrate(bitrates, currentQuality, prefer).height);
  }

  // ---------------------------------------------------------------------
  // Subtitle and audio tracks discovered by the HLS engine
  // ---------------------------------------------------------------------

  /**
    A subtitle track as the engine reports it. `fragments` holds the URLs of
    the fragments of its `details`, or `None` when the track has no
    `details` or they have no fragment list.
   */
  datatype HlsSubtitleTrack = HlsSubtitleTrack(url: string, fragments: Option<seq<string>>, lang: string, name: string)

  datatype HlsAudioTrack = HlsAudioTrack(lang: string, name: string)

  /** `track.lang || index.toString()`. */
  function TrackLang(lang: string, index: nat): (l: string)
    ensures l != ""
    ensures lang != "" ==> l == lang
    ensures lang == "" ==> l == NatToString(index)
  {
    if lang != "" then lang else NatToString(index)
  }

  /** Two tracks without a `lang` never get the same one. */
  lemma FallbackLangsDistinct(i: nat, j: nat)
    requires i != j
    ensures TrackLang("", i) != TrackLang("", j)
  {
    if NatToString(i) == NatToString(j) {
      NatToStringInjective(i, j);
    }
  }

  /**
    The file of a discovered subtitle: the URL of the first fragment when that
    is non-empty, else the track's own URL. `None` when the fragment list is
    empty: reading `url` of its missing first element throws.
   */
  function SubtitleFile(t: HlsSubtitleTrack): (file: Option<string>)
    ensures file.None? <==> t.fragments == Some([])
    ensures t.fragments.Some? && |t.fragments.value| > 0 && t.fragments.value[0] != "" ==>
              file == Some(t.fragments.value[0])
    ensures t.fragments.None? || (|t.fragments.value| > 0 && t.fragments.value[0] == "") ==> file == Some(t.url)
  {
    match t.fragments
    case None => Some(t.url)
    case Some(urls) => if |urls| == 0 then None else if urls[0] != "" then Some(urls[0]) else Some(t.url)
  }

  /** Some track's file cannot be read, so `event.subtitleTracks.map(...)` throws. */
  predicate SomeFileThrows(tracks: seq<HlsSubtitleTrack>) {
    exists i :: 0 <= i < |tracks| && SubtitleFile(tracks[i]).None?
  }

  /**
    `event.subtitleTracks.map(...)`: one subtitle per engine track, in order,
    or `None` when the mapping throws.
   */
  function DiscoveredSubtitles(tracks: seq<HlsSubtitleTrack>): (subs: Option<seq<Subtitle>>)
    ensures subs.None? <==> exists i :: 0 <= i < |tracks| && tracks[i].fragments == Some([])
    ensures subs.Some? ==> |subs.value| == |tracks|
    ensures subs.Some? ==> forall i :: 0 <= i < |tracks| ==>
              subs.value[i].lang == TrackLang(tracks[i].lang, i) && subs.value[i].language == tracks[i].name &&
              Some(subs.value[i].file) == SubtitleFile(tracks[i])
  {
    if SomeFileThrows(tracks) then None
    else
      Some(seq(|tracks|, i requires 0 <= i < |tracks| =>
        Subtitle(SubtitleFile(tracks[i]).value, TrackLang(tracks[i].lang, i), tracks[i].name)))
  }

  function DiscoveredAudios(tracks: seq<HlsAudioTrack>): (audios: seq<Audio>)
    ensures |audios| == |tracks|
    ensures forall i :: 0 <= i < |audios| ==>
              audios[i].lang == TrackLang(tracks[i].lang, i) && audios[i].language == tracks[i].name
  {
    seq(|tracks|, i requires 0 <= i < |tracks| => Audio(TrackLang(tracks[i].lang, i), tracks[i].name))
  }

  /** What `SUBTITLE_TRACKS_UPDATED` publishes; `None` when the handler throws before its `setState`. */
  function SubtitleTracksPatch(tracks: seq<HlsSubtitleTrack>): (p: Option<TrackPatch>)
    ensures p.None? <==> exists i :: 0 <= i < |tracks| && tracks[i].fragments == Some([])
    ensures p.Some? ==> p.value == EmptyPatch().(subtitles := p.value.subtitles, currentSubtitle := p.value.currentSubtitle)
    ensures p.Some? ==> p.value.subtitles == DiscoveredSubtitles(tracks)
  {
    match DiscoveredSubtitles(tracks)
    case None => None
    case Some(subs) => Some(EmptyPatch().(subtitles := Some(subs), currentSubtitle := Some(FirstSubtitleLang(subs))))
  }

  /** What `AUDIO_TRACKS_UPDATED` publishes, given the engine's `audioTrack`. */
  function AudioTracksPatch(tracks: seq<HlsAudioTrack>, audioTrack: int): TrackPatch {
    var audios := DiscoveredAudios(tracks);
    var index := if audioTrack >= 0 then audioTrack else 0;
    EmptyPatch().(
      audios := Some(audios),
      currentAudio := Some(if index < |audios| then Some(audios[index].lang) else None))
  }

  /**
    Every discovered track offers its own `lang` to the store's restore
    filter, so a persisted choice of any of them survives; the first subtitle
    and the engine's current audio track become the selections. A subtitle
    track with an empty fragment list makes the subtitle handler publish
    nothing.
   */
  lemma DiscoveredTracksSelections(subs: seq<HlsSubtitleTrack>, audios: seq<HlsAudioTrack>, audioTrack: int)
    ensures var sp := SubtitleTracksPatch(subs);
            var ap := AudioTracksPatch(audios, audioTrack);
      && (sp.None? <==> exists i :: 0 <= i < |subs| && subs[i].fragments == Some([]))
      && (sp.Some? ==> forall i :: 0 <= i < |subs| ==>
            HasLang(sp.value.subtitles.value, SubtitleLang, TrackLang(subs[i].lang, i)))
      && (sp.Some? ==> sp.value.currentSubtitle == Some(if |subs| > 0 then Some(TrackLang(subs[0].lang, 0)) else None))
      && (forall i :: 0 <= i < |audios| ==> HasLang(ap.audios.value, AudioLang, TrackLang(audios[i].lang, i)))
      && (0 <= audioTrack < |audios| ==> ap.currentAudio == Some(Some(TrackLang(audios[audioTrack].lang, audioTrack))))
      && (audioTrack < 0 && |audios| > 0 ==> ap.currentAudio == Some(Some(TrackLang(audios[0].lang, 0))))
      && (audioTrack >= |audios| ==> ap.currentAudio == Some(None))
  {
    if DiscoveredSubtitles(subs).Some? {
      var ss := DiscoveredSubtitles(subs).value;
      forall i | 0 <= i < |subs| ensures HasLang(ss, SubtitleLang, TrackLang(subs[i].lang, i)) {
        assert ss[i].lang == TrackLang(subs[i].lang, i);
      }
    }
    var aa := DiscoveredAudios(audios);
    forall i | 0 <= i < |audios| ensures HasLang(aa, AudioLang, TrackLang(audios[i].lang, i)) {
      assert aa[i].lang == TrackLang(audios[i].lang, i);
    }
  }

  /**
    The audio effect hands the engine back the track it reported: the first
    track with the same `lang`, which is that very track when the langs are
    distinct.
   */
  lemma AudioTrackRoundTrip(tracks: seq<HlsAudioTrack>, audioTrack: nat)
    requires audioTrack < |tracks|
    ensures var p := AudioTracksPatch(tracks, audioTrack);
            var k := IndexOf(LangList(p.audios.value, AudioLang), p.currentAudio.value.value);
      0 <= k <= audioTrack && p.audios.value[k].lang == p.audios.value[audioTrack].lang
  {
    var p := AudioTracksPatch(tracks, audioTrack);
    var ls := LangList(p.audios.value, AudioLang);
    assert ls[audioTrack] == p.currentAudio.value.value;
  }

  // ---------------------------------------------------------------------
  // Source selection and the quality-change decision
  // ---------------------------------------------------------------------

  /** `sources.find(source => source.label === quality)`; a missing selection matches no source. */
  function FindByLabel(sources: seq<Source>, quality: Option<string>): (r: Option<Source>)
    ensures r.None? <==> quality.None? || forall j :: 0 <= j < |sources| ==> sources[j].labelText != quality
    ensures r.Some? ==> exists i :: 0 <= i < |sources| && sources[i] == r.value && r.value.labelText == quality &&
                                    forall j :: 0 <= j < i ==> sources[j].labelText != quality
  {
    if quality.None? || |sources| == 0 then None
    else if sources[0].labelText == quality then Some(sources[0])
    else
      var r := FindByLabel(sources[1..], quality);
      assert forall j :: 1 <= j < |sources| ==> sources[j] == sources[1..][j - 1];
      if r.Some? then
        var i :| 0 <= i < |sources| - 1 && sources[1..][i] == r.value && r.value.labelText == quality &&
                 forall j :: 0 <= j < i ==> sources[1..][j].labelText != quality;
        assert sources[i + 1] == r.value;
        r
      else r
  }

  /** The source whose label is the selection, or else the first source. */
  function SelectSource(sources: seq<Source>, quality: Option<string>): (s: Source)
    requires |sources| > 0
    ensures s in sources
    ensures FindByLabel(sources, quality).Some? ==> s.labelText == quality
    ensures FindByLabel(sources, quality).None? ==> s == sources[0]
  {
    match FindByLabel(sources, quality)
    case Some(s) => s
    case None => sources[0]
  }

  /** What the quality-change effect does. */
  datatype QualityAction =
    | KeepQuality
    | SwitchLevel(index: nat)
    | SwitchBitrate(qualityIndex: nat)
    | SwapSource(source: Source, resumeAt: real)

  /** One source that an engine plays, which then switches quality itself. */
  predicate EngineSwitches(sources: seq<Source>) {
    |sources| == 1 && (ShouldPlayHls(sources[0]) || ShouldPlayDash(sources[0]))
  }

  /**
    The decision of the quality-change effect from the store, the current
    engine's levels or representations (`None` without an engine) and the
    element's time.
   */
  function DecideQuality(s: TrackState, sources: seq<Source>, levels: Option<seq<Level>>,
                         bitrates: Option<seq<Bitrate>>, currentTime: real): (a: QualityAction)
    requires |s.qualities| == 0 || |sources| > 0
    ensures |s.qualities| == 0 ==> a.KeepQuality?
    ensures a.SwitchLevel? ==>
              && |sources| == 1 && ShouldPlayHls(sources[0]) && IsSet(s.currentQuality) && levels.Some?
              && a.index < |levels.value| && levels.value[a.index].height == LabelKey(s.currentQuality.value)
              && forall j :: 0 <= j < a.index ==> levels.value[j].height != LabelKey(s.currentQuality.value)
    ensures |sources| == 1 && ShouldPlayHls(sources[0]) && |s.qualities| > 0 && IsSet(s.currentQuality) &&
            levels.Some? ==>
              (a.KeepQuality? <==> forall j :: 0 <= j < |levels.value| ==> levels.value[j].height != LabelKey(s.currentQuality.value))
    ensures a.SwitchBitrate? ==>
              && |sources| == 1 && !ShouldPlayHls(sources[0]) && ShouldPlayDash(sources[0]) && IsSet(s.currentQuality)
              && bitrates.Some? && FindBitrate(bitrates.value, LabelKey(s.currentQuality.value)) ==
                 Some(Bitrate(LabelKey(s.currentQuality.value), a.qualityIndex))
    ensures |sources| == 1 && !ShouldPlayHls(sources[0]) && ShouldPlayDash(sources[0]) && |s.qualities| > 0 &&
            IsSet(s.currentQuality) && bitrates.Some? ==>
              (a.KeepQuality? <==> FindBitrate(bitrates.value, LabelKey(s.currentQuality.value)).None?)
    ensures a.SwapSource? ==>
              && !EngineSwitches(sources) && a.source in sources && a.source.labelText == s.currentQuality
              && Some(a.source) == FindByLabel(sources, s.currentQuality)
              && a.resumeAt == currentTime
    ensures !EngineSwitches(sources) && |s.qualities| > 0 ==>
              (a.SwapSource? <==> FindByLabel(sources, s.currentQuality).Some?)
    ensures !EngineSwitches(sources) ==> a.KeepQuality? || a.SwapSource?
  {
    if |s.qualities| == 0 then KeepQuality
    else
      var source := SelectSource(sources, s.currentQuality);
      if ShouldPlayHls(source) && |sources| == 1 then
        if levels.None? || |levels.value| == 0 || !IsSet(s.currentQuality) then KeepQuality
        else
          var k := LevelIndex(levels.value, LabelKey(s.currentQuality.value));
          if k == -1 then KeepQuality else SwitchLevel(k)
      else if ShouldPlayDash(source) && |sources| == 1 then
        if bitrates.None? || |bitrates.value| == 0 || !IsSet(s.currentQuality) then KeepQuality
        else
          match FindBitrate(bitrates.value, LabelKey(s.currentQuality.value))
          case None => KeepQuality
          case Some(b) => SwitchBitrate(b.qualityIndex)
      else
        match FindByLabel(sources, s.currentQuality)
        case None => KeepQuality
        case Some(src) => SwapSource(src, currentTime)
  }

  // ---------------------------------------------------------------------
  // The player component's refs and effects
  // ---------------------------------------------------------------------

  class VideoPlayer {
    const sources: seq<Source>
    /** `innerRef.current`. */
    const video: MediaElement?
    /** `HlsSDK.isSupported()`. */
    const hlsSupported: bool
    /** The element's `canPlayType('application/vnd.apple.mpegurl')` is truthy. */
    const nativeHls: bool
    /** `hls.current`. */
    var hls: HlsEngine?
    /** `dashjs.current`. */
    var dash: DashEngine?
    /** The pending one-shot `canplay` listener, by the time it restores. */
    var resumeAt: Option<real>

    constructor(sources: seq<Source>, video: MediaElement?, hlsSupported: bool, nativeHls: bool)
      ensures this.sources == sources && this.video == video
      ensures this.hlsSupported == hlsSupported && this.nativeHls == nativeHls
      ensures hls == null && dash == null && resumeAt.None?
    {
      this.sources := sources;
      this.video := video;
      this.hlsSupported := hlsSupported;
      this.nativeHls := nativeHls;
      hls := null;
      dash := null;
      resumeAt := None;
    }

    /** What `initPlayer(source)` leaves behind, given the engines it started from. */
    twostate predicate Initialised(source: Source, oldHls: HlsEngine?, oldDash: DashEngine?)
      reads this, video, hls, dash, oldHls, oldDash
    {
      && (video == null ==>
            hls == oldHls && dash == oldDash &&
            (oldHls != null ==> oldHls.calls == old(oldHls.calls)) &&
            (oldDash != null ==> oldDash.calls == old(oldDash.calls)))
      && (video != null && Classify(source) == HlsPlayback ==>
            && (oldHls != null ==> oldHls.destroyed && oldHls.calls == old(oldHls.calls) + [Destroy])
            && dash == oldDash && (oldDash != null ==> oldDash.calls == old(oldDash.calls))
            && (hlsSupported ==>
                  fresh(hls) && hls.calls == [AttachMedia] && hls.levels == [] && !hls.destroyed &&
                  video.src == old(video.src) && video.calls == old(video.calls))
            && (!hlsSupported ==>
                  hls == oldHls && video.calls == old(video.calls) &&
                  video.src == (if nativeHls then source.file else old(video.src))))
      && (video != null && Classify(source) == DashPlayback ==>
            && (oldDash != null ==> oldDash.isReset && oldDash.calls == old(oldDash.calls) + [Reset])
            && hls == oldHls && (oldHls != null ==> oldHls.calls == old(oldHls.calls))
            && fresh(dash) && dash.bitrates == [] && !dash.isReset
            && dash.calls == [Initialize, AttachView, AttachSource(source.file)]
            && video.src == old(video.src) && video.calls == old(video.calls))
      && (video != null && Classify(source) == DirectPlayback ==>
            && hls == oldHls && dash == oldDash
            && (oldHls != null ==> oldHls.calls == old(oldHls.calls))
            && (oldDash != null ==> oldDash.calls == old(oldDash.calls))
            && video.src == source.file
            && video.calls == old(video.calls) + (if old(video.src) != "" then [PauseCall] else []) + [LoadCall])
    }

    /**
      `initPlayer(source)`: an existing HLS engine is destroyed before a new
      one is made, an existing DASH player is reset before a new one is made,
      and a plain file is loaded into the element.
     */
    method InitPlayer(source: Source)
      modifies this, video, hls, dash
      ensures Initialised(source, old(hls), old(dash))
      ensures resumeAt == old(resumeAt)
      ensures video != null ==> video.volume == old(video.volume) && video.currentTime == old(video.currentTime)
    {
      if video == null {
        return;
      }
      if ShouldPlayHls(source) {
        if hls != null {
          hls.Call(Destroy);
        }
        if hlsSupported {
          var engine := new HlsEngine();
          engine.Call(AttachMedia);
          hls := engine;
        } else if nativeHls {
          video.src := source.file;
        }
      } else if ShouldPlayDash(source) {
        if dash != null {
          dash.Call(Reset);
        }
        var player := new DashEngine();
        dash := player;
        player.Call(Initialize);
        player.Call(AttachView);
        player.Call(AttachSource(source.file));
      } else {
        if video.src != "" {
          video.Pause();
        }
        video.src := source.file;
        video.Load();
      }
    }

    /**
      The mount effect: start the source the selection names (or the first
      one), and derive the qualities from the labels unless a lone HLS
      source will publish its own levels. The engine present at the start is
      returned for the cleanup.
     */
    method Mount(currentQuality: Option<string>) returns (captured: HlsEngine?, patch: Option<TrackPatch>)
      requires |sources| > 0
      modifies this, video, hls, dash
      ensures captured == old(hls)
      ensures Initialised(SelectSource(sources, currentQuality), old(hls), old(dash))
      ensures var source := SelectSource(sources, currentQuality);
        patch == if !ShouldPlayHls(source) || |sources| > 1 then Some(InitQuality(sources)) else None
    {
      captured := hls;
      var source := SelectSource(sources, currentQuality);
      InitPlayer(source);
      if !ShouldPlayHls(source) || |sources| > 1 {
        patch := Some(InitQuality(sources));
      } else {
        patch := None;
      }
    }

    /** The mount effect's cleanup destroys the engine that was current when the effect ran. */
    method MountCleanup(captured: HlsEngine?)
      modifies captured
      ensures captured != null ==> captured.destroyed && captured.calls == old(captured.calls) + [Destroy]
    {
      if captured != null {
        captured.Call(Destroy);
      }
    }

    /** `MEDIA_ATTACHED`: the engine starts loading the source's manifest. */
    method OnMediaAttached(engine: HlsEngine, source: Source)
      modifies engine
      ensures engine.calls == old(engine.calls) + [LoadSource(source.file)]
      ensures engine.levels == old(engine.levels) && engine.destroyed == old(engine.destroyed)
    {
      engine.Call(LoadSource(source.file));
    }

    /**
      `MANIFEST_PARSED`: with at most one source and some levels, the
      engine's levels are sorted by height in place and the labels of those
      with a height are published with the preferred one selected.
     */
    method OnManifestParsed(engine: HlsEngine, autoPlay: bool, prefer: Option<seq<string> -> string>)
      returns (patch: Option<TrackPatch>)
      modifies engine, video
      ensures video != null ==>
                video.calls == old(video.calls) + (if autoPlay then [PlayCall] else []) &&
                video.src == old(video.src) && video.currentTime == old(video.currentTime)
      ensures engine.calls == old(engine.calls)
      ensures |sources| > 1 || |old(engine.levels)| == 0 ==> patch.None? && engine.levels == old(engine.levels)
      ensures |sources| <= 1 && |old(engine.levels)| > 0 ==>
                && engine.levels == SortDesc(old(engine.levels), HeightKey)
                && var labels := LevelLabels(engine.levels);
                   patch == Some(EmptyPatch().(qualities := Some(labels),
                                               currentQuality := Some(PreferredQuality(prefer, labels))))
    {
      if autoPlay && video != null {
        video.Play();
      }
      if |sources| > 1 || |engine.levels| == 0 {
        return None;
      }
      engine.levels := SortDesc(engine.levels, HeightKey);
      var labels := LevelLabels(engine.levels);
      patch := Some(EmptyPatch().(qualities := Some(labels), currentQuality := Some(PreferredQuality(prefer, labels))));
    }

    /** `ERROR`: a fatal network error restarts loading, a fatal media error recovers; nothing else calls the engine. */
    method OnHlsError(engine: HlsEngine, fatal: bool, kind: ErrorType)
      modifies engine
      ensures fatal && kind == NetworkError ==> engine.calls == old(engine.calls) + [StartLoad]
      ensures fatal && kind == MediaError ==> engine.calls == old(engine.calls) + [RecoverMediaError]
      ensures !fatal || kind == OtherError ==> engine.calls == old(engine.calls)
      ensures engine.levels == old(engine.levels) && engine.destroyed == old(engine.destroyed)
    {
      if fatal {
        match kind {
          case NetworkError => engine.Call(StartLoad);
          case MediaError => engine.Call(RecoverMediaError);
          case OtherError =>
        }
      }
    }

    /**
      The DASH player's `loadeddata` listener, with the store as it was when
      the player was made: the best representation is selected and the
      representations are published. With an empty list the listener throws
      at `bestQuality.qualityIndex`, before any call or publication: `None`.
     */
    method OnDashLoadedData(player: DashEngine, captured: TrackState, prefer: Option<seq<string> -> string>)
      returns (patch: Option<TrackPatch>)
      modifies player
      ensures player.bitrates == old(player.bitrates)
      ensures |player.bitrates| == 0 ==>
                patch.None? && player.calls == old(player.calls) && player.videoQuality == old(player.videoQuality)
      ensures |player.bitrates| > 0 ==>
                var best := BestBitrate(player.bitrates, captured.currentQuality, prefer);
                && player.videoQuality == best.qualityIndex
                && player.calls == old(player.calls) + [SetQualityFor(best.qualityIndex)]
                && patch == Some(DashLoadedPatch(player.bitrates, captured.currentQuality, prefer))
    {
      if |player.bitrates| == 0 {
        return None;
      }
      var best := BestBitrate(player.bitrates, captured.currentQuality, prefer);
      player.Call(SetQualityFor(best.qualityIndex));
      patch := Some(DashLoadedPatch(player.bitrates, captured.currentQuality, prefer));
    }

    function Levels(): Option<seq<Level>>
      reads this, hls
    {
      if hls == null then None else Some(hls.levels)
    }

    function Bitrates(): Option<seq<Bitrate>>
      reads this, dash
    {
      if dash == null then None else Some(dash.bitrates)
    }

    /**
      The quality-change effect. The previous run's cleanup first removes a
      `canplay` listener that has not fired; then the decision is carried
      out: an engine level, a DASH representation, or a new source whose
      `canplay` restores the time read before the swap.
     */
    method OnQualityChange(s: TrackState)
      requires video == null || |s.qualities| == 0 || |sources| > 0
      modifies this, video, hls, dash
      ensures video == null ==> hls == old(hls) && dash == old(dash) && resumeAt.None?
      ensures video != null ==>
                var a := DecideQuality(s, sources, old(Levels()), old(Bitrates()), old(video.currentTime));
                && (a.KeepQuality? ==>
                      hls == old(hls) && dash == old(dash) && resumeAt.None? &&
                      (hls != null ==> hls.currentLevel == old(hls.currentLevel)) &&
                      (dash != null ==> dash.calls == old(dash.calls)) &&
                      video.src == old(video.src) && video.calls == old(video.calls))
                && (a.SwitchLevel? ==>
                      hls == old(hls) && hls != null && hls.currentLevel == a.index && hls.calls == old(hls.calls) &&
                      dash == old(dash) && resumeAt.None?)
                && (a.SwitchBitrate? ==>
                      dash == old(dash) && dash != null && dash.videoQuality == a.qualityIndex &&
                      dash.calls == old(dash.calls) + [SetQualityFor(a.qualityIndex)] &&
                      hls == old(hls) && resumeAt.None?)
                && (a.SwapSource? ==> Initialised(a.source, old(hls), old(dash)) && resumeAt == Some(a.resumeAt))
    {
      resumeAt := None;
      if video == null {
        return;
      }
      var a := DecideQuality(s, sources, Levels(), Bitrates(), video.currentTime);
      match a {
        case KeepQuality =>
        case SwitchLevel(k) =>
          hls.currentLevel := k;
        case SwitchBitrate(q) =>
          dash.Call(SetQualityFor(q));
        case SwapSource(source, t) =>
          InitPlayer(source);
          resumeAt := Some(t);
      }
    }

    /** The one-shot `canplay` listener: the time read before the swap is restored and playback resumes. */
    method OnCanPlay()
      modifies this, video
      ensures resumeAt.None?
      ensures video != null && old(resumeAt).Some? ==>
                video.currentTime == old(resumeAt).value && video.calls == old(video.calls) + [PlayCall] &&
                video.src == old(video.src)
      ensures video != null && old(resumeAt).None? ==>
                video.currentTime == old(video.currentTime) && video.calls == old(video.calls)
      ensures hls == old(hls) && dash == old(dash)
    {
      if resumeAt.Some? && video != null {
        video.currentTime := resumeAt.value;
        video.Play();
      }
      resumeAt := None;
    }

    /** The audio effect: the engine's audio track becomes the first track with the selected `lang` (or -1). */
    method OnAudioChange(s: TrackState)
      modifies hls
      ensures hls != null && video != null && |s.audios| > 0 && IsSet(s.currentAudio) ==>
                hls.audioTrack == IndexOf(LangList(s.audios, AudioLang), s.currentAudio.value)
      ensures hls != null && !(video != null && |s.audios| > 0 && IsSet(s.currentAudio)) ==>
                hls.audioTrack == old(hls.audioTrack)
      ensures hls != null ==> hls.levels == old(hls.levels) && hls.calls == old(hls.calls)
    {
      if video == null || |s.audios| == 0 || hls == null || !IsSet(s.currentAudio) {
        return;
      }
      hls.audioTrack := IndexOf(LangList(s.audios, AudioLang), s.currentAudio.value);
    }
  }
}
