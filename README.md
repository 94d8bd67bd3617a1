# netplayer decision layer in Dafny

netplayer is a React video player. It is given a list of sources (plain
files, HLS playlists, DASH manifests), subtitle and audio tracks, and a
settings menu. The player hands each source to the HLS engine, the DASH
engine or the media element itself. It builds a quality list from source
labels or from stream levels, and switches quality by telling the engine to
change level or by swapping the source and resuming at the same time. It keeps
a record of what the viewer chose, which is restored from storage and written
back to it. It also keeps a playback status record that media events update. A
small parser reads keyboard shortcuts.

This project models that decision layer and proves what it promises:

- `player.dfy` (`Player`): source classification, the quality list derived from
  labels and from HLS levels or DASH bitrates, and the quality-change dispatch.
  It also covers the HLS error recovery calls, track discovery and the
  audio-track effect. `VideoPlayer` is a class whose methods are the effects
  and engine event handlers. It keeps `hls.current`, `dashjs.current` and the
  media element as fields.
- `engines.dfy` (`Engines`): the two external engines as abstract classes. Each
  has only the fields the player reads and writes, and a log of the calls made
  on it.
- `media.dfy` (`Media`): the media element (volume, time, `src`, call log) and
  the mute toggle.
- `videostate.dfy` (`VideoStateContext`): the track-selection store. It covers
  the default state, the precedence of the three layers of defaults, and the
  restore filter that keeps a persisted selection only while it is still
  offered. It also covers the storage entry and `updateState`.
- `videocontext.dfy` (`VideoContext`): the playback status record and one
  handler per media event.
- `hotkey.dfy` (`Hotkey`): `parseHotkey`, `compareHotkey`, `isHotkey`, the
  key-name and key-code tables, and the loop that adds the function keys.
- `usehotkey.dfy` (`UseHotKey`): finding a shortcut by name and rendering its
  keys.
- `utils.dfy` (`Utils`): `convertTime`, `parseNumberFromString`, `classNames`,
  `stringInterpolate`, `isInArray` and `mergeDeep`.
- `nestedmenu.dfy` (`NestedMenu`): the menu history stack, item visibility and
  check marks, and the three ways a sub-menu renders.
- `qualitymenu.dfy`, `subtitlemenu.dfy`, `subtitlebutton.dfy`: the menus and
  the button that write to the track store.
- `subtitlesettings.dfy` (`SubtitleSettingsContext`): the subtitle appearance
  store.
- `volume.dfy` (`VolumeHotKey`), `volumebutton.dfy` (`VolumeButton`),
  `doubletap.dfy` (`DoubleTap`): the mute hotkey, the volume button and the
  tap/double-tap classifier.
- Shared helpers:
  - `sorting.dfy`: the stable descending sort and the de-duplication used by
    the quality lists.
  - `strings.dfy`: decimal text, split/join, first-occurrence search and
    replace, ASCII case mapping, UTF-16 lengths and code units.
  - `types.dfy`: sources and tracks.
  - `wrappers.dfy`: `Option`.

Code that changes state in place is modelled as classes with `modifies`
clauses: the player's refs and engines, the stores, the menu history, the
mute state and the tap detector. Code that computes values is modelled as
functions and lemmas. Loops in the source (`parseHotkey`, `compareHotkey`,
`isHotkey`, the function-key loop, `stringInterpolate`, the volume icon
search) are methods with loop invariants. Each is proved against a
specification function, and the properties are proved about that function.

JavaScript `null` and `undefined` are both `None`. A label is truthy exactly
when it is present and not empty. Times and volumes are `real`. Array sorting
is stable, as the language requires.

## Model

| member | source | states |
|---|---|---|
| Player.ShouldPlayHls | src/components/Player/Player.tsx:30-31 | definition: the file mentions `m3u8` or the type is `hls`; Classify states where it leads |
| Player.ShouldPlayDash | src/components/Player/Player.tsx:33-34 | definition: the file mentions `mpd` or the type is `dash`; Classify states where it leads |
| Player.Classify | src/components/Player/Player.tsx:30-34 | exactly one of HLS, DASH and direct playback; HLS whenever the file mentions `m3u8` or the type is `hls`; DASH only when HLS does not apply and the file mentions `mpd` or the type is `dash` |
| Player.InitQuality | src/components/Player/Player.tsx:73-86 | definition of what `initQuality` publishes; InitQualityList and InitQualitySelection state its properties |
| Player.InitQualityList | src/components/Player/Player.tsx:73-86 | the quality list is sorted by descending label number, holds no label twice, and holds every label of a labelled source and nothing else |
| Player.InitQualitySelection | src/components/Player/Player.tsx:73-86 | the initial selection is unset exactly when no source has a label; otherwise it is the head of the quality list, a label with the greatest number, and among labels sharing that number the one that comes first in source order |
| Player.LevelLabelKey | src/components/Player/Player.tsx:147 | the label `${height}p` reads back as that height |
| Player.LevelLabels | src/components/Player/Player.tsx:144-147 | no more labels than levels; LevelLabelsOfSorted and LevelLabelsSorted say which |
| Player.LevelLabelsOfSorted | src/components/Player/Player.tsx:144-147 | on levels sorted by height, the labels are those of the leading levels with a height, in order, and every level after them has no height |
| Player.LevelLabelsSorted | src/components/Player/Player.tsx:144-147 | the labels published from HLS levels are sorted best first |
| Player.LevelIndex | src/components/Player/Player.tsx:332-335 | -1 exactly when no level has the height; otherwise the first level with that height |
| Player.PublishedLabelSelectsItsLevel | src/components/Player/Player.tsx:144-339 | choosing a published level label later switches to the first level of that height, so every offered label can be chosen |
| Player.PreferredQuality | src/components/Player/Player.tsx:149 | the host's preference wins when it returns a non-empty label; otherwise the first label, or none for an empty list |
| Player.BitrateLabels | src/components/Player/Player.tsx:232 | one label per DASH representation, in order, each reading back as its height |
| Player.FindBitrate | src/components/Player/Player.tsx:353-356 | none exactly when no representation has the height; otherwise the first one that does |
| Player.BestBitrate | src/components/Player/Player.tsx:234-247 | the chosen representation is one of those offered; when the looked-up label (the selection if set, else the preference) is non-empty and some representation has its number as height, the first such representation; otherwise the last representation |
| Player.BestBitrateHonoursSelection | src/components/Player/Player.tsx:234-247 | a selection whose number is some representation's height picks a representation of that height |
| Player.BestBitrateUsesPreference | src/components/Player/Player.tsx:234-247 | without a selection, the preferred label picks a representation of its height when one exists; with no such representation, or with no preference at all, the last representation is chosen |
| Player.DashSelectionMatchesChoice | src/components/Player/Player.tsx:249-254 | DASH publishes one label per representation; a set selection is kept, and an unset one becomes the label of the chosen representation |
| Player.DashLoadedPatch | src/components/Player/Player.tsx:251-254 | definition of what the DASH `loadeddata` listener publishes; DashSelectionMatchesChoice states its properties |
| Player.TrackLang | src/components/Player/Player.tsx:162 | a track's language is its `lang` when present, else its index as text, and never empty |
| Player.FallbackLangsDistinct | src/components/Player/Player.tsx:162-175 | two tracks without `lang` never get the same language |
| Player.SubtitleFile | src/components/Player/Player.tsx:161 | the first fragment's URL when it is non-empty; the track's URL when there is no fragment list or the first URL is empty; a throw exactly when the fragment list is empty |
| Player.DiscoveredSubtitles | src/components/Player/Player.tsx:158-165 | the mapping throws exactly when some track has an empty fragment list; otherwise one subtitle per engine track, in order, with the track's file and its language |
| Player.DiscoveredAudios | src/components/Player/Player.tsx:173-177 | one audio per engine track, in order, with its language |
| Player.SubtitleTracksPatch | src/components/Player/Player.tsx:157-169 | nothing is published exactly when some track has an empty fragment list; otherwise only the subtitle list and the subtitle selection, the list being the discovered subtitles |
| Player.AudioTracksPatch | src/components/Player/Player.tsx:171-184 | definition of what `AUDIO_TRACKS_UPDATED` publishes; DiscoveredTracksSelections and AudioTrackRoundTrip state its properties |
| Player.DiscoveredTracksSelections | src/components/Player/Player.tsx:158-184 | the subtitle handler publishes nothing exactly when some track has an empty fragment list; otherwise every discovered subtitle is offered and the selection is the first track's language; every discovered audio is offered, and the audio selection is the engine's current track, the first track when the engine has none, and unset when the engine's index is past the list |
| Player.AudioTrackRoundTrip | src/components/Player/Player.tsx:173-408 | selecting the discovered audio of the engine's current track sets the engine back to that same track |
| Player.FindByLabel | src/components/Player/Player.tsx:370-372 | none exactly when there is no selection or no source carries it; otherwise the first source with that label |
| Player.SelectSource | src/components/Player/Player.tsx:294-296 | the source played is one of the sources: the labelled one when the selection names one, else the first |
| Player.DecideQuality | src/components/Player/Player.tsx:314-391 | nothing happens with an empty quality list; a single HLS source switches level to the first level of the selected height, exactly when such a level exists; a single DASH source switches to the quality index of the first representation of the selected height, exactly when such a representation exists; any other case swaps to the first source carrying the selected label, exactly when one does, resuming at the current time |
| Player.VideoPlayer.constructor | src/components/Player/Player.tsx:56-58 | the player starts with no HLS engine, no DASH player and nothing to resume |
| Player.VideoPlayer.InitPlayer | src/components/Player/Player.tsx:90-289 | nothing without an element; HLS destroys the old engine and then creates and attaches a fresh one, or falls back to native playback; DASH resets the old player and creates one that is initialised, given the view and given the source; direct playback pauses a playing `src`, sets the new one and loads it; the other engine is untouched |
| Player.VideoPlayer.Mount | src/components/Player/Player.tsx:291-305 | the first source played is the selected one; the quality list is derived from labels unless that source is a lone HLS source; the cleanup gets the engine current at mount |
| Player.VideoPlayer.MountCleanup | src/components/Player/Player.tsx:306-310 | the captured engine, if any, is destroyed |
| Player.VideoPlayer.OnMediaAttached | src/components/Player/Player.tsx:127-128 | the engine is told to load the source's manifest and nothing else changes |
| Player.VideoPlayer.OnManifestParsed | src/components/Player/Player.tsx:130-155 | autoplay starts the element; with several sources or no levels nothing is published; otherwise the levels are sorted by descending height in place and their labels are published, with the preferred or first label selected |
| Player.VideoPlayer.OnHlsError | src/components/Player/Player.tsx:187-201 | a fatal network error makes one `startLoad` call; a fatal media error makes one `recoverMediaError` call; anything else makes no call |
| Player.VideoPlayer.OnDashLoadedData | src/components/Player/Player.tsx:229-255 | with no representations the listener throws: no call and nothing published; otherwise the player is set to the best representation, and the published labels and selection are those of DashLoadedPatch |
| Player.VideoPlayer.OnQualityChange | src/components/Player/Player.tsx:314-391 | the engine or element carries out DecideQuality's choice: the HLS level, the DASH quality index, or a re-initialisation with the time to restore; a kept quality leaves everything unchanged |
| Player.VideoPlayer.OnCanPlay | src/components/Player/Player.tsx:378-385 | after a swap the recorded time is restored and playback resumes, once |
| Player.VideoPlayer.OnAudioChange | src/components/Player/Player.tsx:393-410 | with an element, audios and a selection, the engine's audio track becomes the first audio with the selected language, or -1; otherwise it is unchanged |
| Sorting.SortDescCorrect | src/components/Player/Player.tsx:74-77 | the sort orders by descending key, is a permutation, and keeps elements with equal keys in their original order |
| Sorting.Dedupe | src/components/Player/Player.tsx:79-81 | no value twice, every value from the list, every value of the list kept |
| Sorting.DedupeFirstOccurrenceOrder | src/components/Player/Player.tsx:79-81 | the kept values appear in the order of their first occurrences |
| Sorting.DedupeKeepsSorted | src/components/Player/Player.tsx:74-81 | removing duplicates from a sorted list leaves it sorted |
| VideoStateContext.Overlay | src/contexts/VideoStateContext.tsx:136-138 | each key the partial state names is replaced, each other key kept |
| VideoStateContext.OverlayEmpty | src/contexts/VideoStateContext.tsx:136-138 | an empty partial state changes nothing |
| VideoStateContext.OverlayThen | src/contexts/VideoStateContext.tsx:136-138 | two overlays in a row are one overlay of the combined partial states, later keys winning |
| VideoStateContext.DefaultQualities | src/contexts/VideoStateContext.tsx:52-58 | the default quality list has no empty label and no more entries than sources |
| VideoStateContext.DefaultQualitiesConcat | src/contexts/VideoStateContext.tsx:52-58 | the filter keeps source order: the list for two source lists is the two lists joined |
| VideoStateContext.DefaultQualitiesMembers | src/contexts/VideoStateContext.tsx:52-58 | a quality is listed exactly when some source carries it as its non-empty label |
| VideoStateContext.FirstSubtitleLang | src/contexts/VideoStateContext.tsx:62 | the first subtitle's language, and none exactly when there are no subtitles |
| VideoStateContext.MergedState | src/contexts/VideoStateContext.tsx:72-76 | definition of the three-layer spread; MergedStatePrecedence states it field by field |
| VideoStateContext.MergedStatePrecedence | src/contexts/VideoStateContext.tsx:72-76 | field by field, the host's defaults win over the derived ones, which win over the empty state |
| VideoStateContext.NothingStoredGivesDefaults | src/contexts/VideoStateContext.tsx:72-78 | with no stored entry the merged defaults come back unchanged; with no host defaults either, the quality list is the labels and the subtitle selection the first subtitle |
| VideoStateContext.LangList | src/contexts/VideoStateContext.tsx:82-87 | one language per track, in order, for audio and subtitle tracks alike |
| VideoStateContext.NonEmptyLangs | src/contexts/VideoStateContext.tsx:82-87 | the languages a restore may accept are never empty |
| VideoStateContext.NonEmptyLangsMembers | src/contexts/VideoStateContext.tsx:82-87 | a language is kept by the filter exactly when it is non-empty and in the list |
| VideoStateContext.TrackLangsMembers | src/contexts/VideoStateContext.tsx:82-99 | a persisted audio or subtitle language is accepted exactly when some audio or subtitle track has it |
| VideoStateContext.GetState | src/contexts/VideoStateContext.tsx:69-102 | definition of `getState`; RestoreKeepsAvailable and RestoreTouchesOnlySelections state its properties |
| VideoStateContext.RestoreKeepsAvailable | src/contexts/VideoStateContext.tsx:90-100 | each of the three persisted selections is kept exactly when it is still offered, and otherwise replaced by the merged default |
| VideoStateContext.RestoreTouchesOnlySelections | src/contexts/VideoStateContext.tsx:90-102 | a restore changes only the three selections; a persisted subtitle on/off flag is ignored |
| VideoStateContext.SaveBlob | src/contexts/VideoStateContext.tsx:118-132 | the entry written holds the three selections and the subtitle flag of the state, and nothing else |
| VideoStateContext.SaveThenRestoreIsStable | src/contexts/VideoStateContext.tsx:69-134 | saving a restored state and restoring again under the same props gives the same state |
| VideoStateContext.SavedSelectionComesBack | src/contexts/VideoStateContext.tsx:90-100 | a saved selection the props still offer comes back on the next restore |
| VideoStateContext.TrackStore.constructor | src/contexts/VideoStateContext.tsx:105 | the store starts from the restored state and immediately writes its entry |
| VideoStateContext.TrackStore.Persist | src/contexts/VideoStateContext.tsx:115-134 | the state is unchanged and the entry becomes its save blob |
| VideoStateContext.TrackStore.UpdateState | src/contexts/VideoStateContext.tsx:136-138 | the selector's partial result is overlaid on the previous state and the new state is saved |
| VideoStateContext.TrackStore.Reload | src/contexts/VideoStateContext.tsx:107-113 | a change of props restores from the stored entry again and saves the result |
| QualityMenu.QualityChange | src/components/Controls/SettingsButton/QualityMenu.tsx:11-13 | definition of the selector; QualityChangeSetsOnlyQuality states its effect |
| QualityMenu.QualityChangeSetsOnlyQuality | src/components/Controls/SettingsButton/QualityMenu.tsx:11-13 | choosing a quality sets the selection to it and leaves every other key alone |
| QualityMenu.ActiveQualityKey | src/components/Controls/SettingsButton/QualityMenu.tsx:19 | the checked quality is the selection when it is non-empty, else the first quality, else none |
| QualityMenu.QualityItems | src/components/Controls/SettingsButton/QualityMenu.tsx:23-30 | one item per quality, in order, whose key, title and value are that quality |
| QualityMenu.QualityMenuProps | src/components/Controls/SettingsButton/QualityMenu.tsx:15-32 | no menu exactly when there is no quality; otherwise the quality sub-menu with the active key and the items |
| QualityMenu.ChosenQualityIsActive | src/components/Controls/SettingsButton/QualityMenu.tsx:11-19 | after a quality is chosen it is the checked one |
| QualityMenu.UnselectedShowsFirstQuality | src/components/Controls/SettingsButton/QualityMenu.tsx:19 | with no selection, the base menu's entry button shows the first quality |
| QualityMenu.QualityItemChecked | src/components/Controls/SettingsButton/QualityMenu.tsx:19-30 | in the open menu a quality's item is checked exactly when it is the active key |
| SubtitleMenu.SubtitleChange | src/components/Controls/SettingsButton/SubtitleMenu/SubtitleMenu.tsx:12-28 | definition of the selector; SubtitleChangeEffect states its effect |
| SubtitleMenu.SubtitleChangeEffect | src/components/Controls/SettingsButton/SubtitleMenu/SubtitleMenu.tsx:12-28 | `off` disables subtitles and clears the selection; any other value enables subtitles and selects it; nothing else changes |
| SubtitleMenu.ActiveSubtitleKey | src/components/Controls/SettingsButton/SubtitleMenu/SubtitleMenu.tsx:34-40 | `off` while disabled, else the selection when non-empty, else the first track's language |
| SubtitleMenu.SubtitleItems | src/components/Controls/SettingsButton/SubtitleMenu/SubtitleMenu.tsx:46-55 | the `off` item first, then one item per subtitle track in order, keyed by its language |
| SubtitleMenu.SubtitleMenuProps | src/components/Controls/SettingsButton/SubtitleMenu/SubtitleMenu.tsx:30-57 | no menu exactly when there are no subtitle tracks; otherwise the subtitle sub-menu with the active key and the items |
| SubtitleMenu.ChosenSubtitleIsActive | src/components/Controls/SettingsButton/SubtitleMenu/SubtitleMenu.tsx:12-40 | whatever is chosen becomes the active key |
| SubtitleMenu.DisabledShowsOff | src/components/Controls/SettingsButton/SubtitleMenu/SubtitleMenu.tsx:34-46 | while subtitles are disabled the entry button shows the `off` title |
| SubtitleButton.Toggle | src/components/Controls/SubtitleButton.tsx:12-16 | definition of the selector; ToggleFlipsOnlyFlag states its effect |
| SubtitleButton.ToggleFlipsOnlyFlag | src/components/Controls/SubtitleButton.tsx:12-16 | a toggle negates the subtitle flag and changes nothing else |
| SubtitleButton.ToggleTwiceRestores | src/components/Controls/SubtitleButton.tsx:13-15 | two toggles give back the state |
| SubtitleButton.ButtonTooltip | src/components/Controls/SubtitleButton.tsx:18-29 | no button exactly when there are no subtitle tracks; the enable text while disabled, the disable text otherwise |
| SubtitleButton.ClickTwice | src/components/Controls/SubtitleButton.tsx:12-16 | two clicks leave the store and its storage entry as they were |
| SubtitleSettingsContext.Overlay | src/contexts/SubtitleSettingsContext.tsx:48-55 | each key the partial settings name is replaced, each other key kept |
| SubtitleSettingsContext.InitialSettings | src/contexts/SubtitleSettingsContext.tsx:43-46 | definition of the initial state; InitialSettingsPrecedence states it key by key |
| SubtitleSettingsContext.InitialSettingsPrecedence | src/contexts/SubtitleSettingsContext.tsx:43-46 | without host settings the initial state is the defaults; with them, each key the host gives wins and the others keep their defaults |
| SubtitleSettingsContext.OverlaySameValues | src/contexts/SubtitleSettingsContext.tsx:48-55 | overlaying the values a state already has changes nothing |
| SubtitleSettingsContext.SubtitleSettingsStore.constructor | src/contexts/SubtitleSettingsContext.tsx:57-69 | a stored entry replaces the whole state; without one the state is the initial settings; either way the state is then written back |
| SubtitleSettingsContext.SubtitleSettingsStore.UpdateState | src/contexts/SubtitleSettingsContext.tsx:48-69 | the selector's result is overlaid and the whole new state is persisted |
| VideoContext.Merge | src/contexts/VideoContext.tsx:52-54 | each field the update names is replaced, each other field kept |
| VideoContext.MergeNothing | src/contexts/VideoContext.tsx:52-54 | an empty update changes nothing |
| VideoContext.MergeThen | src/contexts/VideoContext.tsx:52-54 | two updates in a row are one update of the combined record, later fields winning |
| VideoContext.MergeIdempotent | src/contexts/VideoContext.tsx:52-54 | applying the same update twice is applying it once |
| VideoContext.ErrorText | src/contexts/VideoContext.tsx:71-75 | the element's message when it has a non-empty one, else `Something went wrong with video`; never empty |
| VideoContext.EventPatch | src/contexts/VideoContext.tsx:77-121 | definition of each handler's update; EventEffects states them field by field |
| VideoContext.EventEffects | src/contexts/VideoContext.tsx:77-121 | field by field, the state each media event leaves: waiting buffers; play and playing un-pause and stop buffering; loadeddata and timeupdate copy time and duration and clear the error; ended stops; pause pauses; volumechange copies the volume; error records the error text |
| VideoContext.EventsKeepSeeking | src/contexts/VideoContext.tsx:123-131 | no event changes `seeking`, and only `ended` changes `ended` |
| VideoContext.ProgressClearsErrorAndBuffering | src/contexts/VideoContext.tsx:83-113 | after loadeddata or timeupdate the video is not buffering and reports no error |
| VideoContext.VideoStore.constructor | src/contexts/VideoContext.tsx:26-35 | the status starts at time 0, duration 0, paused, buffering, volume 1, not ended, not seeking, with an empty error; it records whether the HLS engine ref was set at mount (VideoContext.tsx:61-65) |
| VideoContext.VideoStore.UpdateState | src/contexts/VideoContext.tsx:52-54 | the new status is the old one with the update merged in |
| VideoContext.VideoStore.HandleWaiting | src/contexts/VideoContext.tsx:77-81 | only `buffering` becomes true |
| VideoContext.VideoStore.HandleLoadedData | src/contexts/VideoContext.tsx:83-90 | time and duration copied, buffering off, error cleared, nothing else changed |
| VideoContext.VideoStore.HandlePlay | src/contexts/VideoContext.tsx:92-97 | not paused, not buffering, nothing else changed |
| VideoContext.VideoStore.HandlePause | src/contexts/VideoContext.tsx:99-103 | only `paused` becomes true |
| VideoContext.VideoStore.HandleTimeupdate | src/contexts/VideoContext.tsx:105-113 | time and duration copied, not buffering, not paused, error cleared, nothing else changed |
| VideoContext.VideoStore.HandleEnded | src/contexts/VideoContext.tsx:115-117 | ended and paused, nothing else changed |
| VideoContext.VideoStore.HandleVolumeChange | src/contexts/VideoContext.tsx:119-121 | only the volume is copied |
| VideoContext.VideoStore.HandleError | src/contexts/VideoContext.tsx:71-75 | only the error changes, to the error text |
| VideoContext.VideoStore.HandleHlsError | src/contexts/VideoContext.tsx:146-154 | when an HLS engine existed at mount, every HLS error records its details text as the error and changes nothing else; otherwise the state is unchanged |
| VideoContext.VideoStore.OnEvent | src/contexts/VideoContext.tsx:123-131 | the listener for each event applies exactly that event's update |
| Hotkey.InitCodes | src/utils/hotkey.ts:38-77 | the code table built at load is the written-out table with the function keys added |
| Hotkey.AddFunctionKeys | src/utils/hotkey.ts:75-77 | the loop adds f1 to f19 to the table, each with code 111 plus its number |
| Hotkey.FunctionKeyCode | src/utils/hotkey.ts:75-77 | each function key f1 to f19 is in the table with code 111 plus its number |
| Hotkey.BaseCode | src/utils/hotkey.ts:38-77 | a name not starting with `f` has exactly the code the written-out table gives it |
| Hotkey.FunctionKeyCodes | src/utils/hotkey.ts:179-183 | f1 to f19 have codes 112 to 130, written in either case |
| Hotkey.FunctionKeyHasNoAlias | src/utils/hotkey.ts:14-36 | no function key is renamed by an alias on either platform |
| Hotkey.ToKeyName | src/utils/hotkey.ts:185-189 | definition: lower-cased, then replaced by a truthy alias |
| Hotkey.ToKeyCode | src/utils/hotkey.ts:179-183 | definition: the truthy code of the key name, else the first UTF-16 code unit of its upper-cased form; FunctionKeyCodes and AddFacts state instances |
| Hotkey.Parse | src/utils/hotkey.ts:99-136 | definition of the segment-by-segment result; ParseHotkey connects the loop to it, ParseThrowsIffUnknownSegment states when it throws |
| Hotkey.ParseHotkey | src/utils/hotkey.ts:99-136 | the loop returns, or throws with, exactly what the segment-by-segment specification gives, segment lengths counted in UTF-16 code units |
| Hotkey.InitialRecord | src/utils/hotkey.ts:107-110 | a parse starts with all four modifier flags false and no key code |
| Hotkey.ParseSegment | src/utils/hotkey.ts:112-133 | a segment throws exactly when it is refused (longer than one UTF-16 code unit once its `?` is stripped and neither a modifier, an alias nor a code), naming it without its `?`; otherwise it is absorbed into the record |
| Hotkey.HotkeyAfterStep | src/utils/hotkey.ts:112-133 | one accepted segment more is one step of the loop body |
| Hotkey.AbsorbFlag | src/utils/hotkey.ts:130-132 | a segment naming a modifier sets its flag to true, or to don't-care when optional; other flags are kept |
| Hotkey.AbsorbWhich | src/utils/hotkey.ts:126-128 | a non-modifier segment, or the only segment, sets the key code; a modifier among several keeps it |
| Hotkey.FlagFalseIffNotNamed | src/utils/hotkey.ts:107-132 | a modifier flag stays false exactly when no segment names that modifier |
| Hotkey.LastNamingSegmentDecides | src/utils/hotkey.ts:113-132 | the last segment naming a modifier decides its flag: don't-care when optional, otherwise true |
| Hotkey.FirstUnknownIff | src/utils/hotkey.ts:122-124 | some segment is named in a throw exactly when some segment is refused |
| Hotkey.ParseThrowsIffUnknownSegment | src/utils/hotkey.ts:103-124 | parsing a shortcut throws exactly when one of its segments is longer than one UTF-16 code unit and is neither a modifier, an alias nor a code |
| Hotkey.OptionalInCodeUnits | src/utils/hotkey.ts:113 | measuring the segment in UTF-16 code units, as the code does, decides optionality as counting characters does |
| Hotkey.AstralCharacterRefused | src/utils/hotkey.ts:122-124 | a lone character outside the Basic Multilingual Plane is two code units long and is refused, so its parse throws |
| Strings.Utf16Length | src/utils/hotkey.ts:113-122 | a string's JavaScript `length`: at least its number of characters and at most twice it, and equal to it exactly when no character lies above U+FFFF |
| Strings.FirstCodeUnit | src/utils/hotkey.ts:181 | the `charCodeAt(0)` of a string starting with the character: the character itself up to U+FFFF, else a high surrogate |
| Hotkey.WhichUnsetIffAllModifiers | src/utils/hotkey.ts:126-128 | with several segments, the key code stays unset exactly when every segment is a modifier |
| Hotkey.LoneModifier | src/utils/hotkey.ts:126-132 | a shortcut that is one modifier sets that flag and also its key code |
| Hotkey.ModifierAndKey | src/utils/hotkey.ts:126-132 | a modifier followed by a key sets that flag and the key's code |
| Hotkey.ParseLoneModifier | src/utils/hotkey.ts:99-136 | the parse of a one-modifier text is that modifier's flag true with its code |
| Hotkey.ParseModifierAndKey | src/utils/hotkey.ts:99-136 | the parse of a modifier-and-key text is that flag true with the key's code |
| Hotkey.NoPlusSegments | src/utils/hotkey.ts:103-104 | a text without `+` is a single segment |
| Hotkey.PlusSegments | src/utils/hotkey.ts:103-104 | a name followed by `++` splits into the name and `add` |
| Hotkey.DoublePlusReplaced | src/utils/hotkey.ts:103 | only the first `++`, here the trailing one, becomes `+add` |
| Hotkey.LoneModifierName | src/utils/hotkey.ts:119-132 | any spelling of a modifier's own name parses to that flag with its code |
| Hotkey.LoneShift | src/utils/hotkey.ts:126-128 | `shift`, in any case, parses to shift true and key code 16 |
| Hotkey.ModifierPlus | src/utils/hotkey.ts:103-104 | a modifier name followed by `++` parses to that modifier with the plus key |
| Hotkey.AddFacts | src/utils/hotkey.ts:15 | `add` is accepted, is not a modifier, and has the code of `+` |
| Hotkey.PlusKey | src/utils/hotkey.ts:103 | `ctrl++` parses to ctrl true and the code of `+` (43) |
| Hotkey.CompareHotkey | src/utils/hotkey.ts:142-173 | the key-by-key loop with early return answers exactly whether the event meets every expectation |
| Hotkey.ParseAll | src/utils/hotkey.ts:88 | the alternatives are parsed in order; the first throw decides the result |
| Hotkey.ParseEachOk | src/utils/hotkey.ts:88 | parsing all alternatives succeeds exactly when each succeeds, one record per alternative in order |
| Hotkey.IsHotkey | src/utils/hotkey.ts:83-93 | every alternative is parsed first, so any bad one throws; then the answer is whether some record matches |
| Hotkey.IsHotkeySpec | src/utils/hotkey.ts:83-93 | definition of the answer or the throw of `isHotkey`; IsHotkey connects the loops to it |
| Hotkey.SomeMatches | src/utils/hotkey.ts:89-90 | the early-exit search answers exactly whether some record matches |
| Hotkey.MetaKeyAlias | src/utils/hotkey.ts:156-157 | an event with key code 93 matches as 91 would |
| Hotkey.DontCareIgnoresField | src/utils/hotkey.ts:150-152 | a don't-care modifier accepts any value of that event field, or a missing one |
| UseHotKey.FindHotKey | src/hooks/useHotKey.ts:7-10 | none exactly when no shortcut has the name; otherwise the first one with it |
| UseHotKey.ParseHotKey | src/hooks/useHotKey.ts:15-26 | empty for no shortcut or an empty text; a text shortcut unchanged; a list its keys joined by the separator, so one key alone and nothing for an empty list |
| UseHotKey.ParseHotKeyRoundTrip | src/hooks/useHotKey.ts:21-23 | a list of keys can be read back from its rendering when no key contains the separator |
| UseHotKey.DefaultSeparatorJoins | src/hooks/useHotKey.ts:17-23 | with the default separator, any two keys `a` and `b` render as `a/b` |
| Utils.ClassNames | src/utils/index.ts:1-3 | definition: the kept names joined by single spaces; ClassNamesDropsFalsy and ClassNamesSplit state its properties |
| Utils.KeptClassTexts | src/utils/index.ts:1-3 | the kept class names are no more than the arguments and are never empty |
| Utils.KeptClassTextsConcat | src/utils/index.ts:1-3 | filtering keeps argument order: the names for two argument lists are the two lists joined |
| Utils.ClassNamesDropsFalsy | src/utils/index.ts:1-3 | a falsy argument anywhere has no effect on the class string |
| Utils.ClassNamesSplit | src/utils/index.ts:1-3 | splitting the class string on spaces gives back the kept names, joined by single spaces |
| Utils.DigitsOf | src/utils/index.ts:28-30 | only digits are kept, and no more than the text had |
| Utils.DigitsOfConcat | src/utils/index.ts:28-30 | the digits of two texts joined are the two texts' digits joined |
| Utils.ParseNumberFromString | src/utils/index.ts:28-30 | definition: the digits of the text read as one decimal number; ParseNumberOfLabel and its neighbours state its properties |
| Utils.ParseNumberNoDigits | src/utils/index.ts:28-30 | a text without digits parses as 0 |
| Utils.ParseNumberIgnoresNonDigit | src/utils/index.ts:28-30 | a non-digit anywhere in the text does not change the number |
| Utils.ParseNumberOfLabel | src/utils/index.ts:28-30 | a number followed by a suffix without digits (as in `720p`) parses back as that number |
| Utils.TimeText | src/utils/index.ts:5-25 | definition of the clock text; TimeTextRoundTrip, TimeTextShort and TimeTextLong state its properties |
| Utils.TimeFields | src/utils/index.ts:5-25 | two fields under an hour and three from an hour on; every field is digits; the last is the seconds, two digits |
| Utils.TimeTextRoundTrip | src/utils/index.ts:5-25 | the clock text stands for exactly the whole seconds of the input |
| Utils.TimeTextFields | src/utils/index.ts:17-18 | the text has two fields under an hour and three from an hour on, and its seconds field is two digits worth less than 60 |
| Utils.TimeTextShort | src/utils/index.ts:7-24 | under an hour: unpadded minutes, a colon, two-digit seconds |
| Utils.TimeTextLong | src/utils/index.ts:10-22 | from an hour on: two-digit hours, minutes less the whole hours, and seconds |
| Utils.PaddedIsPad2 | src/utils/index.ts:12-18 | the code's padding of a number below 10 with a `0` gives two digits |
| Utils.FloorDivSixty | src/utils/index.ts:7-17 | the minutes and seconds computed on reals are the whole-second quotient and remainder by 60 |
| Utils.ShortClockRoundTrip | src/utils/index.ts:24 | `m:ss` stands for `m * 60 + ss` seconds |
| Utils.LongClockRoundTrip | src/utils/index.ts:21 | `hh:mm:ss` stands for `hh * 3600 + mm * 60 + ss` seconds |
| Utils.ConvertTime | src/utils/index.ts:5-25 | the step-by-step computation produces the clock text, which stands for the input's whole seconds |
| Utils.Interpolated | src/utils/index.ts:72-78 | definition: entry by entry, the first placeholder of each key replaced; StringInterpolate connects the loop to it |
| Utils.StringInterpolate | src/utils/index.ts:72-78 | the loop over the data entries gives the template with, entry by entry, the first placeholder of each key replaced |
| Utils.InterpolatedWithoutPlaceholders | src/utils/index.ts:72-78 | a template without `{{` comes back unchanged |
| Utils.InterpolatedFirstOnly | src/utils/index.ts:74 | only the first occurrence of a placeholder is replaced |
| Utils.IndexOf | src/utils/index.ts:94-96 | -1 exactly when the value is absent; otherwise the first index holding it |
| Utils.IsInArray | src/utils/index.ts:94-96 | true exactly when the value is in the array |
| Utils.MergeInto | src/utils/index.ts:41-50 | unless both are objects the target is unchanged; otherwise the result is an object whose keys are those of the target and the source |
| Utils.MergeIntoOverwritesLeaves | src/utils/index.ts:46-48 | a source key whose value is not an object ends with exactly that value |
| Utils.MergeIntoKeepsOtherKeys | src/utils/index.ts:42-49 | a key the source lacks keeps the target's value |
| Utils.MergeIntoCreatesNested | src/utils/index.ts:43-45 | a nested source object is merged into a fresh `{}` when the target lacks the key |
| Utils.MergeIntoMergesNested | src/utils/index.ts:43-45 | a nested source object on a key the target has is merged into the target's value when that is truthy, and into `{}` when it is falsy |
| Utils.MergeIntoKeepsInnerKeys | src/utils/index.ts:43-45 | merging into a nested object keeps every inner key the nested source lacks |
| Utils.MergeIntoIdempotent | src/utils/index.ts:37-53 | merging the same source twice changes nothing more |
| Utils.MergeIntoEmpty | src/utils/index.ts:41-50 | merging an empty object changes nothing |
| Utils.MergeDeep | src/utils/index.ts:37-53 | with no sources, or a target that is not an object, the target comes back; an object target stays an object and keeps its keys |
| Utils.MergeDeepConcat | src/utils/index.ts:37-53 | merging a list of sources is merging its parts one after another |
| NestedMenu.Pushed | src/components/NestedMenu/NestedMenu.tsx:47-49 | the old history stays below, in order, and the menu is on top |
| NestedMenu.Popped | src/components/NestedMenu/NestedMenu.tsx:51-53 | exactly the last menu is removed; the others stay in order |
| NestedMenu.PopUndoesPush | src/components/NestedMenu/NestedMenu.tsx:47-53 | push followed by pop gives back the history |
| NestedMenu.Active | src/components/NestedMenu/NestedMenu.tsx:55 | the active menu is the last one in the history, and none exactly when the history is empty |
| NestedMenu.PushedIsActive | src/components/NestedMenu/NestedMenu.tsx:47-55 | the menu just pushed is active |
| NestedMenu.BackButton | src/components/NestedMenu/NestedMenu.tsx:66-78 | the back button appears exactly when the active menu is not `base`, labelled with that menu's title |
| NestedMenu.MenuHistory.constructor | src/components/NestedMenu/NestedMenu.tsx:28-41 | the history starts as the base menu alone |
| NestedMenu.MenuHistory.Push | src/components/NestedMenu/NestedMenu.tsx:47-49 | exactly one menu is appended, and the base menu stays at the bottom |
| NestedMenu.MenuHistory.Pop | src/components/NestedMenu/NestedMenu.tsx:51-53 | exactly the last menu is removed |
| NestedMenu.MenuHistory.GoBack | src/components/NestedMenu/NestedMenu.tsx:43-45 | going back from a non-base menu removes it and leaves the base menu at the bottom |
| NestedMenu.ItemShown | src/components/NestedMenu/NestedMenu.tsx:132-142 | definition: shown exactly when its parent menu, `base` by default, is the active one; HandedOnItemShownIff uses it |
| NestedMenu.ItemActive | src/components/NestedMenu/NestedMenu.tsx:143 | definition: checked exactly when its key is the active item key; EntryOpensSubMenu uses it |
| NestedMenu.WithMenuKey | src/components/NestedMenu/NestedMenu.tsx:210-221 | a sub-menu's items are handed on in order, each placed under the sub-menu and given its active key |
| NestedMenu.ActiveItem | src/components/NestedMenu/NestedMenu.tsx:229 | none exactly when no item has the active key; otherwise the first such item |
| NestedMenu.RenderSubMenu | src/components/NestedMenu/NestedMenu.tsx:206-256 | nothing exactly when there are no children; its own list exactly when it is the active menu; the entry button with the active item's title exactly when its parent is active; the bare children otherwise |
| NestedMenu.EntryOpensSubMenu | src/components/NestedMenu/NestedMenu.tsx:192-197 | clicking the entry button makes the sub-menu active: its list renders, every item is shown, the active one is checked, and the back button appears unless it is `base` |
| NestedMenu.HandedOnItemShownIff | src/components/NestedMenu/NestedMenu.tsx:142-221 | an item handed on by a sub-menu is shown exactly when the sub-menu renders its own list |
| Media.ToggleMute | src/hotkeys/volume.ts:7-13 | at volume 0 the remembered volume comes back and stays remembered; otherwise the volume is remembered and set to 0 |
| Media.ToggleTwiceRestoresVolume | src/hotkeys/volume.ts:7-13 | two presses from an audible volume bring it back |
| Media.ToggleTwiceFromSilence | src/hotkeys/volume.ts:8-9 | two presses from silence, with an audible volume remembered, change nothing |
| Media.ToggleKeepsAudibleVolume | src/hotkeys/volume.ts:7-13 | an audible volume is never lost: it either plays or is remembered |
| Media.MediaElement.Load | src/components/Player/Player.tsx:284 | one `load` call is logged; volume, time and `src` are unchanged |
| Media.MediaElement.Pause | src/components/Player/Player.tsx:279 | one `pause` call is logged; volume, time and `src` are unchanged |
| Media.MediaElement.Play | src/components/Player/Player.tsx:380 | one `play` call is logged; volume, time and `src` are unchanged |
| VolumeHotKey.VolumeHotKey.constructor | src/hotkeys/volume.ts:3-17 | the hotkey is named `volume`, defaults to `m`, and remembers volume 1 |
| VolumeHotKey.VolumeHotKey.Press | src/hotkeys/volume.ts:7-13 | a press applies the mute toggle to the element's volume and the remembered one, and changes nothing else on the element |
| VolumeHotKey.PressTwice | src/hotkeys/volume.ts:7-13 | two presses from an audible volume bring it back |
| VolumeButton.IconFor | src/components/Controls/VolumeButton/VolumeButton.tsx:14-39 | definition of the icon band by band; VolumeComponent connects the search to it |
| VolumeButton.ThresholdsAscending | src/components/Controls/VolumeButton/VolumeButton.tsx:14-30 | the icon thresholds, once sorted, are strictly ascending |
| VolumeButton.VolumeComponent | src/components/Controls/VolumeButton/VolumeButton.tsx:27-39 | the search with early return picks the icon of the first threshold the volume does not exceed, muted above the last |
| VolumeButton.MutedIconIff | src/components/Controls/VolumeButton/VolumeButton.tsx:27-39 | the muted icon shows exactly for silence and for volumes above 1 |
| VolumeButton.IconMonotone | src/components/Controls/VolumeButton/VolumeButton.tsx:14-39 | up to full volume, louder never shows a quieter icon |
| VolumeButton.VolumeButton.constructor | src/components/Controls/VolumeButton/VolumeButton.tsx:25 | the remembered volume starts at the status record's volume |
| VolumeButton.VolumeButton.HandleClick | src/components/Controls/VolumeButton/VolumeButton.tsx:41-50 | nothing without an element; otherwise one mute toggle of the element's volume and the remembered one |
| VolumeButton.HandleVolumeChange | src/components/Controls/VolumeButton/VolumeButton.tsx:52-59 | a slider percent p sets the volume to p/100, which reads back as p percent |
| VolumeButton.TooltipTemplate | src/components/Controls/VolumeButton/VolumeButton.tsx:64-72 | the unmute text for a silent element, else the mute text |
| VolumeButton.Tooltip | src/components/Controls/VolumeButton/VolumeButton.tsx:64-72 | definition: the template with `{{shortcut}}` replaced by the volume hotkey's keys |
| DoubleTap.DoubleTap.constructor | src/hooks/useDoubleTap.ts:11-13 | threshold 300 by default, last tap at 0, no callback pending, and which of the two callbacks were given |
| DoubleTap.DoubleTap.HandleTap | src/hooks/useDoubleTap.ts:15-34 | the pending single tap is always cancelled; a tap strictly later than the last and within the threshold reports a double tap, calling `onDoubleTap` only when it was given; any other tap schedules exactly one single tap; the last tap time is always updated |
| DoubleTap.DoubleTap.Fire | src/hooks/useDoubleTap.ts:28-30 | a pending timer runs the single-tap callback once, only when `onTap` was given, and leaves nothing pending |
| DoubleTap.DoubleTap.AtMostOnePending | src/hooks/useDoubleTap.ts:18-31 | at most one single-tap callback is ever pending |

## Left out

- React rendering, memoisation and the component tree are not modelled. Each component is reduced to the props it computes and the state updates it makes.
- Browser storage and `JSON.parse`/`JSON.stringify` are I/O. The parsed storage entry is an input, and the entry written is a field of the store.
- The clock, the timer queue and the media events are driven from outside. `DoubleTap.HandleTap` takes the times it reads as parameters, the host fires timers through `Fire`, and media events are calls of `OnEvent`.
- The internals of hls.js and dash.js are outside this model: level detection, manifest loading, error classification, recovery, `getBitrateInfoListFor`. The engines keep only the fields the player reads and writes, and a log of the calls made on them.
- The `setAutoPlay` and `updateSettings` calls on the DASH player are not in the call log. They do not affect any decision of the player.
- `src/utils/load-script.ts` (loading the engine scripts), `hlsConfig`, `xhrSetup` and `changeSourceUrl` are left out: script loading and request rewriting belong to the engines.
- The `onInit`, `onHlsInit` and `onDashInit` callbacks, and the `playerRef`/`hlsRef`/`dashRef` exposure, are left out. They hand objects to the host and decide nothing.
- Awaiting the engine scripts is treated as atomic. `InitPlayer` runs a whole branch in one step, with no interleaving of other effects.
- The `play()` promise's rejection and the console messages are left out. They are logging only.
- The `loadeddata` listener that each DASH initialisation adds is not accumulated. `OnDashLoadedData` models one run of it.
- The removal of the `canplay` listener when the quality changes again is modelled by `OnCanPlay` restoring the time once and clearing what is recorded. A listener that would be removed is simply never run.
- AudioMenu, the playback speed menu, the subtitle font and opacity menus and the `SubtitleSettings` entry rendered inside the subtitle menu are left out. They set one value each. The audio selection is modelled as a language string, as the player compares it.
- The `subtitleTrack` and `subtitleDisplay` settings of the HLS engine are not modelled. The player sets them from props; they do not affect the modelled state.
- `isValidUrl`, `randomString`, `download` and `getHeightAndWidthFromDataUrl` are left out. They are a regular expression, randomness and browser I/O.
- `mergeDeep` changes its target in place and returns it. `Utils.MergeInto` and `Utils.MergeDeep` return the merged value instead, so aliasing of nested objects between target and source is not modelled. Inherited and prototype keys are not modelled either.
- `stringInterpolate` uses `String.replace`. The `$` patterns that a replacement text may contain are not interpreted.
- Case mapping (`ToLower`, `ToUpper`) covers ASCII letters only.
- Hotkey.Unknown, Hotkey.ToKeyName, Hotkey.ToKeyCode: the three tables are maps holding only the keys written in src/utils/hotkey.ts:7-77. In the code they are object literals, so `ALIASES[value]`, `MODIFIERS[name]` and `CODES[name]` (hotkey.ts:120-122, 181, 187) also answer keys inherited from `Object.prototype`. For example, for the segment `toString`, `ALIASES[value]` is a function and so truthy. The code therefore accepts the segment and gives it `which` 84, the code unit of `T`. The model treats inherited keys as absent, so it refuses that segment.
- Strings are sequences of Unicode characters. JavaScript's UTF-16 view appears only where a shortcut parse depends on it: segment lengths and the first code unit of a key name. Other string operations give the same answer either way for the texts they are applied to.
- Utils.ConvertTime: requires a non-negative number of seconds. NaN, negative input and non-number input are not modelled, nor is JavaScript number formatting beyond whole numbers.
- JavaScript `null` and `undefined` are both `None`. An unset selection matches no source label in `Player.FindByLabel` and `Player.SelectSource`. In the code an `undefined` selection would also match a source without a label.
- An HLS level without a height is modelled as height 0. A source without a label has no label, and an empty label counts as none, as the code's truthiness test decides.
- Player.BestBitrate, Player.DashLoadedPatch: require a non-empty list of representations. With an empty list `bitrates[bitrates.length - 1]` is `undefined` and the listener throws at `bestQuality.qualityIndex`; `Player.VideoPlayer.OnDashLoadedData` models that throw as publishing nothing.
- Player.SelectSource, Player.VideoPlayer.Mount: require at least one source. With none, the mount effect throws: `shouldPlayHls(undefined)` in its quality check reads `file` of `undefined`.
- Player.DecideQuality, Player.VideoPlayer.OnQualityChange: require at least one source unless the quality effect returns early (no element, or an empty quality list). Past those returns, with no source, `shouldPlayHls(undefined)` throws; that throw is not modelled.
- The key code of an empty segment is the `NaN` that `charCodeAt` gives. It is modelled as a code that matches no event.
- The curried form of `isHotkey` (called without an event) is left out. It only delays the same comparison.
- `useGlobalHotKeys` and its focus filtering are DOM wiring and are left out. Only the lookup and the comparison are modelled.
- Hotkey.LoneShift, Hotkey.PlusKey: stated for any name that lower-cases to `shift` or `ctrl`, not for every modifier name. `Hotkey.LoneModifierName` and `Hotkey.ModifierPlus` give the general forms.
- VolumeButton.VolumeComponent: the icon table is modelled as the sorted list, not sorted at each call. The slider's percent display with the muted override is left out.
- NestedMenu.MenuHistory.GoBack: requires the back button to be shown. The button is the only way to call it, so the base menu is never popped.
- DoubleTap.DoubleTap.Fire: requires the timer to be pending. The host never fires a timer that was cleared.
- Timing and number precision are not modelled. Volumes and times are exact reals, and quality numbers are unbounded naturals.
