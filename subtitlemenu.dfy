/** The subtitle sub-menu of the settings menu. */
module SubtitleMenu {
  import opened Wrappers
  import opened Types
  import opened VideoStateContext
  import opened NestedMenu

  const SubtitleMenuKey: string := "subtitles"
  const OffKey: string := "off"

  /** `handleSubtitleChange(value)`: `off` disables subtitles, anything else selects that track. */
  function SubtitleChange(value: string): TrackPatch {
    if value == OffKey then EmptyPatch().(isSubtitleDisabled := Some(true), currentSubtitle := Some(None))
    else EmptyPatch().(isSubtitleDisabled := Some(false), currentSubtitle := Some(Some(value)))
  }

  /** The effect of a choice on the store: only the two subtitle keys change. */
  lemma SubtitleChangeEffect(s: TrackState, value: string)
    ensures value == OffKey ==> Overlay(s, SubtitleChange(value)) == s.(isSubtitleDisabled := true, currentSubtitle := None)
    ensures value != OffKey ==>
              Overlay(s, SubtitleChange(value)) == s.(isSubtitleDisabled := false, currentSubtitle := Some(value))
  {
  }

  /** The active key: `off` when disabled, else the selection, else the first track's `lang`. */
  function ActiveSubtitleKey(s: TrackState): (k: Option<string>)
    ensures s.isSubtitleDisabled ==> k == Some(OffKey)
    ensures !s.isSubtitleDisabled && s.currentSubtitle.Some? && s.currentSubtitle.value != "" ==> k == s.currentSubtitle
    ensures !s.isSubtitleDisabled && (s.currentSubtitle.None? || s.currentSubtitle.value == "") ==>
              k == FirstSubtitleLang(s.subtitles)
  {
    if s.isSubtitleDisabled then Some(OffKey)
    else if s.currentSubtitle.None? || s.currentSubtitle.value == "" then
      (if |s.subtitles| > 0 then Some(s.subtitles[0].lang) else None)
    else s.currentSubtitle
  }

  /** The `off` item followed by one item per subtitle track, in order. */
  function SubtitleItems(offTitle: string, subtitles: seq<Subtitle>): (items: seq<ItemProps>)
    ensures |items| == |subtitles| + 1
    ensures items[0] == ItemProps(None, OffKey, offTitle, None, OffKey)
    ensures forall i :: 0 <= i < |subtitles| ==>
              items[i + 1] == ItemProps(None, subtitles[i].lang, subtitles[i].language, None, subtitles[i].lang)
  {
    [ItemProps(None, OffKey, offTitle, None, OffKey)] +
    seq(|subtitles|, i requires 0 <= i < |subtitles| =>
      ItemProps(None, subtitles[i].lang, subtitles[i].language, None, subtitles[i].lang))
  }

  /** The rendered sub-menu, or `None` (`null`) when there are no subtitle tracks. */
  function SubtitleMenuProps(s: TrackState, title: string, offTitle: string): (m: Option<SubMenuProps>)
    ensures m.None? <==> |s.subtitles| == 0
    ensures m.Some? ==>
              m.value == SubMenuProps(SubtitleMenuKey, title, ActiveSubtitleKey(s), None, SubtitleItems(offTitle, s.subtitles))
  {
    if |s.subtitles| == 0 then None
    else Some(SubMenuProps(SubtitleMenuKey, title, ActiveSubtitleKey(s), None, SubtitleItems(offTitle, s.subtitles)))
  }

  /** Whatever is chosen becomes the active key. */
  lemma ChosenSubtitleIsActive(s: TrackState, value: string)
    requires value != ""
    ensures ActiveSubtitleKey(Overlay(s, SubtitleChange(value))) == Some(value)
  {
  }

  /** While subtitles are disabled, the `off` item is the one shown on the entry button. */
  lemma DisabledShowsOff(s: TrackState, title: string, offTitle: string, active: Menu)
    requires |s.subtitles| > 0 && s.isSubtitleDisabled && offTitle != ""
    requires active.menuKey == BaseKey
    ensures SubtitleMenuProps(s, title, offTitle).Some?
    ensures RenderSubMenu(SubtitleMenuProps(s, title, offTitle).value, active) == EntryButton(title, Some(offTitle))
  {
    var sub := SubtitleMenuProps(s, title, offTitle).value;
    assert ActiveItem(sub.children, sub.activeItemKey) == Some(sub.children[0]);
  }
}
