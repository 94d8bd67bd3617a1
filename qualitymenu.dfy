/** The quality sub-menu of the settings menu. */
module QualityMenu {
  import opened Wrappers
  import opened VideoStateContext
  import opened NestedMenu

  const QualityMenuKey: string := "quality"

  /** `handleQualityChange(value)`: a selector that names only `currentQuality`. */
  function QualityChange(value: string): TrackPatch {
    EmptyPatch().(currentQuality := Some(Some(value)))
  }

  /** Choosing a quality sets `currentQuality` to it and leaves every other key alone. */
  lemma QualityChangeSetsOnlyQuality(s: TrackState, value: string)
    ensures Overlay(s, QualityChange(value)) == s.(currentQuality := Some(value))
  {
  }

  /** `state.currentQuality || state.qualities[0]`. */
  function ActiveQualityKey(s: TrackState): (k: Option<string>)
    ensures s.currentQuality.Some? && s.currentQuality.value != "" ==> k == s.currentQuality
    ensures (s.currentQuality.None? || s.currentQuality.value == "") && |s.qualities| > 0 ==> k == Some(s.qualities[0])
    ensures (s.currentQuality.None? || s.currentQuality.value == "") && |s.qualities| == 0 ==> k.None?
  {
    if s.currentQuality.Some? && s.currentQuality.value != "" then s.currentQuality
    else if |s.qualities| > 0 then Some(s.qualities[0])
    else None
  }

  /** One item per quality, in list order, whose key, title and value are the quality. */
  function QualityItems(qualities: seq<string>): (items: seq<ItemProps>)
    ensures |items| == |qualities|
    ensures forall i :: 0 <= i < |items| ==> items[i] == ItemProps(None, qualities[i], qualities[i], None, qualities[i])
  {
    seq(|qualities|, i requires 0 <= i < |qualities| => ItemProps(None, qualities[i], qualities[i], None, qualities[i]))
  }

  /** The rendered sub-menu, or `None` (`null`) when there is no quality to offer. */
  function QualityMenuProps(s: TrackState, title: string): (m: Option<SubMenuProps>)
    ensures m.None? <==> |s.qualities| == 0
    ensures m.Some? ==> m.value == SubMenuProps(QualityMenuKey, title, ActiveQualityKey(s), None, QualityItems(s.qualities))
  {
    if |s.qualities| == 0 then None
    else Some(SubMenuProps(QualityMenuKey, title, ActiveQualityKey(s), None, QualityItems(s.qualities)))
  }

  /** After a quality is chosen it is the menu's active key. */
  lemma ChosenQualityIsActive(s: TrackState, value: string)
    requires value != ""
    ensures ActiveQualityKey(Overlay(s, QualityChange(value))) == Some(value)
  {
  }

  /**
    With no quality selected, the entry button shows the first quality: it is
    the active key and the first item carrying it.
   */
  lemma UnselectedShowsFirstQuality(s: TrackState, title: string, active: Menu)
    requires |s.qualities| > 0 && s.qualities[0] != ""
    requires s.currentQuality.None? || s.currentQuality.value == ""
    requires active.menuKey != QualityMenuKey && active.menuKey == BaseKey
    ensures QualityMenuProps(s, title).Some?
    ensures RenderSubMenu(QualityMenuProps(s, title).value, active) ==
            EntryButton(title, Some(s.qualities[0]))
  {
    var sub := QualityMenuProps(s, title).value;
    assert sub.children[0].itemKey == s.qualities[0];
    assert ActiveItem(sub.children, sub.activeItemKey) == Some(sub.children[0]);
  }

  /** The item for a quality is checked in the open menu exactly when that quality is the active key. */
  lemma QualityItemChecked(s: TrackState, title: string, i: nat)
    requires i < |s.qualities|
    ensures var sub := QualityMenuProps(s, title).value;
      ItemActive(WithMenuKey(sub)[i]) <==> ActiveQualityKey(s) == Some(s.qualities[i])
  {
  }
}
