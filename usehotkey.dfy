/** Looking up a configured shortcut by name, and rendering its keys for a tooltip. */
module UseHotKey {
  import opened Wrappers
  import opened Strings
  import opened Hotkey

  /** A configured shortcut: its name and its key or keys (the action it runs is not modelled). */
  datatype HotKeyEntry = HotKeyEntry(name: string, hotKey: Shortcut)

  /** `hotkeys.find(({ name }) => name === hotKeyName)`. */
  function FindHotKey(hotkeys: seq<HotKeyEntry>, hotKeyName: string): (r: Option<HotKeyEntry>)
    ensures r.Some? <==> exists i :: 0 <= i < |hotkeys| && hotkeys[i].name == hotKeyName
    ensures r.Some? ==> exists i :: 0 <= i < |hotkeys| && hotkeys[i] == r.value &&
                          r.value.name == hotKeyName &&
                          forall j :: 0 <= j < i ==> hotkeys[j].name != hotKeyName
  {
    if |hotkeys| == 0 then None
    else if hotkeys[0].name == hotKeyName then Some(hotkeys[0])
    else
      var r := FindHotKey(hotkeys[1..], hotKeyName);
      assert forall i :: 1 <= i < |hotkeys| ==> hotkeys[1..][i - 1] == hotkeys[i];
      if r.Some? then
        assert exists i :: 1 <= i < |hotkeys| && hotkeys[i] == r.value && r.value.name == hotKeyName &&
                 forall j :: 0 <= j < i ==> hotkeys[j].name != hotKeyName by {
          var k :| 0 <= k < |hotkeys| - 1 && hotkeys[1..][k] == r.value &&
                   forall j :: 0 <= j < k ==> hotkeys[1..][j].name != hotKeyName;
          assert hotkeys[k + 1] == r.value;
          assert forall j :: 1 <= j < k + 1 ==> hotkeys[j].name != hotKeyName by {
            forall j | 1 <= j < k + 1 ensures hotkeys[j].name != hotKeyName {
              assert hotkeys[1..][j - 1] == hotkeys[j];
            }
          }
        }
        r
      else r
  }

  const DefaultSeparator: string := "/"

  /**
    `parseHotKey(hotkey, seperator)`: nothing for a missing or empty key, the
    key itself for one, the keys joined with the separator for a list.
   */
  function ParseHotKey(hotkey: Option<Shortcut>, separator: string): (r: string)
    ensures hotkey.None? ==> r == ""
    ensures hotkey.Some? && hotkey.value.Single? ==> r == hotkey.value.text
    ensures hotkey.Some? && hotkey.value.Several? && |hotkey.value.texts| == 1 ==> r == hotkey.value.texts[0]
    ensures hotkey.Some? && hotkey.value.Several? && |hotkey.value.texts| == 0 ==> r == ""
    ensures hotkey.Some? && hotkey.value.Several? ==> r == Join(hotkey.value.texts, separator)
  {
    match hotkey
    case None => ""
    case Some(Single(text)) => if text == "" then "" else text
    case Some(Several(texts)) => Join(texts, separator)
  }

  /** The keys of a list can be read back from the rendering when none contains the separator. */
  lemma ParseHotKeyRoundTrip(texts: seq<string>, sep: char)
    requires |texts| >= 1
    requires forall k :: 0 <= k < |texts| ==> sep !in texts[k]
    ensures Split(ParseHotKey(Some(Several(texts)), [sep]), sep) == texts
  {
    SplitJoin(texts, sep);
  }

  /** With the default separator, two keys `a` and `b` are shown as `a/b`. */
  lemma DefaultSeparatorJoins(a: string, b: string)
    ensures ParseHotKey(Some(Several([a, b])), DefaultSeparator) == a + "/" + b
  {
    assert [a, b][1..] == [b];
    assert Join([a, b], DefaultSeparator) == a + DefaultSeparator + Join([b], DefaultSeparator);
  }
}
