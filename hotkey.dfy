/**
  Keyboard shortcuts: parsing a shortcut text such as `"mod+shift?+f"` into the
  event fields it expects, and comparing a parsed shortcut with a key event.
  `isMac` stands for the platform test that decides what `mod` means.
 */
module Hotkey {
  import opened Wrappers
  import opened Strings

  /** A shortcut as the player's props give it: one text or a list of alternatives. */
  datatype Shortcut = Single(text: string) | Several(texts: seq<string>)

  datatype Modifier = Alt | Ctrl | Meta | Shift

  /** A key code, or the `NaN` that `"".charCodeAt(0)` yields for an empty segment. */
  datatype KeyCode = Code(code: int) | NaN

  /**
    A parsed shortcut. Each modifier flag is `Some(b)` when the event must have
    exactly `b`, or `None` (JavaScript `null`) when it does not matter;
    `which` is `None` when the key `which` was never set.
   */
  datatype Hotkey = Hotkey(
    alt: Option<bool>,
    ctrl: Option<bool>,
    meta: Option<bool>,
    shift: Option<bool>,
    which: Option<KeyCode>)

  /** Parsing succeeds or throws a `TypeError` naming the segment it does not know. */
  datatype Parsed<T> = Ok(value: T) | UnknownModifier(segment: string)

  /** The event fields compared; `None` stands for a field the event does not have. */
  datatype KeyEvent = KeyEvent(
    altKey: Option<bool>,
    ctrlKey: Option<bool>,
    metaKey: Option<bool>,
    shiftKey: Option<bool>,
    which: Option<int>)

  // ---------------------------------------------------------------------
  // The MODIFIERS, ALIASES and CODES tables
  // ---------------------------------------------------------------------

  function Modifiers(): map<string, Modifier> {
    map["alt" := Alt, "control" := Ctrl, "meta" := Meta, "shift" := Shift]
  }

  function Aliases(isMac: bool): map<string, string> {
    map[
      "add" := "+",
      "break" := "pause",
      "cmd" := "meta",
      "command" := "meta",
      "ctl" := "control",
      "ctrl" := "control",
      "del" := "delete",
      "down" := "arrowdown",
      "esc" := "escape",
      "ins" := "insert",
      "left" := "arrowleft",
      "mod" := (if isMac then "meta" else "control"),
      "opt" := "alt",
      "option" := "alt",
      "return" := "enter",
      "right" := "arrowright",
      "space" := " ",
      "spacebar" := " ",
      "up" := "arrowup",
      "win" := "meta",
      "windows" := "meta"
    ]
  }

  /** The CODES table as written out, before the function keys are added. */
  function BaseCodes(): map<string, int> {
    map[
      "backspace" := 8,
      "tab" := 9,
      "enter" := 13,
      "shift" := 16,
      "control" := 17,
      "alt" := 18,
      "pause" := 19,
      "capslock" := 20,
      "escape" := 27,
      " " := 32,
      "pageup" := 33,
      "pagedown" := 34,
      "end" := 35,
      "home" := 36,
      "arrowleft" := 37,
      "arrowup" := 38,
      "arrowright" := 39,
      "arrowdown" := 40,
      "insert" := 45,
      "delete" := 46,
      "meta" := 91,
      "numlock" := 144,
      "scrolllock" := 145,
      ";" := 186,
      "=" := 187,
      "," := 188,
      "-" := 189,
      "." := 190,
      "/" := 191,
      "`" := 192,
      "[" := 219,
      "\\" := 220,
      "]" := 221,
      "'" := 222
    ]
  }

  /** The name of function key `f`. */
  function FunctionKey(f: nat): string {
    "f" + NatToString(f)
  }

  lemma FunctionKeysDistinct()
    ensures forall f: nat, g: nat :: FunctionKey(f) == FunctionKey(g) ==> f == g
  {
    forall f: nat, g: nat | FunctionKey(f) == FunctionKey(g) ensures f == g {
      assert NatToString(f) == FunctionKey(f)[1..] == FunctionKey(g)[1..] == NatToString(g);
      NatToStringInjective(f, g);
    }
  }

  /** The function keys f1 .. f(n-1) with their codes, added in ascending order. */
  function FunctionKeysBelow(n: nat): map<string, int> {
    if n <= 1 then map[] else FunctionKeysBelow(n - 1)[FunctionKey(n - 1) := 111 + (n - 1)]
  }

  /**
    The three tables the parser consults. Everything below takes them as a
    parameter; `Tables(isMac)` is the module's own.
   */
  datatype Keyboard = Keyboard(modifiers: map<string, Modifier>, aliases: map<string, string>, codes: map<string, int>)

  function Tables(isMac: bool): Keyboard {
    Keyboard(Modifiers(), Aliases(isMac), Codes())
  }

  /** The bound of the loop that adds the function keys: f1 .. f19. */
  const FunctionKeyBound: nat := 20

  /** The complete CODES table. */
  function Codes(): map<string, int> {
    BaseCodes() + FunctionKeysBelow(FunctionKeyBound)
  }

  /** CODES as built at module load: the written-out table, then the function keys. */
  method InitCodes() returns (codes: map<string, int>)
    ensures codes == Codes()
  {
    codes := AddFunctionKeys(BaseCodes());
  }

  /** The loop at module load that adds f1 .. f19 to CODES. */
  method AddFunctionKeys(base: map<string, int>) returns (codes: map<string, int>)
    ensures codes == base + FunctionKeysBelow(FunctionKeyBound)
  {
    codes := base;
    assert FunctionKeysBelow(1) == map[];
    for f := 1 to FunctionKeyBound
      invariant codes == base + FunctionKeysBelow(f)
    {
      UnionUpdate(base, FunctionKeysBelow(f), FunctionKey(f), 111 + f);
      codes := codes[FunctionKey(f) := 111 + f];
    }
  }

  lemma UnionUpdate(a: map<string, int>, b: map<string, int>, k: string, v: int)
    ensures (a + b)[k := v] == a + b[k := v]
  {
  }

  /** f`f` is in the table of the keys below `n`, with the code 111 + `f`. */
  lemma {:induction false} FunctionKeyEntry(n: nat, f: nat)
    requires 1 <= f < n
    ensures FunctionKey(f) in FunctionKeysBelow(n) && FunctionKeysBelow(n)[FunctionKey(f)] == 111 + f
  {
    if f < n - 1 {
      FunctionKeyEntry(n - 1, f);
      FunctionKeysDistinct();
      assert FunctionKey(f) != FunctionKey(n - 1);
    }
  }

  /** Every key of the table of the keys below `n` is some f`f` with `f` below `n`. */
  lemma {:induction false} FunctionKeyNumber(n: nat, k: string) returns (f: nat)
    requires k in FunctionKeysBelow(n)
    ensures 1 <= f < n && k == FunctionKey(f)
  {
    if k == FunctionKey(n - 1) {
      f := n - 1;
    } else {
      f := FunctionKeyNumber(n - 1, k);
    }
  }

  /** Every function key f1 .. f19 has the code 111 + its number. */
  lemma FunctionKeyCode(f: nat)
    requires 1 <= f < FunctionKeyBound
    ensures FunctionKey(f) in Codes() && Codes()[FunctionKey(f)] == 111 + f
  {
    FunctionKeyEntry(FunctionKeyBound, f);
  }

  /** A name that does not start with `f` has the code the written-out table gives it. */
  lemma BaseCode(key: string)
    requires |key| == 0 || key[0] != 'f'
    ensures key in Codes() <==> key in BaseCodes()
    ensures key in BaseCodes() ==> Codes()[key] == BaseCodes()[key]
  {
    FunctionKeysStartWithF(FunctionKeyBound);
  }

  lemma FunctionKeysStartWithF(n: nat)
    ensures forall k :: k in FunctionKeysBelow(n) ==> |k| > 0 && k[0] == 'f'
  {
    forall k | k in FunctionKeysBelow(n) ensures |k| > 0 && k[0] == 'f' {
      var f := FunctionKeyNumber(n, k);
    }
  }

  // ---------------------------------------------------------------------
  // toKeyName, toKeyCode
  // ---------------------------------------------------------------------

  /** `toKeyName`: lower-cased, then replaced by its alias if it has one. */
  function ToKeyName(name: string, kb: Keyboard): string {
    var lower := ToLower(name);
    if HasAlias(lower, kb) then kb.aliases[lower] else lower
  }

  /** `ALIASES[key]` is truthy. */
  predicate HasAlias(key: string, kb: Keyboard) {
    key in kb.aliases && kb.aliases[key] != ""
  }

  /** `CODES[key]` is truthy. */
  predicate HasCode(key: string, kb: Keyboard) {
    key in kb.codes && kb.codes[key] != 0
  }

  /**
    `toKeyCode`: the CODES entry of the key name, else the first UTF-16 code
    unit of its upper-cased form.
   */
  function ToKeyCode(name: string, kb: Keyboard): KeyCode {
    var key := ToKeyName(name, kb);
    if HasCode(key, kb) then Code(kb.codes[key])
    else if key == "" then NaN
    else Code(FirstCodeUnit(UpperChar(key[0])))
  }

  /** Function keys f1 .. f19 have the codes 112 .. 130, in either case (`F5` as `f5`). */
  lemma FunctionKeyCodes(name: string, f: nat, isMac: bool)
    requires 1 <= f < FunctionKeyBound && ToLower(name) == FunctionKey(f)
    ensures ToKeyCode(name, Tables(isMac)) == Code(111 + f)
  {
    FunctionKeyHasNoAlias(f, isMac);
    assert ToKeyName(name, Tables(isMac)) == FunctionKey(f);
    FunctionKeyCode(f);
  }

  lemma FunctionKeyHasNoAlias(f: nat, isMac: bool)
    requires 1 <= f < FunctionKeyBound
    ensures FunctionKey(f) !in Aliases(isMac)
  {
    assert FunctionKey(f)[0] == 'f';
  }

  // ---------------------------------------------------------------------
  // parseHotkey
  // ---------------------------------------------------------------------

  /**
    A segment ending in `?`, longer than the `?` itself, is optional. The
    source measures in UTF-16 code units; `OptionalInCodeUnits` shows that
    counting characters gives the same answer.
   */
  predicate Optional(segment: string) {
    |segment| > 1 && segment[|segment| - 1] == '?'
  }

  /** A one-character string is longer than one code unit only when that character is outside the BMP. */
  lemma {:induction false} Utf16LengthOfOne(c: char)
    ensures Utf16Length([c]) == Utf16Units(c)
  {
    assert [c][1..] == [];
  }

  /** Counting the segment in code units, as the source does, decides `Optional` the same way. */
  lemma OptionalInCodeUnits(segment: string)
    ensures Optional(segment) <==> Utf16Length(segment) > 1 && |segment| > 0 && segment[|segment| - 1] == '?'
  {
    if |segment| == 1 {
      Utf16LengthOfOne(segment[0]);
      assert segment == [segment[0]];
    }
  }

  /** The segment without its optional mark. */
  function Stripped(segment: string): string {
    if Optional(segment) then segment[..|segment| - 1] else segment
  }

  /** The modifier field a (stripped) segment names, if any. */
  function ModifierOf(value: string, kb: Keyboard): Option<Modifier> {
    var name := ToKeyName(value, kb);
    if name in kb.modifiers then Some(kb.modifiers[name]) else None
  }

  /**
    A stripped segment the parser refuses: longer than one UTF-16 code unit
    and neither a modifier, nor an alias (looked up as written), nor a key
    with a code.
   */
  predicate Unknown(value: string, kb: Keyboard) {
    Utf16Length(value) > 1 && ModifierOf(value, kb).None? && !HasAlias(value, kb) && !HasCode(ToKeyName(value, kb), kb)
  }

  /** The segments: the first `++` becomes `+add`, then the text is split on `+`. */
  function Segments(hotkey: string): seq<string> {
    Split(ReplaceFirst(hotkey, "++", "+add"), '+')
  }

  /** The stripped form of the first refused segment, if any. */
  function FirstUnknown(segs: seq<string>, kb: Keyboard): Option<string> {
    if |segs| == 0 then None
    else
      match FirstUnknown(segs[..|segs| - 1], kb)
      case Some(v) => Some(v)
      case None =>
        if Unknown(Stripped(segs[|segs| - 1]), kb) then Some(Stripped(segs[|segs| - 1])) else None
  }

  /**
    The flag of modifier `m` after the segments: the last segment naming `m`
    decides (`None` if it is optional, `Some(true)` otherwise); false when no
    segment names it.
   */
  function FlagAfter(segs: seq<string>, m: Modifier, kb: Keyboard): Option<bool> {
    if |segs| == 0 then Some(false)
    else
      var v := segs[|segs| - 1];
      if ModifierOf(Stripped(v), kb) == Some(m) then (if Optional(v) then None else Some(true))
      else FlagAfter(segs[..|segs| - 1], m, kb)
  }

  /**
    The `which` key after the segments: the code of the last segment that is
    not a modifier, or of the only segment when the shortcut has one.
   */
  function WhichAfter(segs: seq<string>, count: nat, kb: Keyboard): Option<KeyCode> {
    if |segs| == 0 then None
    else
      var v := Stripped(segs[|segs| - 1]);
      if count == 1 || ModifierOf(v, kb).None? then Some(ToKeyCode(v, kb))
      else WhichAfter(segs[..|segs| - 1], count, kb)
  }

  function HotkeyAfter(segs: seq<string>, count: nat, kb: Keyboard): Hotkey {
    Hotkey(FlagAfter(segs, Alt, kb), FlagAfter(segs, Ctrl, kb), FlagAfter(segs, Meta, kb),
           FlagAfter(segs, Shift, kb), WhichAfter(segs, count, kb))
  }

  /** What `parseHotkey` returns or throws, stated segment by segment. */
  function Parse(hotkey: string, kb: Keyboard): Parsed<Hotkey> {
    var segs := Segments(hotkey);
    match FirstUnknown(segs, kb)
    case Some(v) => UnknownModifier(v)
    case None => Ok(HotkeyAfter(segs, |segs|, kb))
  }

  function SetFlag(h: Hotkey, m: Modifier, flag: Option<bool>): Hotkey {
    match m
    case Alt => h.(alt := flag)
    case Ctrl => h.(ctrl := flag)
    case Meta => h.(meta := flag)
    case Shift => h.(shift := flag)
  }

  function Flag(h: Hotkey, m: Modifier): Option<bool> {
    match m
    case Alt => h.alt
    case Ctrl => h.ctrl
    case Meta => h.meta
    case Shift => h.shift
  }

  /** The record after one more (accepted) segment. */
  function Absorb(h: Hotkey, segment: string, count: nat, kb: Keyboard): Hotkey {
    var v := Stripped(segment);
    var m := ModifierOf(v, kb);
    var h1 := if count == 1 || m.None? then h.(which := Some(ToKeyCode(v, kb))) else h;
    if m.Some? then SetFlag(h1, m.value, if Optional(segment) then None else Some(true)) else h1
  }

  /** `parseHotkey(hotkey)`: the record of expected event fields, built segment by segment. */
  method ParseHotkey(hotkey: string, kb: Keyboard) returns (r: Parsed<Hotkey>)
    ensures r == Parse(hotkey, kb)
  {
    var text := ReplaceFirst(hotkey, "++", "+add");
    var values := Split(text, '+');
    var length := |values|;
    var ret := InitialRecord();
    assert values[..0] == [];
    for i := 0 to length
      invariant ret == HotkeyAfter(values[..i], length, kb)
      invariant FirstUnknown(values[..i], kb).None?
    {
      var step := ParseSegment(ret, values[i], length, kb);
      if step.UnknownModifier? {
        FirstUnknownExtends(values, i, kb);
        return step;
      }
      HotkeyAfterStep(values, i, length, kb);
      ret := step.value;
    }
    assert values[..length] == values;
    return Ok(ret);
  }

  /** The record before any segment: every modifier flag false, `which` unset. */
  method InitialRecord() returns (ret: Hotkey)
    ensures ret == Hotkey(Some(false), Some(false), Some(false), Some(false), None)
  {
    ret := Hotkey(None, None, None, None, None);
    var modifierFields := [Alt, Ctrl, Meta, Shift];
    for k := 0 to |modifierFields|
      invariant forall j :: 0 <= j < k ==> Flag(ret, modifierFields[j]) == Some(false)
      invariant ret.which == None
    {
      ret := SetFlag(ret, modifierFields[k], Some(false));
    }
    assert Flag(ret, modifierFields[0]) == Flag(ret, modifierFields[1]) == Some(false);
    assert Flag(ret, modifierFields[2]) == Flag(ret, modifierFields[3]) == Some(false);
  }

  /** One pass of the loop of `parseHotkey`: throw on a refused segment, else record it. */
  method ParseSegment(ret: Hotkey, segment: string, length: nat, kb: Keyboard) returns (r: Parsed<Hotkey>)
    ensures r.UnknownModifier? <==> Unknown(Stripped(segment), kb)
    ensures r.UnknownModifier? ==> r.segment == Stripped(segment)
    ensures r.Ok? ==> r.value == Absorb(ret, segment, length, kb)
  {
    var value := segment;
    var optional := |value| > 1 && value[|value| - 1] == '?';
    if optional {
      value := value[..|value| - 1];
    }
    var name := ToKeyName(value, kb);
    var modifier := if name in kb.modifiers then Some(kb.modifiers[name]) else None;
    assert value == Stripped(segment) && modifier == ModifierOf(value, kb);
    if Utf16Length(value) > 1 && modifier.None? && !HasAlias(value, kb) && !HasCode(name, kb) {
      return UnknownModifier(value);
    }
    var h := ret;
    if length == 1 || modifier.None? {
      h := h.(which := Some(ToKeyCode(value, kb)));
    }
    if modifier.Some? {
      h := SetFlag(h, modifier.value, if optional then None else Some(true));
    }
    return Ok(h);
  }

  /** One segment more: what the loop body of `parseHotkey` does to the record. */
  lemma HotkeyAfterStep(segs: seq<string>, i: nat, count: nat, kb: Keyboard)
    requires i < |segs|
    requires FirstUnknown(segs[..i], kb).None? && !Unknown(Stripped(segs[i]), kb)
    ensures FirstUnknown(segs[..i + 1], kb).None?
    ensures HotkeyAfter(segs[..i + 1], count, kb) == Absorb(HotkeyAfter(segs[..i], count, kb), segs[i], count, kb)
  {
    var t := segs[..i + 1];
    assert t[..i] == segs[..i] && t[i] == segs[i];
    FirstUnknownLast(t, kb);
    var h := HotkeyAfter(segs[..i], count, kb);
    var a := Absorb(h, segs[i], count, kb);
    FlagAfterLast(t, Alt, kb);
    FlagAfterLast(t, Ctrl, kb);
    FlagAfterLast(t, Meta, kb);
    FlagAfterLast(t, Shift, kb);
    AbsorbFlag(h, segs[i], count, kb, Alt);
    AbsorbFlag(h, segs[i], count, kb, Ctrl);
    AbsorbFlag(h, segs[i], count, kb, Meta);
    AbsorbFlag(h, segs[i], count, kb, Shift);
    WhichAfterLast(t, count, kb);
    AbsorbWhich(h, segs[i], count, kb);
    assert a.alt == Flag(a, Alt) && a.ctrl == Flag(a, Ctrl) && a.meta == Flag(a, Meta) && a.shift == Flag(a, Shift);
    assert h.alt == Flag(h, Alt) && h.ctrl == Flag(h, Ctrl) && h.meta == Flag(h, Meta) && h.shift == Flag(h, Shift);
  }

  lemma FirstUnknownLast(segs: seq<string>, kb: Keyboard)
    requires |segs| > 0
    ensures FirstUnknown(segs, kb).None? <==>
              FirstUnknown(segs[..|segs| - 1], kb).None? && !Unknown(Stripped(segs[|segs| - 1]), kb)
  {
  }

  lemma FlagAfterLast(segs: seq<string>, m: Modifier, kb: Keyboard)
    requires |segs| > 0
    ensures FlagAfter(segs, m, kb) ==
              if ModifierOf(Stripped(segs[|segs| - 1]), kb) == Some(m) then
                (if Optional(segs[|segs| - 1]) then None else Some(true))
              else FlagAfter(segs[..|segs| - 1], m, kb)
  {
  }

  lemma WhichAfterLast(segs: seq<string>, count: nat, kb: Keyboard)
    requires |segs| > 0
    ensures WhichAfter(segs, count, kb) ==
              var v := Stripped(segs[|segs| - 1]);
              if count == 1 || ModifierOf(v, kb).None? then Some(ToKeyCode(v, kb))
              else WhichAfter(segs[..|segs| - 1], count, kb)
  {
  }

  /** The flag of `m` after one more segment: set by a segment naming `m`, kept otherwise. */
  lemma AbsorbFlag(h: Hotkey, segment: string, count: nat, kb: Keyboard, m: Modifier)
    ensures Flag(Absorb(h, segment, count, kb), m) ==
              if ModifierOf(Stripped(segment), kb) == Some(m) then (if Optional(segment) then None else Some(true))
              else Flag(h, m)
  {
  }

  /** `which` after one more segment: its code when it is not a modifier or the only segment, kept otherwise. */
  lemma AbsorbWhich(h: Hotkey, segment: string, count: nat, kb: Keyboard)
    ensures Absorb(h, segment, count, kb).which ==
              var v := Stripped(segment);
              if count == 1 || ModifierOf(v, kb).None? then Some(ToKeyCode(v, kb)) else h.which
  {
  }

  lemma FirstUnknownExtends(segs: seq<string>, i: nat, kb: Keyboard)
    requires i < |segs|
    requires FirstUnknown(segs[..i], kb).None?
    requires Unknown(Stripped(segs[i]), kb)
    ensures FirstUnknown(segs, kb) == Some(Stripped(segs[i]))
  {
    assert segs[..i + 1][..i] == segs[..i];
    FirstUnknownPrefix(segs, i + 1, kb);
  }

  lemma {:induction false} FirstUnknownPrefix(segs: seq<string>, n: nat, kb: Keyboard)
    requires n <= |segs|
    requires FirstUnknown(segs[..n], kb).Some?
    ensures FirstUnknown(segs, kb) == FirstUnknown(segs[..n], kb)
    decreases |segs| - n
  {
    if n < |segs| {
      assert segs[..n + 1][..n] == segs[..n];
      FirstUnknownPrefix(segs, n + 1, kb);
    } else {
      assert segs[..n] == segs;
    }
  }

  // Properties of parsing

  /** A modifier flag stays false exactly when no segment names that modifier. */
  lemma FlagFalseIffNotNamed(segs: seq<string>, m: Modifier, kb: Keyboard)
    ensures FlagAfter(segs, m, kb) == Some(false) <==>
              forall i :: 0 <= i < |segs| ==> ModifierOf(Stripped(segs[i]), kb) != Some(m)
  {
    if FlagAfter(segs, m, kb) == Some(false) {
      forall i | 0 <= i < |segs| ensures ModifierOf(Stripped(segs[i]), kb) != Some(m) {
        FalseFlagNamesNothing(segs, i, m, kb);
      }
    }
    if forall i :: 0 <= i < |segs| ==> ModifierOf(Stripped(segs[i]), kb) != Some(m) {
      NothingNamedFalseFlag(segs, m, kb);
    }
  }

  lemma {:induction false} FalseFlagNamesNothing(segs: seq<string>, i: nat, m: Modifier, kb: Keyboard)
    requires i < |segs| && FlagAfter(segs, m, kb) == Some(false)
    ensures ModifierOf(Stripped(segs[i]), kb) != Some(m)
  {
    if i < |segs| - 1 {
      var init := segs[..|segs| - 1];
      assert init[i] == segs[i];
      FalseFlagNamesNothing(init, i, m, kb);
    }
  }

  lemma {:induction false} NothingNamedFalseFlag(segs: seq<string>, m: Modifier, kb: Keyboard)
    requires forall i :: 0 <= i < |segs| ==> ModifierOf(Stripped(segs[i]), kb) != Some(m)
    ensures FlagAfter(segs, m, kb) == Some(false)
  {
    if |segs| > 0 {
      var init := segs[..|segs| - 1];
      forall i | 0 <= i < |init| ensures ModifierOf(Stripped(init[i]), kb) != Some(m) {
        assert init[i] == segs[i];
      }
      NothingNamedFalseFlag(init, m, kb);
    }
  }

  /**
    The last segment naming a modifier decides its flag: `None` ("don't care")
    when that segment is optional, `Some(true)` otherwise.
   */
  lemma {:induction false} LastNamingSegmentDecides(segs: seq<string>, i: nat, m: Modifier, kb: Keyboard)
    requires i < |segs| && ModifierOf(Stripped(segs[i]), kb) == Some(m)
    requires forall j :: i < j < |segs| ==> ModifierOf(Stripped(segs[j]), kb) != Some(m)
    ensures FlagAfter(segs, m, kb) == if Optional(segs[i]) then None else Some(true)
    decreases |segs|
  {
    if i < |segs| - 1 {
      var init := segs[..|segs| - 1];
      assert init[i] == segs[i];
      forall j | i < j < |init| ensures ModifierOf(Stripped(init[j]), kb) != Some(m) {
        assert init[j] == segs[j];
      }
      LastNamingSegmentDecides(init, i, m, kb);
    }
  }

  /** Parsing throws exactly when some segment is refused. */
  lemma FirstUnknownIff(segs: seq<string>, kb: Keyboard)
    ensures FirstUnknown(segs, kb).Some? <==> exists i :: 0 <= i < |segs| && Unknown(Stripped(segs[i]), kb)
  {
    if exists i :: 0 <= i < |segs| && Unknown(Stripped(segs[i]), kb) {
      var i :| 0 <= i < |segs| && Unknown(Stripped(segs[i]), kb);
      UnknownSegmentThrows(segs, i, kb);
    }
    if FirstUnknown(segs, kb).Some? {
      var i := ThrowingSegment(segs, kb);
    }
  }

  /** The segment a throw names is a refused one. */
  lemma {:induction false} ThrowingSegment(segs: seq<string>, kb: Keyboard) returns (i: nat)
    requires FirstUnknown(segs, kb).Some?
    ensures i < |segs| && Unknown(Stripped(segs[i]), kb)
  {
    var init := segs[..|segs| - 1];
    if FirstUnknown(init, kb).Some? {
      i := ThrowingSegment(init, kb);
      assert init[i] == segs[i];
    } else {
      i := |segs| - 1;
    }
  }

  lemma {:induction false} UnknownSegmentThrows(segs: seq<string>, i: nat, kb: Keyboard)
    requires i < |segs| && Unknown(Stripped(segs[i]), kb)
    ensures FirstUnknown(segs, kb).Some?
  {
    if i < |segs| - 1 {
      var init := segs[..|segs| - 1];
      assert init[i] == segs[i];
      UnknownSegmentThrows(init, i, kb);
    }
  }

  lemma ParseThrowsIffUnknownSegment(hotkey: string, kb: Keyboard)
    ensures Parse(hotkey, kb).UnknownModifier? <==>
              exists i :: 0 <= i < |Segments(hotkey)| && Unknown(Stripped(Segments(hotkey)[i]), kb)
  {
    FirstUnknownIff(Segments(hotkey), kb);
  }

  /** With several segments, `which` is unset exactly when every segment is a modifier. */
  lemma WhichUnsetIffAllModifiers(segs: seq<string>, count: nat, kb: Keyboard)
    requires count != 1
    ensures WhichAfter(segs, count, kb).None? <==>
              forall i :: 0 <= i < |segs| ==> ModifierOf(Stripped(segs[i]), kb).Some?
  {
    if WhichAfter(segs, count, kb).None? {
      forall i | 0 <= i < |segs| ensures ModifierOf(Stripped(segs[i]), kb).Some? {
        UnsetWhichMeansModifier(segs, i, count, kb);
      }
    }
    if forall i :: 0 <= i < |segs| ==> ModifierOf(Stripped(segs[i]), kb).Some? {
      AllModifiersLeaveWhichUnset(segs, count, kb);
    }
  }

  lemma {:induction false} UnsetWhichMeansModifier(segs: seq<string>, i: nat, count: nat, kb: Keyboard)
    requires count != 1 && i < |segs| && WhichAfter(segs, count, kb).None?
    ensures ModifierOf(Stripped(segs[i]), kb).Some?
  {
    if i < |segs| - 1 {
      var init := segs[..|segs| - 1];
      assert init[i] == segs[i];
      UnsetWhichMeansModifier(init, i, count, kb);
    }
  }

  lemma {:induction false} AllModifiersLeaveWhichUnset(segs: seq<string>, count: nat, kb: Keyboard)
    requires count != 1
    requires forall i :: 0 <= i < |segs| ==> ModifierOf(Stripped(segs[i]), kb).Some?
    ensures WhichAfter(segs, count, kb).None?
  {
    if |segs| > 0 {
      var init := segs[..|segs| - 1];
      forall i | 0 <= i < |init| ensures ModifierOf(Stripped(init[i]), kb).Some? {
        assert init[i] == segs[i];
      }
      AllModifiersLeaveWhichUnset(init, count, kb);
    }
  }

  /** A shortcut of one segment naming a modifier sets that flag and also `which`. */
  lemma LoneModifier(seg: string, m: Modifier, kb: Keyboard)
    requires !Optional(seg) && ModifierOf(seg, kb) == Some(m) && !Unknown(seg, kb)
    ensures FirstUnknown([seg], kb).None?
    ensures HotkeyAfter([seg], 1, kb) ==
              SetFlag(Hotkey(Some(false), Some(false), Some(false), Some(false), Some(ToKeyCode(seg, kb))), m, Some(true))
  {
    var segs := [seg];
    assert segs[..0] == [];
    assert Stripped(segs[0]) == segs[0];
    forall m' | m' != m ensures FlagAfter(segs, m', kb) == Some(false) {
    }
  }

  /** A shortcut of a modifier and a key sets that flag and the key's code. */
  lemma ModifierAndKey(mod: string, key: string, m: Modifier, kb: Keyboard)
    requires !Optional(mod) && ModifierOf(mod, kb) == Some(m) && !Unknown(mod, kb)
    requires !Optional(key) && ModifierOf(key, kb).None? && !Unknown(key, kb)
    ensures FirstUnknown([mod, key], kb).None?
    ensures HotkeyAfter([mod, key], 2, kb) ==
              SetFlag(Hotkey(Some(false), Some(false), Some(false), Some(false), Some(ToKeyCode(key, kb))), m, Some(true))
  {
    var segs := [mod, key];
    assert segs[..1] == [mod] && segs[..1][..0] == [];
    assert Stripped(segs[0]) == mod && Stripped(segs[1]) == key;
    assert FirstUnknown(segs[..1], kb).None?;
    assert WhichAfter(segs, 2, kb) == Some(ToKeyCode(key, kb));
    forall m' ensures FlagAfter(segs, m', kb) == FlagAfter(segs[..1], m', kb) {
    }
    forall m' | m' != m ensures FlagAfter(segs, m', kb) == Some(false) {
      assert FlagAfter(segs[..1], m', kb) == FlagAfter(segs[..1][..0], m', kb);
    }
    assert FlagAfter(segs, m, kb) == Some(true);
  }

  /** `parseHotkey` of a text of one modifier segment. */
  lemma ParseLoneModifier(hotkey: string, seg: string, m: Modifier, code: KeyCode, kb: Keyboard)
    requires Segments(hotkey) == [seg] && ToKeyCode(seg, kb) == code
    requires !Optional(seg) && ModifierOf(seg, kb) == Some(m) && !Unknown(seg, kb)
    ensures Parse(hotkey, kb) == Ok(SetFlag(Hotkey(Some(false), Some(false), Some(false), Some(false), Some(code)), m, Some(true)))
  {
    LoneModifier(seg, m, kb);
  }

  /** `parseHotkey` of a text of a modifier segment and a key segment. */
  lemma ParseModifierAndKey(hotkey: string, mod: string, key: string, m: Modifier, code: KeyCode, kb: Keyboard)
    requires Segments(hotkey) == [mod, key] && ToKeyCode(key, kb) == code
    requires !Optional(mod) && ModifierOf(mod, kb) == Some(m) && !Unknown(mod, kb)
    requires !Optional(key) && ModifierOf(key, kb).None? && !Unknown(key, kb)
    ensures Parse(hotkey, kb) == Ok(SetFlag(Hotkey(Some(false), Some(false), Some(false), Some(false), Some(code)), m, Some(true)))
  {
    ModifierAndKey(mod, key, m, kb);
  }

  /** A text without `+` is one segment. */
  lemma NoPlusSegments(s: string)
    requires '+' !in s
    ensures Segments(s) == [s]
  {
    forall j: nat ensures !OccursAt(s, "++", j) {
      if j + 2 <= |s| {
        assert s[j..j + 2][0] == s[j];
      }
    }
    ReplaceFirstAbsent(s, "++", "+add");
    SplitNoSeparator(s, '+');
  }

  /** A name followed by `++` is the name and `add`. */
  lemma PlusSegments(a: string)
    requires '+' !in a
    ensures Segments(a + "++") == [a, "add"]
  {
    DoublePlusReplaced(a);
    assert a + "+add" == a + ['+'] + "add";
    SplitConcat(a, "add", '+');
    SplitNoSeparator("add", '+');
  }

  /** In a name followed by `++`, the first `++` is the trailing one. */
  lemma DoublePlusReplaced(a: string)
    requires '+' !in a
    ensures ReplaceFirst(a + "++", "++", "+add") == a + "+add"
  {
    var s := a + "++";
    assert s[|a|..|a| + 2] == "++";
    forall j: nat | j < |a| ensures !OccursAt(s, "++", j) {
      assert s[j..j + 2][0] == s[j] == a[j];
    }
    ReplaceFirstAt(s, "++", "+add", |a|);
    assert s[..|a|] == a && s[|a| + 2..] == [];
  }

  /** Lower-casing leaves `+` and `?` alone, so a name that lower-cases to a plain word has neither. */
  lemma LowerCasedWord(name: string, word: string)
    requires ToLower(name) == word && |word| > 0
    requires '+' !in word && word[|word| - 1] != '?'
    ensures '+' !in name && !Optional(name)
  {
    forall i | 0 <= i < |name| ensures name[i] != '+' {
      assert LowerChar(name[i]) == word[i];
    }
    assert LowerChar(name[|name| - 1]) == word[|word| - 1];
  }

  lemma ShiftHasNoAlias(isMac: bool)
    ensures "shift" !in Aliases(isMac)
  {
  }

  lemma ShiftInBaseCodes()
    ensures "shift" in BaseCodes() && BaseCodes()["shift"] == 16
  {
  }

  lemma ShiftCode()
    ensures "shift" in Codes() && Codes()["shift"] == 16
  {
    BaseCode("shift");
    ShiftInBaseCodes();
  }

  /** A word without `+` that does not end in `?`: one plain segment. */
  predicate PlainWord(word: string) {
    |word| > 0 && '+' !in word && word[|word| - 1] != '?'
  }

  /** `word` names modifier `m` directly: no alias, and it has a code. */
  predicate ModifierWord(word: string, m: Modifier, kb: Keyboard) {
    !HasAlias(word, kb) && word in kb.modifiers && kb.modifiers[word] == m && HasCode(word, kb)
  }

  /**
    A name that lower-cases to a modifier's own name is a shortcut for that
    modifier alone, `which` included.
   */
  lemma LoneModifierName(name: string, word: string, m: Modifier, kb: Keyboard)
    requires ToLower(name) == word && PlainWord(word) && ModifierWord(word, m, kb)
    ensures Parse(name, kb) ==
              Ok(SetFlag(Hotkey(Some(false), Some(false), Some(false), Some(false), Some(Code(kb.codes[word]))), m, Some(true)))
  {
    LowerCasedWord(name, word);
    NoPlusSegments(name);
    assert ToKeyName(name, kb) == word;
    ParseLoneModifier(name, name, m, Code(kb.codes[word]), kb);
  }

  lemma ShiftIsModifierWord(isMac: bool)
    ensures PlainWord("shift") && ModifierWord("shift", Shift, Tables(isMac)) && Tables(isMac).codes["shift"] == 16
  {
    ShiftHasNoAlias(isMac);
    ShiftCode();
  }

  /**
    A lone modifier also sets `which`: `shift` (in any case) expects the shift
    flag and the code 16.
   */
  lemma LoneShift(name: string, isMac: bool)
    requires ToLower(name) == "shift"
    ensures Parse(name, Tables(isMac)) == Ok(Hotkey(Some(false), Some(false), Some(false), Some(true), Some(Code(16))))
  {
    ShiftIsModifierWord(isMac);
    LoneModifierName(name, "shift", Shift, Tables(isMac));
  }

  lemma CtrlAlias(isMac: bool)
    ensures "ctrl" in Aliases(isMac) && Aliases(isMac)["ctrl"] == "control"
  {
  }

  lemma AddAlias(isMac: bool)
    ensures "add" in Aliases(isMac) && Aliases(isMac)["add"] == "+"
  {
  }

  lemma CtrlIsModifier(isMac: bool)
    ensures ToLower("ctrl") == "ctrl" && PlainWord("ctrl") && ModifierOf("ctrl", Tables(isMac)) == Some(Ctrl)
  {
    LowerOfLowercase("ctrl");
    CtrlAlias(isMac);
  }

  /** A name followed by `++`, where the name lower-cases to a modifier, is that modifier with the plus key. */
  lemma ModifierPlus(name: string, word: string, m: Modifier, kb: Keyboard)
    requires ToLower(name) == word && ToLower(word) == word && PlainWord(word) && ModifierOf(word, kb) == Some(m)
    requires ModifierOf("add", kb).None? && !Unknown("add", kb)
    ensures Parse(name + "++", kb) ==
              Ok(SetFlag(Hotkey(Some(false), Some(false), Some(false), Some(false), Some(ToKeyCode("add", kb))), m, Some(true)))
  {
    LowerCasedWord(name, word);
    assert ToKeyName(name, kb) == ToKeyName(word, kb);
    PlusSegments(name);
    ParseModifierAndKey(name + "++", name, "add", m, ToKeyCode("add", kb), kb);
  }

  lemma PlusNotInBaseCodes()
    ensures "+" !in BaseCodes()
  {
  }

  lemma PlusHasNoCode()
    ensures "+" !in Codes()
  {
    BaseCode("+");
    PlusNotInBaseCodes();
  }

  /** `add` is a known name, not a modifier, and names the plus key, whose code is that of `+` (43). */
  lemma AddFacts(isMac: bool)
    ensures ModifierOf("add", Tables(isMac)).None?
    ensures !Unknown("add", Tables(isMac))
    ensures ToKeyCode("add", Tables(isMac)) == Code(43)
  {
    LowerOfLowercase("add");
    AddAlias(isMac);
    assert ToKeyName("add", Tables(isMac)) == "+";
    PlusHasNoCode();
  }

  /**
    `ctrl++` names the plus key: the first `++` is read as `+add`, and `add`
    is the alias of `+`.
   */
  lemma PlusKey(name: string, isMac: bool)
    requires ToLower(name) == "ctrl"
    ensures Parse(name + "++", Tables(isMac)) ==
              Ok(Hotkey(Some(false), Some(true), Some(false), Some(false), Some(Code(43))))
  {
    CtrlIsModifier(isMac);
    AddFacts(isMac);
    ModifierPlus(name, "ctrl", Ctrl, Tables(isMac));
  }

  /**
    A lone character outside the Basic Multilingual Plane, such as U+1F600,
    is two code units long and names nothing, so the parser throws on it.
   */
  /** The astral segment is not an alias, and lower-casing leaves it as it is. */
  lemma AstralNoAlias(isMac: bool)
    ensures ToLower("\U{1F600}") == "\U{1F600}"
    ensures "\U{1F600}" !in Aliases(isMac)
  {
    LowerOfLowercase("\U{1F600}");
  }

  /** The astral segment is neither a modifier nor a key with a code. */
  lemma AstralNoModifierNoCode()
    ensures "\U{1F600}" !in Modifiers() && "\U{1F600}" !in Codes()
  {
    BaseCode("\U{1F600}");
  }

  /** A one-character astral segment names no modifier, alias or code, and is two code units long. */
  lemma AstralSegmentUnknown(isMac: bool)
    ensures Stripped("\U{1F600}") == "\U{1F600}"
    ensures Unknown("\U{1F600}", Tables(isMac))
  {
    var s := "\U{1F600}";
    var kb := Tables(isMac);
    assert Utf16Length(s) == 2 by {
      assert s == [s[0]];
      Utf16LengthOfOne(s[0]);
    }
    AstralNoAlias(isMac);
    AstralNoModifierNoCode();
    assert !HasAlias(s, kb);
    assert ToKeyName(s, kb) == s;
    assert ModifierOf(s, kb).None?;
    assert !HasCode(s, kb);
    assert !Optional(s);
  }

  lemma AstralCharacterRefused(isMac: bool)
    ensures Parse("\U{1F600}", Tables(isMac)) == UnknownModifier("\U{1F600}")
  {
    var s := "\U{1F600}";
    AstralSegmentUnknown(isMac);
    assert Segments(s) == [s] by {
      NoPlusSegments(s);
    }
    assert [s][..0] == [];
    assert FirstUnknown([s], Tables(isMac)) == Some(s);
  }

  // ---------------------------------------------------------------------
  // compareHotkey, isHotkey
  // ---------------------------------------------------------------------

  /** A modifier expectation: `null` means any; a missing field passes when false is expected. */
  predicate FlagMatches(expected: Option<bool>, actual: Option<bool>) {
    match expected
    case None => true
    case Some(b) => if actual.None? then !b else actual.value == b
  }

  /** The `which` expectation: an unset one passes; 93 counts as 91; `NaN` never matches. */
  predicate WhichMatches(expected: Option<KeyCode>, actual: Option<int>) {
    match expected
    case None => true
    case Some(NaN) => false
    case Some(Code(n)) =>
      var seen := if n == 91 && actual == Some(93) then Some(91) else actual;
      seen == Some(n)
  }

  /** The event satisfies every expectation of the parsed shortcut. */
  predicate Matches(h: Hotkey, e: KeyEvent) {
    && FlagMatches(h.alt, e.altKey)
    && FlagMatches(h.ctrl, e.ctrlKey)
    && FlagMatches(h.meta, e.metaKey)
    && FlagMatches(h.shift, e.shiftKey)
    && WhichMatches(h.which, e.which)
  }

  datatype Field = AltKey | CtrlKey | MetaKey | ShiftKey | WhichKey

  /** The keys of the parsed record, in the order `for ... in` visits them. */
  function Keys(h: Hotkey): seq<Field> {
    [AltKey, CtrlKey, MetaKey, ShiftKey] + (if h.which.Some? then [WhichKey] else [])
  }

  predicate FieldMatches(h: Hotkey, e: KeyEvent, f: Field) {
    match f
    case AltKey => FlagMatches(h.alt, e.altKey)
    case CtrlKey => FlagMatches(h.ctrl, e.ctrlKey)
    case MetaKey => FlagMatches(h.meta, e.metaKey)
    case ShiftKey => FlagMatches(h.shift, e.shiftKey)
    case WhichKey => WhichMatches(h.which, e.which)
  }

  /** `compareHotkey(object, event)`: key by key, returning false at the first mismatch. */
  method CompareHotkey(h: Hotkey, e: KeyEvent) returns (ok: bool)
    ensures ok == Matches(h, e)
  {
    var keys := Keys(h);
    for i := 0 to |keys|
      invariant forall j :: 0 <= j < i ==> FieldMatches(h, e, keys[j])
    {
      var key := keys[i];
      match key {
        case AltKey =>
          if h.alt.None? { continue; }
          if e.altKey.None? && h.alt == Some(false) { continue; }
          if e.altKey != h.alt { return false; }
        case CtrlKey =>
          if h.ctrl.None? { continue; }
          if e.ctrlKey.None? && h.ctrl == Some(false) { continue; }
          if e.ctrlKey != h.ctrl { return false; }
        case MetaKey =>
          if h.meta.None? { continue; }
          if e.metaKey.None? && h.meta == Some(false) { continue; }
          if e.metaKey != h.meta { return false; }
        case ShiftKey =>
          if h.shift.None? { continue; }
          if e.shiftKey.None? && h.shift == Some(false) { continue; }
          if e.shiftKey != h.shift { return false; }
        case WhichKey =>
          match h.which {
            case None =>
            case Some(NaN) => return false;
            case Some(Code(n)) =>
              var actual := if n == 91 && e.which == Some(93) then Some(91) else e.which;
              if actual != Some(n) { return false; }
          }
      }
    }
    assert forall f :: f in Keys(h) ==> FieldMatches(h, e, f);
    assert AltKey in Keys(h) && CtrlKey in Keys(h) && MetaKey in Keys(h) && ShiftKey in Keys(h);
    assert h.which.Some? ==> WhichKey in Keys(h);
    return true;
  }

  /** The alternatives of a shortcut. */
  function Alternatives(s: Shortcut): seq<string> {
    match s
    case Single(t) => [t]
    case Several(ts) => ts
  }

  /** The alternatives parsed in order; the first one that fails decides the error. */
  function ParseEach(alts: seq<string>, kb: Keyboard): Parsed<seq<Hotkey>> {
    if |alts| == 0 then Ok([])
    else
      match Parse(alts[0], kb)
      case UnknownModifier(v) => UnknownModifier(v)
      case Ok(h) =>
        match ParseEach(alts[1..], kb)
        case UnknownModifier(v) => UnknownModifier(v)
        case Ok(hs) => Ok([h] + hs)
  }

  /** What `isHotkey(hotkey, event)` returns or throws: true iff some parsed alternative matches. */
  function IsHotkeySpec(s: Shortcut, e: KeyEvent, kb: Keyboard): Parsed<bool> {
    match ParseEach(Alternatives(s), kb)
    case UnknownModifier(v) => UnknownModifier(v)
    case Ok(hs) => Ok(AnyMatches(hs, e))
  }

  /** `parsed.some(o => compareHotkey(o, event))`. */
  predicate AnyMatches(hs: seq<Hotkey>, e: KeyEvent) {
    exists i :: 0 <= i < |hs| && Matches(hs[i], e)
  }

  /** Parsing every alternative succeeds exactly when each one does, and keeps them in order. */
  lemma {:induction false} ParseEachOk(alts: seq<string>, kb: Keyboard)
    ensures ParseEach(alts, kb).Ok? <==> forall i :: 0 <= i < |alts| ==> Parse(alts[i], kb).Ok?
    ensures ParseEach(alts, kb).Ok? ==>
              |ParseEach(alts, kb).value| == |alts| &&
              forall i :: 0 <= i < |alts| ==> Parse(alts[i], kb) == Ok(ParseEach(alts, kb).value[i])
  {
    if |alts| > 0 {
      var rest := alts[1..];
      ParseEachOk(rest, kb);
      assert forall i :: 1 <= i < |alts| ==> rest[i - 1] == alts[i];
      var first := Parse(alts[0], kb);
      var others := ParseEach(rest, kb);
      assert ParseEach(alts, kb) == if first.Ok? && others.Ok? then Ok([first.value] + others.value)
                                    else if first.UnknownModifier? then UnknownModifier(first.segment)
                                    else UnknownModifier(others.segment);
    }
  }

  function Prepend(xs: seq<Hotkey>, r: Parsed<seq<Hotkey>>): Parsed<seq<Hotkey>> {
    match r
    case UnknownModifier(v) => UnknownModifier(v)
    case Ok(ys) => Ok(xs + ys)
  }

  /** `hotkeys.map(parseHotkey)`: every alternative parsed in order, stopping at the first throw. */
  method ParseAll(alts: seq<string>, kb: Keyboard) returns (r: Parsed<seq<Hotkey>>)
    ensures r == ParseEach(alts, kb)
  {
    var parsed: seq<Hotkey> := [];
    PrependNothing(alts, kb);
    for i := 0 to |alts|
      invariant |parsed| == i
      invariant ParseEach(alts, kb) == Prepend(parsed, ParseEach(alts[i..], kb))
    {
      var p := ParseHotkey(alts[i], kb);
      ParseEachFrom(alts, i, kb);
      if p.UnknownModifier? {
        return UnknownModifier(p.segment);
      }
      PrependAppend(parsed, p.value, ParseEach(alts[i + 1..], kb));
      parsed := parsed + [p.value];
    }
    ParseEachNothingLeft(parsed, alts, kb);
    return Ok(parsed);
  }

  lemma PrependNothing(alts: seq<string>, kb: Keyboard)
    ensures ParseEach(alts, kb) == Prepend([], ParseEach(alts[0..], kb))
  {
    assert alts[0..] == alts;
    match ParseEach(alts, kb) {
      case UnknownModifier(_) =>
      case Ok(all) => assert [] + all == all;
    }
  }

  /** The alternatives from `i` on: the one at `i` parsed, then the rest. */
  lemma ParseEachFrom(alts: seq<string>, i: nat, kb: Keyboard)
    requires i < |alts|
    ensures ParseEach(alts[i..], kb) ==
              match Parse(alts[i], kb)
              case UnknownModifier(v) => UnknownModifier(v)
              case Ok(h) => Prepend([h], ParseEach(alts[i + 1..], kb))
  {
    assert alts[i..][0] == alts[i] && alts[i..][1..] == alts[i + 1..];
  }

  lemma PrependAppend(xs: seq<Hotkey>, h: Hotkey, r: Parsed<seq<Hotkey>>)
    ensures Prepend(xs, Prepend([h], r)) == Prepend(xs + [h], r)
  {
    match r {
      case UnknownModifier(_) =>
      case Ok(rest) => assert (xs + [h]) + rest == xs + ([h] + rest);
    }
  }

  lemma ParseEachNothingLeft(xs: seq<Hotkey>, alts: seq<string>, kb: Keyboard)
    ensures Prepend(xs, ParseEach(alts[|alts|..], kb)) == Ok(xs)
  {
    assert alts[|alts|..] == [] && xs + [] == xs;
  }

  /** `isHotkey(hotkey, event)`: every alternative is parsed first, then any match suffices. */
  method IsHotkey(s: Shortcut, e: KeyEvent, kb: Keyboard) returns (r: Parsed<bool>)
    ensures r == IsHotkeySpec(s, e, kb)
  {
    var all := ParseAll(Alternatives(s), kb);
    if all.UnknownModifier? {
      return UnknownModifier(all.segment);
    }
    var found := SomeMatches(all.value, e);
    return Ok(found);
  }

  /** `parsed.some(o => compareHotkey(o, event))`, stopping at the first match. */
  method SomeMatches(parsed: seq<Hotkey>, e: KeyEvent) returns (found: bool)
    ensures found == AnyMatches(parsed, e)
  {
    found := false;
    for i := 0 to |parsed|
      invariant !found ==> forall j :: 0 <= j < i ==> !Matches(parsed[j], e)
      invariant found ==> AnyMatches(parsed, e)
    {
      var ok := CompareHotkey(parsed[i], e);
      if ok {
        found := true;
        break;
      }
    }
  }

  /** An event reporting the context-menu key (93) matches a shortcut expecting meta (91) as 91 would. */
  lemma MetaKeyAlias(h: Hotkey, e: KeyEvent)
    requires h.which == Some(Code(91))
    ensures Matches(h, e.(which := Some(93))) == Matches(h, e.(which := Some(91)))
  {
  }

  /** A "don't care" modifier accepts any value of that event field. */
  lemma DontCareIgnoresField(h: Hotkey, e: KeyEvent, v: Option<bool>)
    requires h.shift.None?
    ensures Matches(h, e.(shiftKey := v)) == Matches(h, e)
  {
  }
}
