/**
  The player's small utilities: `classNames`, `convertTime`,
  `parseNumberFromString`, `stringInterpolate`, `isInArray` and `mergeDeep`.
 */
module Utils {
  import opened Wrappers
  import opened Strings

  // ---------------------------------------------------------------------
  // classNames
  // ---------------------------------------------------------------------

  /** An argument of `classNames`: a class name or a boolean (`isDesktop && styles.desktop`). */
  datatype ClassArg = Name(name: string) | Flag(flag: bool)

  /** JavaScript truthiness of an argument: the empty string and `false` are falsy. */
  predicate ClassTruthy(a: ClassArg) {
    match a
    case Name(s) => s != ""
    case Flag(b) => b
  }

  /** How `join` renders an argument. */
  function ClassText(a: ClassArg): string {
    match a
    case Name(s) => s
    case Flag(b) => if b then "true" else "false"
  }

  function KeptClassTexts(args: seq<ClassArg>): (r: seq<string>)
    ensures |r| <= |args|
    ensures forall k :: 0 <= k < |r| ==> r[k] != ""
  {
    if |args| == 0 then []
    else if ClassTruthy(args[0]) then [ClassText(args[0])] + KeptClassTexts(args[1..])
    else KeptClassTexts(args[1..])
  }

  /** `classNames(...args)`: the truthy arguments joined by single spaces. */
  function ClassNames(args: seq<ClassArg>): string {
    Join(KeptClassTexts(args), " ")
  }

  lemma {:induction false} KeptClassTextsConcat(a: seq<ClassArg>, b: seq<ClassArg>)
    ensures KeptClassTexts(a + b) == KeptClassTexts(a) + KeptClassTexts(b)
  {
    if |a| > 0 {
      assert (a + b)[0] == a[0];
      assert (a + b)[1..] == a[1..] + b;
      KeptClassTextsConcat(a[1..], b);
    } else {
      assert a + b == b;
    }
  }

  /** A falsy argument anywhere in the list has no effect on the result. */
  lemma ClassNamesDropsFalsy(a: seq<ClassArg>, x: ClassArg, b: seq<ClassArg>)
    requires !ClassTruthy(x)
    ensures ClassNames(a + [x] + b) == ClassNames(a + b)
  {
    KeptClassTextsConcat(a + [x], b);
    KeptClassTextsConcat(a, [x]);
    KeptClassTextsConcat(a, b);
    assert [x][1..] == [];
    assert KeptClassTexts([x]) == [];
    assert KeptClassTexts(a + [x] + b) == KeptClassTexts(a) + [] + KeptClassTexts(b);
    assert KeptClassTexts(a) + [] + KeptClassTexts(b) == KeptClassTexts(a + b);
  }

  /**
    When some argument is truthy and no kept name holds a space, splitting the
    result on spaces gives back exactly the kept names, in argument order.
   */
  lemma ClassNamesSplit(args: seq<ClassArg>)
    requires |KeptClassTexts(args)| >= 1
    requires forall k :: 0 <= k < |KeptClassTexts(args)| ==> ' ' !in KeptClassTexts(args)[k]
    ensures Split(ClassNames(args), ' ') == KeptClassTexts(args)
  {
    SplitJoin(KeptClassTexts(args), ' ');
  }

  // ---------------------------------------------------------------------
  // parseNumberFromString
  // ---------------------------------------------------------------------

  /** The decimal digits of `s`, in order (`s.replace(/[^0-9]/g, '')`). */
  function DigitsOf(s: string): (r: string)
    ensures AllDigits(r) && |r| <= |s|
  {
    if |s| == 0 then ""
    else if IsDigit(s[|s| - 1]) then DigitsOf(s[..|s| - 1]) + [s[|s| - 1]]
    else DigitsOf(s[..|s| - 1])
  }

  /** `parseNumberFromString(s)`: all decimal digits of `s` read as one number; 0 without digits. */
  function ParseNumberFromString(s: string): nat {
    DecimalValue(DigitsOf(s))
  }

  lemma {:induction false} DigitsOfDigits(s: string)
    requires AllDigits(s)
    ensures DigitsOf(s) == s
  {
    if |s| > 0 {
      DigitsOfDigits(s[..|s| - 1]);
    }
  }

  lemma {:induction false} DigitsOfConcat(a: string, b: string)
    ensures DigitsOf(a + b) == DigitsOf(a) + DigitsOf(b)
    decreases |b|
  {
    if |b| > 0 {
      assert (a + b)[..|a + b| - 1] == a + b[..|b| - 1];
      DigitsOfConcat(a, b[..|b| - 1]);
    } else {
      assert a + b == a;
    }
  }

  /** A string without digits parses as 0. */
  lemma ParseNumberNoDigits(s: string)
    requires forall i :: 0 <= i < |s| ==> !IsDigit(s[i])
    ensures ParseNumberFromString(s) == 0
  {
    if |s| > 0 {
      DigitsOfConcat(s[..|s| - 1], [s[|s| - 1]]);
      assert s[..|s| - 1] + [s[|s| - 1]] == s;
      ParseNumberNoDigits(s[..|s| - 1]);
    }
  }

  /** Characters that are not digits are ignored wherever they stand. */
  lemma ParseNumberIgnoresNonDigit(a: string, c: char, b: string)
    requires !IsDigit(c)
    ensures ParseNumberFromString(a + [c] + b) == ParseNumberFromString(a + b)
  {
    DigitsOfConcat(a + [c], b);
    DigitsOfConcat(a, [c]);
    DigitsOfConcat(a, b);
    assert DigitsOf([c]) == "" by {
      assert [c][..0] == "";
    }
  }

  /** A quality label `{n}p`, as the player writes for a level of height n, parses back as n. */
  lemma ParseNumberOfLabel(n: nat, suffix: string)
    requires forall i :: 0 <= i < |suffix| ==> !IsDigit(suffix[i])
    ensures ParseNumberFromString(NatToString(n) + suffix) == n
  {
    DigitsOfConcat(NatToString(n), suffix);
    DigitsOfDigits(NatToString(n));
    ParseNumberNoDigits(suffix);
    assert DigitsOf(suffix) == "" by {
      if DigitsOf(suffix) != "" {
        assert DecimalValue(DigitsOf(suffix)) == 0;
        DigitsOfNonDigits(suffix);
      }
    }
    assert NatToString(n) + "" == NatToString(n);
    DecimalValueOfNatToString(n);
  }

  lemma {:induction false} DigitsOfNonDigits(s: string)
    requires forall i :: 0 <= i < |s| ==> !IsDigit(s[i])
    ensures DigitsOf(s) == ""
  {
    if |s| > 0 {
      DigitsOfNonDigits(s[..|s| - 1]);
    }
  }

  // ---------------------------------------------------------------------
  // convertTime
  // ---------------------------------------------------------------------

  /**
    The clock text of a time in seconds: `m:ss` under an hour (minutes
    unpadded), `hh:mm:ss` from an hour on (hours and minutes padded below 10);
    the seconds field is the whole seconds modulo 60, always two digits.
   */
  function TimeText(seconds: real): string
    requires seconds >= 0.0
  {
    var total := seconds.Floor;
    var minutes := total / 60;
    if minutes <= 59 then Join([NatToString(minutes), Pad2(total % 60)], ":")
    else Join([Pad2(minutes / 60), Pad2(minutes - minutes / 60 * 60), Pad2(total % 60)], ":")
  }

  /** The number of seconds a `m:ss` or `h:mm:ss` clock text stands for. */
  function ClockSeconds(t: string): Option<nat> {
    var parts := Split(t, ':');
    if !(forall k :: 0 <= k < |parts| ==> AllDigits(parts[k])) then None
    else if |parts| == 2 then Some(DecimalValue(parts[0]) * 60 + DecimalValue(parts[1]))
    else if |parts| == 3 then
      Some(DecimalValue(parts[0]) * 3600 + DecimalValue(parts[1]) * 60 + DecimalValue(parts[2]))
    else None
  }

  lemma DigitsHaveNoColon(s: string)
    requires AllDigits(s)
    ensures ':' !in s
  {
    assert forall i :: 0 <= i < |s| ==> s[i] != ':' by {
      forall i | 0 <= i < |s| ensures s[i] != ':' {
        assert IsDigit(s[i]);
      }
    }
  }

  /** The field list of the clock text, before joining with `:`. */
  function TimeFields(seconds: real): (fields: seq<string>)
    requires seconds >= 0.0
    ensures |fields| == (if seconds.Floor / 60 <= 59 then 2 else 3)
    ensures forall k :: 0 <= k < |fields| ==> AllDigits(fields[k])
    ensures fields[|fields| - 1] == Pad2(seconds.Floor % 60)
  {
    var total := seconds.Floor;
    var minutes := total / 60;
    if minutes <= 59 then [NatToString(minutes), Pad2(total % 60)]
    else [Pad2(minutes / 60), Pad2(minutes - minutes / 60 * 60), Pad2(total % 60)]
  }

  lemma TimeTextIsJoin(seconds: real)
    requires seconds >= 0.0
    ensures TimeText(seconds) == Join(TimeFields(seconds), ":")
  {
  }

  /** Digit fields joined with `:` split back into the same fields. */
  lemma SplitDigitFields(fields: seq<string>)
    requires |fields| >= 1
    requires forall k :: 0 <= k < |fields| ==> AllDigits(fields[k])
    ensures Split(Join(fields, ":"), ':') == fields
  {
    forall k | 0 <= k < |fields| ensures ':' !in fields[k] {
      DigitsHaveNoColon(fields[k]);
    }
    SplitJoin(fields, ':');
  }

  /** `m * 60 + s` is the total when `m` and `s` are its quotient and remainder by 60. */
  lemma ShortClockValue(total: nat)
    ensures (total / 60) * 60 + total % 60 == total
  {
  }

  /** `h * 3600 + m * 60 + s` is the total when `h`, `m`, `s` are its hours, minutes and seconds. */
  lemma LongClockValue(total: nat)
    ensures var m := total / 60; (m / 60) * 3600 + (m - m / 60 * 60) * 60 + total % 60 == total
  {
    var m := total / 60;
    var h := m / 60;
    assert total == m * 60 + total % 60;
    assert m == h * 60 + (m - h * 60);
  }

  /** `m:ss` stands for `m * 60 + ss` seconds. */
  lemma ShortClockRoundTrip(m: nat, ss: nat, total: nat)
    requires m * 60 + ss == total
    ensures ClockSeconds(Join([NatToString(m), Pad2(ss)], ":")) == Some(total)
  {
    SplitDigitFields([NatToString(m), Pad2(ss)]);
    DecimalValueOfNatToString(m);
  }

  /** `hh:mm:ss` stands for `hh * 3600 + mm * 60 + ss` seconds. */
  lemma LongClockRoundTrip(h: nat, mm: nat, ss: nat, total: nat)
    requires h * 3600 + mm * 60 + ss == total
    ensures ClockSeconds(Join([Pad2(h), Pad2(mm), Pad2(ss)], ":")) == Some(total)
  {
    SplitDigitFields([Pad2(h), Pad2(mm), Pad2(ss)]);
  }

  /** The clock text loses nothing but the fraction of a second. */
  lemma TimeTextRoundTrip(seconds: real)
    requires seconds >= 0.0
    ensures ClockSeconds(TimeText(seconds)) == Some(seconds.Floor)
  {
    var total := seconds.Floor;
    var m := total / 60;
    if m <= 59 {
      ShortClockValue(total);
      ShortClockRoundTrip(m, total % 60, total);
    } else {
      LongClockValue(total);
      LongClockRoundTrip(m / 60, m - m / 60 * 60, total % 60, total);
    }
  }

  /** Under an hour the text has two fields, from an hour on three; the seconds field is two digits below 60. */
  lemma TimeTextFields(seconds: real)
    requires seconds >= 0.0
    ensures var parts := Split(TimeText(seconds), ':');
            && |parts| == (if seconds.Floor / 60 <= 59 then 2 else 3)
            && |parts[|parts| - 1]| == 2
            && AllDigits(parts[|parts| - 1])
            && DecimalValue(parts[|parts| - 1]) == seconds.Floor % 60 < 60
  {
    TimeTextIsJoin(seconds);
    SplitDigitFields(TimeFields(seconds));
  }

  lemma FloorDivSixty(x: real)
    requires x >= 0.0
    ensures (x / 60.0).Floor == x.Floor / 60
    ensures (x - 60.0 * ((x / 60.0).Floor as real)).Floor == x.Floor % 60
  {
    var n := x.Floor;
    var q := n / 60;
    var r := n % 60;
    assert n == 60 * q + r && 0 <= r < 60;
    assert (n as real) <= x < (n as real) + 1.0;
    assert 60.0 * (q as real) <= x < 60.0 * (q as real) + 60.0;
    assert (q as real) <= x / 60.0 < (q as real) + 1.0;
    assert (x / 60.0).Floor == q;
    assert (r as real) <= x - 60.0 * (q as real) < (r as real) + 1.0;
  }

  lemma TimeTextShort(seconds: real)
    requires seconds >= 0.0 && seconds.Floor / 60 <= 59
    ensures TimeText(seconds) == NatToString(seconds.Floor / 60) + ":" + Pad2(seconds.Floor % 60)
  {
    var fields := [NatToString(seconds.Floor / 60), Pad2(seconds.Floor % 60)];
    assert fields[1..] == [fields[1]];
    assert TimeText(seconds) == Join(fields, ":");
    assert Join(fields, ":") == fields[0] + ":" + Join(fields[1..], ":");
  }

  lemma TimeTextLong(seconds: real)
    requires seconds >= 0.0 && seconds.Floor / 60 > 59
    ensures var m := seconds.Floor / 60;
            TimeText(seconds) == Pad2(m / 60) + ":" + Pad2(m - m / 60 * 60) + ":" + Pad2(seconds.Floor % 60)
  {
    var m := seconds.Floor / 60;
    var fields := [Pad2(m / 60), Pad2(m - m / 60 * 60), Pad2(seconds.Floor % 60)];
    assert fields[1..] == [fields[1], fields[2]];
    assert fields[1..][1..] == [fields[2]];
    assert Join(fields[1..], ":") == fields[1] + ":" + fields[2];
  }

  /** The `n >= 10 ? n : '0' + n` padding of the source is `Pad2`. */
  lemma PaddedIsPad2(n: nat)
    ensures (if n >= 10 then NatToString(n) else "0" + NatToString(n)) == Pad2(n)
  {
  }

  /**
    `convertTime(seconds)`: the local text fields are built and overwritten
    step by step as in the source; the result is the clock text.
   */
  method ConvertTime(seconds: real) returns (r: string)
    requires seconds >= 0.0
    ensures r == TimeText(seconds)
    ensures ClockSeconds(r) == Some(seconds.Floor)
  {
    ghost var total := seconds.Floor;
    FloorDivSixty(seconds);
    var minutesValue: nat := (seconds / 60.0).Floor;
    assert minutesValue == total / 60;
    var minutes := NatToString(minutesValue);
    var hours := "";
    if minutesValue > 59 {
      FloorDivSixty(minutesValue as real);
      var hoursValue: nat := ((minutesValue as real) / 60.0).Floor;
      assert hoursValue == total / 60 / 60;
      hours := if hoursValue >= 10 then NatToString(hoursValue) else "0" + NatToString(hoursValue);
      PaddedIsPad2(hoursValue);
      minutesValue := minutesValue - hoursValue * 60;
      minutes := if minutesValue >= 10 then NatToString(minutesValue) else "0" + NatToString(minutesValue);
      PaddedIsPad2(minutesValue);
      assert hours == Pad2(total / 60 / 60) && minutes == Pad2(total / 60 - total / 60 / 60 * 60);
    }
    var secondsValue: nat := (seconds - 60.0 * ((seconds / 60.0).Floor as real)).Floor;
    assert secondsValue == total % 60;
    var secondsText := if secondsValue >= 10 then NatToString(secondsValue) else "0" + NatToString(secondsValue);
    PaddedIsPad2(secondsValue);
    if hours != "" {
      TimeTextLong(seconds);
      r := hours + ":" + minutes + ":" + secondsText;
    } else {
      TimeTextShort(seconds);
      r := minutes + ":" + secondsText;
    }
    TimeTextRoundTrip(seconds);
  }

  // ---------------------------------------------------------------------
  // stringInterpolate
  // ---------------------------------------------------------------------

  /** The placeholder `{{key}}`. */
  function Placeholder(key: string): string {
    "{{" + key + "}}"
  }

  /** The template after replacing, entry by entry, the first `{{key}}` with its value. */
  function Interpolated(s: string, data: seq<(string, string)>): string
    decreases |data|
  {
    if |data| == 0 then s
    else Interpolated(ReplaceFirst(s, Placeholder(data[0].0), data[0].1), data[1..])
  }

  /** `stringInterpolate(str, data)`, with the entries of `data` in their enumeration order. */
  method StringInterpolate(str: string, data: seq<(string, string)>) returns (r: string)
    ensures r == Interpolated(str, data)
  {
    r := str;
    var i := 0;
    while i < |data|
      invariant 0 <= i <= |data|
      invariant Interpolated(r, data[i..]) == Interpolated(str, data)
    {
      assert data[i..][1..] == data[i + 1..];
      r := ReplaceFirst(r, Placeholder(data[i].0), data[i].1);
      i := i + 1;
    }
  }

  /** A template without `{{` is returned unchanged, whatever the data. */
  lemma {:induction false} InterpolatedWithoutPlaceholders(s: string, data: seq<(string, string)>)
    requires !Contains(s, "{{")
    ensures Interpolated(s, data) == s
  {
    if |data| > 0 {
      var p := Placeholder(data[0].0);
      if Contains(s, p) {
        var i: nat :| OccursAt(s, p, i);
        assert s[i..i + 2] == p[..2] == "{{";
        assert OccursAt(s, "{{", i);
      }
      InterpolatedWithoutPlaceholders(s, data[1..]);
    }
  }

  /** Only the first occurrence of a placeholder is replaced: `{{k}}{{k}}` keeps its second copy. */
  lemma InterpolatedFirstOnly(k: string, v: string)
    ensures Interpolated(Placeholder(k) + Placeholder(k), [(k, v)]) == v + Placeholder(k)
  {
    var p := Placeholder(k);
    var s := p + p;
    assert OccursAt(s, p, 0) by { assert s[0..|p|] == p; }
    ReplaceFirstAt(s, p, v, 0);
    assert s[|p|..] == p;
  }

  // ---------------------------------------------------------------------
  // isInArray
  // ---------------------------------------------------------------------

  /** `array.indexOf(value)`: the first index holding `value`, or -1. */
  function IndexOf<T(==)>(items: seq<T>, value: T): (i: int)
    ensures -1 <= i < |items|
    ensures i == -1 <==> value !in items
    ensures 0 <= i ==> items[i] == value && value !in items[..i]
  {
    if |items| == 0 then -1
    else if items[0] == value then 0
    else
      var j := IndexOf(items[1..], value);
      assert j >= 0 ==> items[..j + 1] == [items[0]] + items[1..][..j];
      if j == -1 then -1 else j + 1
  }

  /** `isInArray(value, array)`. */
  function IsInArray<T(==)>(value: T, items: seq<T>): (b: bool)
    ensures b <==> value in items
  {
    IndexOf(items, value) > -1
  }

  // ---------------------------------------------------------------------
  // mergeDeep
  // ---------------------------------------------------------------------

  /** JavaScript values as `mergeDeep` sees them. */
  datatype Json =
    | Undefined
    | Null
    | Bool(b: bool)
    | Num(n: real)
    | Str(s: string)
    | Arr(items: seq<Json>)
    | Obj(fields: map<string, Json>)

  /** JavaScript truthiness (`NaN` is not modelled). */
  predicate Truthy(j: Json) {
    match j
    case Undefined => false
    case Null => false
    case Bool(b) => b
    case Num(n) => n != 0.0
    case Str(s) => s != ""
    case Arr(_) => true
    case Obj(_) => true
  }

  /** `isObject`: a truthy non-array object; arrays and `null` are not objects here. */
  predicate IsObject(j: Json) {
    j.Obj?
  }

  /**
    One step of `mergeDeep(target, source)`: when both are objects, every key
    of the source overwrites the target's, except that an object value is
    merged into the target's value, a falsy or missing one being replaced by
    `{}` first. Anything else leaves the target as it is.
   */
  function MergeInto(target: Json, source: Json): (r: Json)
    ensures !IsObject(target) || !IsObject(source) ==> r == target
    ensures IsObject(target) ==> IsObject(r)
    ensures Truthy(target) ==> Truthy(r)
    ensures IsObject(target) && IsObject(source) ==>
              r.fields.Keys == target.fields.Keys + source.fields.Keys
    decreases source
  {
    if IsObject(target) && IsObject(source) then
      Obj(map k | k in target.fields.Keys + source.fields.Keys ::
            if k in source.fields then
              if IsObject(source.fields[k]) then
                MergeInto(if k in target.fields && Truthy(target.fields[k]) then target.fields[k] else Obj(map[]),
                          source.fields[k])
              else source.fields[k]
            else target.fields[k])
    else target
  }

  /** `mergeDeep(target, ...sources)`: the sources merged in one after another. */
  function MergeDeep(target: Json, sources: seq<Json>): (r: Json)
    ensures |sources| == 0 ==> r == target
    ensures !IsObject(target) ==> r == target
    ensures IsObject(target) ==> IsObject(r) && target.fields.Keys <= r.fields.Keys
    decreases |sources|
  {
    if |sources| == 0 then target else MergeDeep(MergeInto(target, sources[0]), sources[1..])
  }

  /** Keys of the source with a non-object value end up with exactly that value. */
  lemma MergeIntoOverwritesLeaves(target: Json, source: Json, k: string)
    requires IsObject(target) && IsObject(source)
    requires k in source.fields && !IsObject(source.fields[k])
    ensures MergeInto(target, source).fields[k] == source.fields[k]
  {
  }

  /** Keys the source does not have keep the target's value. */
  lemma MergeIntoKeepsOtherKeys(target: Json, source: Json, k: string)
    requires IsObject(target) && IsObject(source)
    requires k in target.fields && k !in source.fields
    ensures MergeInto(target, source).fields[k] == target.fields[k]
  {
  }

  /** A nested object lands in `{}` when the target lacks the key. */
  lemma MergeIntoCreatesNested(target: Json, source: Json, k: string)
    requires IsObject(target) && IsObject(source)
    requires k !in target.fields && k in source.fields && IsObject(source.fields[k])
    ensures MergeInto(target, source).fields[k] == MergeInto(Obj(map[]), source.fields[k])
  {
  }

  /**
    A nested source object on a key the target already has is merged into the
    target's value when that value is truthy, and into `{}` when it is falsy.
   */
  lemma MergeIntoMergesNested(target: Json, source: Json, k: string)
    requires IsObject(target) && IsObject(source)
    requires k in target.fields && k in source.fields && IsObject(source.fields[k])
    ensures MergeInto(target, source).fields[k] ==
            MergeInto(if Truthy(target.fields[k]) then target.fields[k] else Obj(map[]), source.fields[k])
  {
  }

  /** Merging into a nested object keeps the inner keys the nested source lacks. */
  lemma MergeIntoKeepsInnerKeys(target: Json, source: Json, k: string, j: string)
    requires IsObject(target) && IsObject(source)
    requires k in target.fields && IsObject(target.fields[k]) && k in source.fields && IsObject(source.fields[k])
    requires j in target.fields[k].fields && j !in source.fields[k].fields
    ensures IsObject(MergeInto(target, source).fields[k])
    ensures MergeInto(target, source).fields[k].fields[j] == target.fields[k].fields[j]
  {
    MergeIntoMergesNested(target, source, k);
    MergeIntoKeepsOtherKeys(target.fields[k], source.fields[k], j);
  }

  /** Merging the same source twice changes nothing more. */
  lemma {:induction false} MergeIntoIdempotent(target: Json, source: Json)
    ensures MergeInto(MergeInto(target, source), source) == MergeInto(target, source)
    decreases source
  {
    if IsObject(target) && IsObject(source) {
      var r := MergeInto(target, source);
      var r2 := MergeInto(r, source);
      forall k | k in source.fields && IsObject(source.fields[k])
        ensures r2.fields[k] == r.fields[k]
      {
        var base := if k in target.fields && Truthy(target.fields[k]) then target.fields[k] else Obj(map[]);
        assert r.fields[k] == MergeInto(base, source.fields[k]);
        assert Truthy(r.fields[k]);
        MergeIntoIdempotent(base, source.fields[k]);
      }
      assert r2.fields == r.fields;
    }
  }

  /** Merging an empty object is the identity. */
  lemma MergeIntoEmpty(target: Json)
    ensures MergeInto(target, Obj(map[])) == target
  {
    if IsObject(target) {
      assert MergeInto(target, Obj(map[])).fields == target.fields;
    }
  }

  /** Merging a concatenation of sources is merging the two parts in turn. */
  lemma {:induction false} MergeDeepConcat(target: Json, a: seq<Json>, b: seq<Json>)
    ensures MergeDeep(target, a + b) == MergeDeep(MergeDeep(target, a), b)
    decreases |a|
  {
    if |a| > 0 {
      assert (a + b)[1..] == a[1..] + b;
      MergeDeepConcat(MergeInto(target, a[0]), a[1..], b);
    } else {
      assert a + b == b;
    }
  }
}
