/**
 * The settings file: the text save_settings writes, and what read_settings
 * makes of any text, line by line, as functions. The file is a sequence of
 * sections, each a `[LED_<i>_<name>]` header followed by `key=value` lines.
 */
module SettingsStore {
  import opened Wrappers
  import opened LedTypes
  import TextFormat
  import Common

  /** led_internal_name of led_controller.c: the name in a section header. */
  function SectionName(led: int): string {
    match LedFromOrdinal(led)
    case Some(Front) => "f"
    case Some(Top) => "m"
    case Some(Back) => "b"
    case None => "UNKNOWN"
  }

  /** What follows `prefix` in `line`, when the line starts with it. */
  function After(line: string, prefix: string): (r: Option<string>)
    ensures r.Some? <==> prefix <= line
    ensures r.Some? ==> line == prefix + r.value && r.value == line[|prefix|..]
  {
    if prefix <= line then Some(line[|prefix|..]) else None
  }

  /** sscanf(line, "[LED_%d", ...) == 1: the index a header line names. */
  function HeaderIndex(line: string): Option<int> {
    match After(line, "[LED_")
    case Some(rest) => TextFormat.ScanDecimal(rest)
    case None => None
  }

  /** sscanf(line, "<key>=%d", ...): the decimal value a `key=` line carries. */
  function DecimalField(line: string, key: string): Option<int> {
    match After(line, key + "=")
    case Some(rest) => TextFormat.ScanDecimal(rest)
    case None => None
  }

  /** sscanf(line, "color=%x", ...): the hexadecimal value a `color=` line carries. */
  function ColorField(line: string): Option<nat> {
    match After(line, "color=")
    case Some(rest) => TextFormat.ScanHex(rest)
    case None => None
  }

  /** Every field clamped into its bounds. */
  function Clamped(s: LedSettings): (r: LedSettings)
    ensures InBounds(r)
    ensures InBounds(s) ==> r == s
  {
    LedSettings(
      Common.Clamp(s.brightness, 0, MAX_BRIGHTNESS),
      Common.Clamp(s.effect, 0, ANIMATION_EFFECT_COUNT - 1),
      Common.Clamp(s.color, 0, MAX_COLOR),
      Common.Clamp(s.duration, 0, MAX_DURATION))
  }

  /**
   * A data line applied to the current LED's settings: each of the four keys
   * whose value parses overwrites its field, a field whose key is absent or
   * whose value fails to parse keeps its value, and then all four fields are
   * clamped into bounds.
   */
  function ApplyDataLine(s: LedSettings, line: string): (r: LedSettings)
    ensures InBounds(r)
    ensures r.brightness == Common.Clamp(DecimalField(line, "brightness").GetOr(s.brightness), 0, MAX_BRIGHTNESS)
    ensures r.color == Common.Clamp(ColorField(line).GetOr(s.color), 0, MAX_COLOR)
    ensures r.duration == Common.Clamp(DecimalField(line, "duration").GetOr(s.duration), 0, MAX_DURATION)
    ensures r.effect == Common.Clamp(DecimalField(line, "effect").GetOr(s.effect), 0, ANIMATION_EFFECT_COUNT - 1)
  {
    Clamped(LedSettings(
      DecimalField(line, "brightness").GetOr(s.brightness),
      DecimalField(line, "effect").GetOr(s.effect),
      ColorField(line).GetOr(s.color),
      DecimalField(line, "duration").GetOr(s.duration)))
  }

  /** The loader's state between lines: the current section's index and the settings so far. */
  datatype LoadState = LoadState(ledIndex: int, settings: seq<LedSettings>)

  /**
   * One line of the file: a header selects the section; any other line
   * updates the current LED when the index names one, and otherwise changes
   * nothing.
   */
  function ApplyLine(st: LoadState, line: string): (r: LoadState)
    requires |st.settings| == LED_COUNT
    ensures |r.settings| == LED_COUNT
    ensures HeaderIndex(line).Some? ==> r == st.(ledIndex := HeaderIndex(line).value)
    ensures HeaderIndex(line).None? && !(0 <= st.ledIndex < LED_COUNT) ==> r == st
    ensures HeaderIndex(line).None? && 0 <= st.ledIndex < LED_COUNT ==>
              && r.ledIndex == st.ledIndex
              && r.settings[st.ledIndex] == ApplyDataLine(st.settings[st.ledIndex], line)
              && forall i :: 0 <= i < LED_COUNT && i != st.ledIndex ==> r.settings[i] == st.settings[i]
  {
    match HeaderIndex(line)
    case Some(i) => st.(ledIndex := i)
    case None =>
      if 0 <= st.ledIndex < LED_COUNT then
        st.(settings := st.settings[st.ledIndex := ApplyDataLine(st.settings[st.ledIndex], line)])
      else st
  }

  /** The lines applied in order. */
  function Load(st: LoadState, lines: seq<string>): (r: LoadState)
    requires |st.settings| == LED_COUNT
    ensures |r.settings| == LED_COUNT
  {
    if lines == [] then st else ApplyLine(Load(st, lines[..|lines| - 1]), lines[|lines| - 1])
  }

  /** What read_settings leaves in the settings: the file, when it opens, loaded from no section. */
  function ReadResult(file: Option<string>, settings: seq<LedSettings>): (r: seq<LedSettings>)
    requires |settings| == LED_COUNT
    ensures |r| == LED_COUNT
    ensures file.None? ==> r == settings
  {
    match file
    case None => settings
    case Some(text) => Load(LoadState(-1, settings), TextFormat.SplitLines(text)).settings
  }

  /** Loading two runs of lines is loading the first, then the second. */
  lemma {:induction false} LoadAppend(st: LoadState, a: seq<string>, b: seq<string>)
    requires |st.settings| == LED_COUNT
    ensures Load(st, a + b) == Load(Load(st, a), b)
  {
    if b != [] {
      assert (a + b)[..|a + b| - 1] == a + b[..|b| - 1];
      assert (a + b)[|a + b| - 1] == b[|b| - 1];
      LoadAppend(st, a, b[..|b| - 1]);
    } else {
      assert a + b == a;
    }
  }

  /** Lines before any header, or under an index that names no LED, change no setting. */
  lemma {:induction false} LoadOutsideSections(st: LoadState, lines: seq<string>)
    requires |st.settings| == LED_COUNT && !(0 <= st.ledIndex < LED_COUNT)
    requires forall k :: 0 <= k < |lines| ==> HeaderIndex(lines[k]).None?
    ensures Load(st, lines) == st
  {
    if lines != [] {
      LoadOutsideSections(st, lines[..|lines| - 1]);
    }
  }

  /** Whatever the text, every LED that a data line reached ends in bounds. */
  lemma {:induction false} LoadTouchedInBounds(st: LoadState, lines: seq<string>, k: nat)
    requires |st.settings| == LED_COUNT && k < |lines|
    requires HeaderIndex(lines[k]).None?
    requires 0 <= Load(st, lines[..k]).ledIndex < LED_COUNT
    requires forall m :: k < m < |lines| ==> HeaderIndex(lines[m]).None?
    ensures InBounds(Load(st, lines).settings[Load(st, lines[..k]).ledIndex])
    decreases |lines|
  {
    var i := Load(st, lines[..k]).ledIndex;
    if |lines| == k + 1 {
      assert lines[..|lines| - 1] == lines[..k];
    } else {
      var init := lines[..|lines| - 1];
      assert init[..k] == lines[..k];
      LoadTouchedInBounds(st, init, k);
      LoadIndexStays(st, init, k);
    }
  }

  /** Without headers after line k, the loader's index stays what it was before line k. */
  lemma {:induction false} LoadIndexStays(st: LoadState, lines: seq<string>, k: nat)
    requires |st.settings| == LED_COUNT && k <= |lines|
    requires forall m :: k <= m < |lines| ==> HeaderIndex(lines[m]).None?
    ensures Load(st, lines).ledIndex == Load(st, lines[..k]).ledIndex
    decreases |lines|
  {
    if |lines| > k {
      var init := lines[..|lines| - 1];
      assert init[..k] == lines[..k];
      LoadIndexStays(st, init, k);
    } else {
      assert lines[..k] == lines;
    }
  }

  /** The lines save_settings writes: `[LED_%d_%s]`, `brightness=%d`, `color=0x%06X`, `duration=%d`, `effect=%d`. */
  function HeaderLine(i: int): string { "[LED_" + TextFormat.DecimalString(i) + "_" + SectionName(i) + "]" }
  function BrightnessLine(v: int): string { "brightness=" + TextFormat.DecimalString(v) }
  function ColorLine(v: nat): string { "color=0x" + TextFormat.HexString(v, 6) }
  function DurationLine(v: int): string { "duration=" + TextFormat.DecimalString(v) }
  function EffectLine(v: int): string { "effect=" + TextFormat.DecimalString(v) }

  /** The lines save_settings writes for LED i: header, the four fields, a blank line. */
  function SectionLines(i: int, s: LedSettings): seq<string> {
    [HeaderLine(i), BrightnessLine(s.brightness), ColorLine(s.color), DurationLine(s.duration), EffectLine(s.effect), ""]
  }

  /** The sections of LEDs 0 .. |ss|-1, in index order. */
  function SettingsLines(ss: seq<LedSettings>): seq<string> {
    if ss == [] then [] else SettingsLines(ss[..|ss| - 1]) + SectionLines(|ss| - 1, ss[|ss| - 1])
  }

  /** The text save_settings writes. */
  function Serialize(ss: seq<LedSettings>): string {
    TextFormat.JoinLines(SettingsLines(ss))
  }

  /** printf's %d and %0<w>X never produce a line break. */
  lemma NumbersHaveNoNewline(n: int, c: nat)
    ensures TextFormat.NoNewline(TextFormat.DecimalString(n))
    ensures TextFormat.NoNewline(TextFormat.HexString(c, 6))
  {
    var d := TextFormat.DecimalString(n);
    var m: nat := if n < 0 then -n else n;
    var digits := TextFormat.Numeral(m, 10, 1);
    assert forall i :: 0 <= i < |digits| ==> digits[i] in TextFormat.HEX_CHARS;
    var h := TextFormat.HexString(c, 6);
    assert forall i :: 0 <= i < |h| ==> h[i] in TextFormat.HEX_CHARS;
  }

  /** Joining two pieces without line breaks makes none. */
  lemma ConcatNoNewline(a: string, b: string)
    requires TextFormat.NoNewline(a) && TextFormat.NoNewline(b)
    ensures TextFormat.NoNewline(a + b)
  {
    forall i | 0 <= i < |a + b| ensures (a + b)[i] != '\n' {
      if i < |a| { assert (a + b)[i] == a[i]; } else { assert (a + b)[i] == b[i - |a|]; }
    }
  }

  /** No line of a saved section holds a line break. */
  lemma SectionLinesNoNewline(i: int, s: LedSettings)
    ensures forall k :: 0 <= k < |SectionLines(i, s)| ==> TextFormat.NoNewline(SectionLines(i, s)[k])
  {
    NumbersHaveNoNewline(i, s.color);
    ConcatNoNewline("[LED_", TextFormat.DecimalString(i));
    ConcatNoNewline("[LED_" + TextFormat.DecimalString(i), "_");
    ConcatNoNewline("[LED_" + TextFormat.DecimalString(i) + "_", SectionName(i));
    ConcatNoNewline("[LED_" + TextFormat.DecimalString(i) + "_" + SectionName(i), "]");
    ConcatNoNewline("color=0x", TextFormat.HexString(s.color, 6));
    NumbersHaveNoNewline(s.brightness, 0);
    ConcatNoNewline("brightness=", TextFormat.DecimalString(s.brightness));
    NumbersHaveNoNewline(s.duration, 0);
    ConcatNoNewline("duration=", TextFormat.DecimalString(s.duration));
    NumbersHaveNoNewline(s.effect, 0);
    ConcatNoNewline("effect=", TextFormat.DecimalString(s.effect));
    var sec := SectionLines(i, s);
    forall k | 0 <= k < |sec| ensures TextFormat.NoNewline(sec[k]) {
      if k == 0 { assert sec[k] == HeaderLine(i); }
      else if k == 1 { assert sec[k] == BrightnessLine(s.brightness); }
      else if k == 2 { assert sec[k] == ColorLine(s.color); }
      else if k == 3 { assert sec[k] == DurationLine(s.duration); }
      else if k == 4 { assert sec[k] == EffectLine(s.effect); }
    }
  }

  /** No line save_settings writes holds a line break. */
  lemma {:induction false} SettingsLinesNoNewline(ss: seq<LedSettings>)
    ensures forall k :: 0 <= k < |SettingsLines(ss)| ==> TextFormat.NoNewline(SettingsLines(ss)[k])
  {
    if ss != [] {
      var i := |ss| - 1;
      SettingsLinesNoNewline(ss[..i]);
      SectionLinesNoNewline(i, ss[i]);
    }
  }

  /** A section header reads back as its index. */
  lemma HeaderLineIndex(i: nat)
    ensures HeaderIndex(HeaderLine(i)) == Some(i)
  {
    var rest := "_" + SectionName(i) + "]";
    var line := "[LED_" + TextFormat.DecimalString(i) + "_" + SectionName(i) + "]";
    assert line == "[LED_" + (TextFormat.DecimalString(i) + rest);
    TextFormat.ScanDecimalRoundTrip(i, rest);
  }

  /** A `key=` line whose value is printf's %d of v. */
  lemma DecimalLine(key: string, v: int)
    requires |key| > 0 && key[0] != '['
    ensures HeaderIndex(key + "=" + TextFormat.DecimalString(v)) == None
    ensures DecimalField(key + "=" + TextFormat.DecimalString(v), key) == Some(v)
  {
    var line := key + "=" + TextFormat.DecimalString(v);
    assert line[0] == key[0];
    assert line[|key + "="|..] == TextFormat.DecimalString(v) + "";
    TextFormat.ScanDecimalRoundTrip(v, "");
  }

  /** A line starting with a different letter does not carry `key`. */
  lemma OtherKey(line: string, key: string)
    requires |line| > 0 && |key| > 0 && line[0] != key[0]
    ensures DecimalField(line, key) == None
    ensures key == "color" ==> ColorField(line) == None
  {
    assert (key + "=")[0] == key[0];
  }

  /** The colour line reads back as the colour. */
  lemma ColorLineValue(c: nat)
    ensures HeaderIndex(ColorLine(c)) == None
    ensures ColorField(ColorLine(c)) == Some(c)
  {
    var line := "color=0x" + TextFormat.HexString(c, 6);
    assert line[|"color="|..] == "0x" + TextFormat.HexString(c, 6) + "";
    TextFormat.ScanHexRoundTrip(c, "");
  }

  /** Loading one more line is applying it to what the earlier lines left. */
  lemma LoadSnoc(st: LoadState, lines: seq<string>, j: nat)
    requires |st.settings| == LED_COUNT && j < |lines|
    ensures Load(st, lines[..j + 1]) == ApplyLine(Load(st, lines[..j]), lines[j])
  {
    assert lines[..j + 1][..j] == lines[..j];
  }

  /** The blank line that ends a section leaves in-bounds settings as they are. */
  lemma BlankLine(s: LedSettings)
    requires InBounds(s)
    ensures HeaderIndex("") == None
    ensures ApplyDataLine(s, "") == s
  {
  }

  /** A data line with an LED selected replaces that LED's settings by ApplyDataLine's result. */
  lemma DataLineEffect(st: LoadState, line: string, s: LedSettings)
    requires |st.settings| == LED_COUNT && 0 <= st.ledIndex < LED_COUNT
    requires HeaderIndex(line) == None
    requires ApplyDataLine(st.settings[st.ledIndex], line) == s
    ensures ApplyLine(st, line) == st.(settings := st.settings[st.ledIndex := s])
  {
  }

  /** The brightness line sets the brightness and clamps the rest. */
  lemma BrightnessLineData(s: LedSettings, v: int)
    ensures HeaderIndex(BrightnessLine(v)) == None
    ensures ApplyDataLine(s, BrightnessLine(v)) == Clamped(s.(brightness := v))
  {
    var line := BrightnessLine(v);
    DecimalLine("brightness", v);
    OtherKey(line, "color");
    OtherKey(line, "duration");
    OtherKey(line, "effect");
  }

  /** The colour line sets the colour and clamps the rest. */
  lemma ColorLineData(s: LedSettings, v: nat)
    ensures HeaderIndex(ColorLine(v)) == None
    ensures ApplyDataLine(s, ColorLine(v)) == Clamped(s.(color := v))
  {
    var line := ColorLine(v);
    ColorLineValue(v);
    OtherKey(line, "brightness");
    OtherKey(line, "duration");
    OtherKey(line, "effect");
  }

  /** The duration line sets the duration and clamps the rest. */
  lemma DurationLineData(s: LedSettings, v: int)
    ensures HeaderIndex(DurationLine(v)) == None
    ensures ApplyDataLine(s, DurationLine(v)) == Clamped(s.(duration := v))
  {
    var line := DurationLine(v);
    DecimalLine("duration", v);
    OtherKey(line, "brightness");
    OtherKey(line, "color");
    OtherKey(line, "effect");
  }

  /** The effect line sets the effect and clamps the rest. */
  lemma EffectLineData(s: LedSettings, v: int)
    ensures HeaderIndex(EffectLine(v)) == None
    ensures ApplyDataLine(s, EffectLine(v)) == Clamped(s.(effect := v))
  {
    var line := EffectLine(v);
    DecimalLine("effect", v);
    OtherKey(line, "brightness");
    OtherKey(line, "color");
    OtherKey(line, "duration");
  }

  /** The brightness line of a section sets the current LED's brightness and clamps the rest. */
  lemma BrightnessLineEffect(st: LoadState, v: int)
    requires |st.settings| == LED_COUNT && 0 <= st.ledIndex < LED_COUNT
    ensures var i := st.ledIndex;
            ApplyLine(st, BrightnessLine(v))
              == st.(settings := st.settings[i := Clamped(st.settings[i].(brightness := v))])
  {
    var s := st.settings[st.ledIndex];
    BrightnessLineData(s, v);
    DataLineEffect(st, BrightnessLine(v), Clamped(s.(brightness := v)));
  }

  /** The colour line of a section sets the current LED's colour and clamps the rest. */
  lemma ColorLineEffect(st: LoadState, v: nat)
    requires |st.settings| == LED_COUNT && 0 <= st.ledIndex < LED_COUNT
    ensures var i := st.ledIndex;
            ApplyLine(st, ColorLine(v))
              == st.(settings := st.settings[i := Clamped(st.settings[i].(color := v))])
  {
    var s := st.settings[st.ledIndex];
    ColorLineData(s, v);
    DataLineEffect(st, ColorLine(v), Clamped(s.(color := v)));
  }

  /** The duration line of a section sets the current LED's duration and clamps the rest. */
  lemma DurationLineEffect(st: LoadState, v: int)
    requires |st.settings| == LED_COUNT && 0 <= st.ledIndex < LED_COUNT
    ensures var i := st.ledIndex;
            ApplyLine(st, DurationLine(v))
              == st.(settings := st.settings[i := Clamped(st.settings[i].(duration := v))])
  {
    var s := st.settings[st.ledIndex];
    DurationLineData(s, v);
    DataLineEffect(st, DurationLine(v), Clamped(s.(duration := v)));
  }

  /** The effect line of a section sets the current LED's effect and clamps the rest. */
  lemma EffectLineEffect(st: LoadState, v: int)
    requires |st.settings| == LED_COUNT && 0 <= st.ledIndex < LED_COUNT
    ensures var i := st.ledIndex;
            ApplyLine(st, EffectLine(v))
              == st.(settings := st.settings[i := Clamped(st.settings[i].(effect := v))])
  {
    var s := st.settings[st.ledIndex];
    EffectLineData(s, v);
    DataLineEffect(st, EffectLine(v), Clamped(s.(effect := v)));
  }

  /** Loading six lines is applying them one after another. */
  lemma LoadSix(st: LoadState, l0: string, l1: string, l2: string, l3: string, l4: string, l5: string)
    requires |st.settings| == LED_COUNT
    ensures Load(st, [l0, l1, l2, l3, l4, l5]) ==
      ApplyLine(ApplyLine(ApplyLine(ApplyLine(ApplyLine(ApplyLine(st, l0), l1), l2), l3), l4), l5)
  {
    var lines := [l0, l1, l2, l3, l4, l5];
    assert lines[..0] == [];
    LoadSnoc(st, lines, 0);
    LoadSnoc(st, lines, 1);
    LoadSnoc(st, lines, 2);
    LoadSnoc(st, lines, 3);
    LoadSnoc(st, lines, 4);
    LoadSnoc(st, lines, 5);
    assert lines[..6] == lines;
  }

  /** A section header selects its LED and changes no setting. */
  lemma HeaderLineEffect(st: LoadState, k: nat)
    requires |st.settings| == LED_COUNT
    ensures ApplyLine(st, HeaderLine(k)) == st.(ledIndex := k)
  {
    HeaderLineIndex(k);
  }

  /** The brightness and colour lines of a section, applied with an LED selected. */
  lemma SectionFirstFields(st: LoadState, s: LedSettings)
    requires |st.settings| == LED_COUNT && 0 <= st.ledIndex < LED_COUNT
    ensures var k := st.ledIndex;
            ApplyLine(ApplyLine(st, BrightnessLine(s.brightness)), ColorLine(s.color))
              == st.(settings := st.settings[k := Clamped(st.settings[k].(brightness := s.brightness, color := s.color))])
  {
    BrightnessLineEffect(st, s.brightness);
    ColorLineEffect(ApplyLine(st, BrightnessLine(s.brightness)), s.color);
  }

  /** The duration, effect and blank lines of a section, applied with an LED selected. */
  lemma SectionLastFields(st: LoadState, s: LedSettings)
    requires |st.settings| == LED_COUNT && 0 <= st.ledIndex < LED_COUNT
    requires st.settings[st.ledIndex].brightness == Clamped(s).brightness
    requires st.settings[st.ledIndex].color == Clamped(s).color
    ensures ApplyLine(ApplyLine(ApplyLine(st, DurationLine(s.duration)), EffectLine(s.effect)), "")
              == st.(settings := st.settings[st.ledIndex := Clamped(s)])
  {
    var k := st.ledIndex;
    DurationLineEffect(st, s.duration);
    var st4 := ApplyLine(st, DurationLine(s.duration));
    EffectLineEffect(st4, s.effect);
    var st5 := ApplyLine(st4, EffectLine(s.effect));
    assert st5.settings[k] == Clamped(s);
    BlankLine(Clamped(s));
  }

  /**
   * Loading one saved section, from any state, selects that LED and sets its
   * four fields to the saved ones clamped into bounds, leaving the other LEDs
   * alone.
   */
  lemma SectionLoad(k: nat, s: LedSettings, st: LoadState)
    requires |st.settings| == LED_COUNT && k < LED_COUNT
    ensures Load(st, SectionLines(k, s)) == LoadState(k, st.settings[k := Clamped(s)])
  {
    LoadSix(st, HeaderLine(k), BrightnessLine(s.brightness), ColorLine(s.color),
            DurationLine(s.duration), EffectLine(s.effect), "");
    HeaderLineEffect(st, k);
    var st1 := st.(ledIndex := k);
    SectionFirstFields(st1, s);
    var st3 := ApplyLine(ApplyLine(st1, BrightnessLine(s.brightness)), ColorLine(s.color));
    SectionLastFields(st3, s);
  }

  /** Every LED's settings clamped into bounds. */
  function ClampedAll(ss: seq<LedSettings>): (r: seq<LedSettings>)
    ensures |r| == |ss| && forall i :: 0 <= i < |ss| ==> r[i] == Clamped(ss[i])
  {
    seq(|ss|, i requires 0 <= i < |ss| => Clamped(ss[i]))
  }

  /** The saved lines of the first n LEDs are those of the first n - 1, then LED n - 1's section. */
  lemma SettingsLinesSnoc(ss: seq<LedSettings>, n: nat)
    requires 0 < n <= |ss|
    ensures SettingsLines(ss[..n]) == SettingsLines(ss[..n - 1]) + SectionLines(n - 1, ss[n - 1])
  {
    assert ss[..n][..n - 1] == ss[..n - 1];
  }

  /** Restoring LED n - 1 extends the restored prefix by one. */
  lemma RestoreNext(ss: seq<LedSettings>, init: seq<LedSettings>, n: nat)
    requires |ss| == LED_COUNT && |init| == LED_COUNT && 0 < n <= LED_COUNT
    ensures (ClampedAll(ss[..n - 1]) + init[n - 1..])[n - 1 := Clamped(ss[n - 1])] == ClampedAll(ss[..n]) + init[n..]
  {
  }

  /** Loading the first n saved sections from no section restores those LEDs, clamped, and leaves the rest. */
  lemma {:induction false} LoadSavedPrefix(ss: seq<LedSettings>, init: seq<LedSettings>, n: nat)
    requires |ss| == LED_COUNT && |init| == LED_COUNT && n <= LED_COUNT
    ensures Load(LoadState(-1, init), SettingsLines(ss[..n])).settings == ClampedAll(ss[..n]) + init[n..]
  {
    var st0 := LoadState(-1, init);
    if n == 0 {
      assert ss[..0] == [];
      assert init[0..] == init;
    } else {
      LoadSavedPrefix(ss, init, n - 1);
      SettingsLinesSnoc(ss, n);
      LoadAppend(st0, SettingsLines(ss[..n - 1]), SectionLines(n - 1, ss[n - 1]));
      SectionLoad(n - 1, ss[n - 1], Load(st0, SettingsLines(ss[..n - 1])));
      RestoreNext(ss, init, n);
    }
  }

  /**
   * Reading back what save_settings wrote restores every LED's settings,
   * clamped into bounds, whatever the settings held before.
   */
  lemma SaveLoadRoundTrip(ss: seq<LedSettings>, init: seq<LedSettings>)
    requires |ss| == LED_COUNT && |init| == LED_COUNT
    ensures ReadResult(Some(Serialize(ss)), init) == ClampedAll(ss)
  {
    SettingsLinesNoNewline(ss);
    TextFormat.SplitJoin(SettingsLines(ss));
    LoadSavedPrefix(ss, init, LED_COUNT);
    assert ss[..LED_COUNT] == ss;
    assert init[LED_COUNT..] == [];
  }

  /** In particular settings within bounds are restored exactly. */
  lemma SaveLoadInBounds(ss: seq<LedSettings>, init: seq<LedSettings>)
    requires |ss| == LED_COUNT && |init| == LED_COUNT
    requires forall i :: 0 <= i < LED_COUNT ==> InBounds(ss[i])
    ensures ReadResult(Some(Serialize(ss)), init) == ss
  {
    SaveLoadRoundTrip(ss, init);
  }
}
