/**
 * The writes update_leds makes to the LED driver's files under
 * /sys/class/led_anim: which files, in which order, with which contents,
 * and which of them happen when some files cannot be opened.
 */
module HardwareSync {
  import opened Wrappers
  import opened LedTypes
  import TextFormat
  import Common

  /** SYS_FILE_PATH: the directory of the LED driver's files. */
  const SYS_FILE_PATH := "/sys/class/led_anim"

  /** One file write: the path opened for writing and the text written to it. */
  datatype Write = Write(path: string, content: string)

  /** write_color_data: the colour as six or more upper-case hex digits. */
  function ColorWrite(s: LedSettings, suffix: string): Write {
    Write(SYS_FILE_PATH + "/effect_rgb_hex_" + suffix, TextFormat.HexString(s.color, 6) + "\n")
  }

  /** write_effect_duration_data: the duration in decimal. */
  function DurationWrite(s: LedSettings, suffix: string): Write {
    Write(SYS_FILE_PATH + "/effect_duration_" + suffix, TextFormat.DecimalString(s.duration) + "\n")
  }

  /** write_effect_data: the effect's enum value in decimal. */
  function EffectWrite(s: LedSettings, suffix: string): Write {
    Write(SYS_FILE_PATH + "/effect_" + suffix, TextFormat.DecimalString(s.effect) + "\n")
  }

  /** write_max_scale_data: the brightness in decimal. */
  function MaxScaleWrite(s: LedSettings, suffix: string): Write {
    Write(SYS_FILE_PATH + "/max_scale_" + suffix, TextFormat.DecimalString(s.brightness) + "\n")
  }

  /** The three writes for one file suffix, in the order the driver needs them: colour, duration, effect. */
  function ConcernWrites(s: LedSettings, suffix: string): seq<Write> {
    [ColorWrite(s, suffix), DurationWrite(s, suffix), EffectWrite(s, suffix)]
  }

  /** update_leds's own table of file suffixes, by LED. */
  const LED_NAMES: seq<string> := ["f1f2", "m", "lr"]

  /** The suffixes the front LED's files are split into. */
  const FRONT_SPLIT: seq<string> := ["f1", "f2"]

  /** The concern writes for each of the given suffixes, in order. */
  function SplitWrites(s: LedSettings, names: seq<string>): seq<Write> {
    if names == [] then [] else SplitWrites(s, names[..|names| - 1]) + ConcernWrites(s, names[|names| - 1])
  }

  /** The test before the brightness write; `led != FRONT || led != BACK` holds for every LED. */
  predicate MaxScaleGuard(led: int) {
    led != LedOrdinal(Front) || led != LedOrdinal(Back)
  }

  /** The writes update_leds plans for one LED, before any of them is attempted. */
  function LedPlan(led: nat, s: LedSettings): seq<Write>
    requires led < LED_COUNT
  {
    ConcernPlan(led, s) + (if MaxScaleGuard(led) then [MaxScaleWrite(s, LED_NAMES[led])] else [])
  }

  /** The colour, duration and effect writes for one LED: twice for the front LED, once otherwise. */
  function ConcernPlan(led: nat, s: LedSettings): seq<Write>
    requires led < LED_COUNT
  {
    if led == LedOrdinal(Front) then SplitWrites(s, FRONT_SPLIT) else ConcernWrites(s, LED_NAMES[led])
  }

  /** The writes for LEDs 0 .. |ss|-1, in index order. */
  function SyncPlan(ss: seq<LedSettings>): seq<Write>
    requires |ss| <= LED_COUNT
  {
    if ss == [] then [] else SyncPlan(ss[..|ss| - 1]) + LedPlan(|ss| - 1, ss[|ss| - 1])
  }

  /** A write attempted: it happens when its file opens, and is skipped otherwise. */
  function Attempt(w: Write, canOpen: string -> bool): (r: seq<Write>)
    ensures r == [] || r == [w]
    ensures r == [w] <==> canOpen(w.path)
  {
    if canOpen(w.path) then [w] else []
  }

  /** The writes of a plan that happen, in plan order. */
  function Performed(plan: seq<Write>, canOpen: string -> bool): seq<Write> {
    if plan == [] then [] else Performed(plan[..|plan| - 1], canOpen) + Attempt(plan[|plan| - 1], canOpen)
  }

  /** Performing two runs of writes is performing the first, then the second. */
  lemma {:induction false} PerformedAppend(a: seq<Write>, b: seq<Write>, canOpen: string -> bool)
    ensures Performed(a + b, canOpen) == Performed(a, canOpen) + Performed(b, canOpen)
  {
    if b == [] {
      assert a + b == a;
    } else {
      assert (a + b)[..|a + b| - 1] == a + b[..|b| - 1];
      assert (a + b)[|a + b| - 1] == b[|b| - 1];
      PerformedAppend(a, b[..|b| - 1], canOpen);
    }
  }

  /** A write happens exactly when it is planned and its file opens. */
  lemma {:induction false} PerformedMembership(plan: seq<Write>, canOpen: string -> bool, w: Write)
    ensures w in Performed(plan, canOpen) <==> w in plan && canOpen(w.path)
  {
    if plan != [] {
      var init := plan[..|plan| - 1];
      PerformedMembership(init, canOpen, w);
      assert plan == init + [plan[|plan| - 1]];
    }
  }

  /** When every file opens, every planned write happens, in order. */
  lemma {:induction false} PerformedAllOpen(plan: seq<Write>, canOpen: string -> bool)
    requires forall k :: 0 <= k < |plan| ==> canOpen(plan[k].path)
    ensures Performed(plan, canOpen) == plan
  {
    if plan != [] {
      PerformedAllOpen(plan[..|plan| - 1], canOpen);
    }
  }

  /** A write whose file does not open leaves no trace. */
  lemma PerformedSkip(w: Write, canOpen: string -> bool)
    requires !canOpen(w.path)
    ensures Performed([w], canOpen) == []
  {
    assert [w][..0] == [];
  }

  /** A file that fails to open costs only its own write: the writes around it still happen. */
  lemma BestEffort(before: seq<Write>, w: Write, after: seq<Write>, canOpen: string -> bool)
    requires forall k :: 0 <= k < |before| ==> canOpen(before[k].path)
    requires forall k :: 0 <= k < |after| ==> canOpen(after[k].path)
    requires !canOpen(w.path)
    ensures Performed(before + [w] + after, canOpen) == before + after
  {
    PerformedAppend(before + [w], after, canOpen);
    PerformedAppend(before, [w], canOpen);
    PerformedSkip(w, canOpen);
    PerformedAllOpen(before, canOpen);
    PerformedAllOpen(after, canOpen);
    assert before + [] == before;
  }

  /** The brightness write is planned for every LED, the top LED included. */
  lemma MaxScaleGuardHolds(led: int)
    ensures MaxScaleGuard(led)
  {
  }

  /** The plan for the first n + 1 LEDs extends the plan for the first n by LED n's plan. */
  lemma SyncPlanSnoc(ss: seq<LedSettings>, n: nat)
    requires n < |ss| <= LED_COUNT
    ensures SyncPlan(ss[..n + 1]) == SyncPlan(ss[..n]) + LedPlan(n, ss[n])
  {
    assert ss[..n + 1][..n] == ss[..n];
  }

  /** Performing the plan for one more LED: its concern writes, then its brightness write. */
  lemma PerformedSyncStep(ss: seq<LedSettings>, led: nat, canOpen: string -> bool)
    requires led < |ss| <= LED_COUNT
    ensures Performed(SyncPlan(ss[..led + 1]), canOpen) ==
              Performed(SyncPlan(ss[..led]), canOpen) + Performed(ConcernPlan(led, ss[led]), canOpen)
              + Attempt(MaxScaleWrite(ss[led], LED_NAMES[led]), canOpen)
  {
    var s := ss[led];
    var max := MaxScaleWrite(s, LED_NAMES[led]);
    SyncPlanSnoc(ss, led);
    MaxScaleGuardHolds(led);
    PerformedAppend(SyncPlan(ss[..led]), LedPlan(led, s), canOpen);
    PerformedAppend(ConcernPlan(led, s), [max], canOpen);
    PerformedOne(max, canOpen);
  }

  /** The plan for the front LED alone. */
  lemma SyncPlanOne(ss: seq<LedSettings>)
    requires |ss| == LED_COUNT
    ensures SyncPlan(ss[..1]) == LedPlan(0, ss[0])
  {
    SyncPlanSnoc(ss, 0);
    assert ss[..0] == [];
  }

  /** The plan for the front and top LEDs. */
  lemma SyncPlanTwo(ss: seq<LedSettings>)
    requires |ss| == LED_COUNT
    ensures SyncPlan(ss[..2]) == LedPlan(0, ss[0]) + LedPlan(1, ss[1])
  {
    SyncPlanOne(ss);
    SyncPlanSnoc(ss, 1);
  }

  /** The plan for three LEDs is the front plan, then the top plan, then the back plan. */
  lemma SyncPlanThree(ss: seq<LedSettings>)
    requires |ss| == LED_COUNT
    ensures SyncPlan(ss) == LedPlan(0, ss[0]) + LedPlan(1, ss[1]) + LedPlan(2, ss[2])
  {
    SyncPlanTwo(ss);
    SyncPlanSnoc(ss, 2);
    assert ss[..3] == ss;
  }

  /** update_leds's suffixes are the common module's internal LED names. */
  lemma LedNamesAgree(led: nat)
    requires led < LED_COUNT
    ensures LED_NAMES[led] == Common.InternalName(led)
  {
  }

  /** The front LED: colour, duration and effect for f1, then for f2, then brightness under f1f2. */
  lemma FrontPlan(s: LedSettings)
    ensures LedPlan(0, s) == ConcernWrites(s, "f1") + ConcernWrites(s, "f2") + [MaxScaleWrite(s, "f1f2")]
  {
    assert FRONT_SPLIT[..1][..0] == [];
    assert FRONT_SPLIT[..2] == FRONT_SPLIT;
    assert SplitWrites(s, FRONT_SPLIT[..1]) == ConcernWrites(s, "f1");
  }

  /** The top and back LEDs: colour, duration and effect, then brightness, under their own name. */
  lemma OtherPlan(led: nat, s: LedSettings)
    requires 0 < led < LED_COUNT
    ensures LedPlan(led, s) == ConcernWrites(s, LED_NAMES[led]) + [MaxScaleWrite(s, LED_NAMES[led])]
    ensures led == 1 ==> LED_NAMES[led] == "m"
    ensures led == 2 ==> LED_NAMES[led] == "lr"
  {
  }

  /** Attempting a single write is Attempt. */
  lemma PerformedOne(w: Write, canOpen: string -> bool)
    ensures Performed([w], canOpen) == Attempt(w, canOpen)
  {
    assert [w][..0] == [];
  }

  /** Attempting the three concern writes for one suffix: each happens exactly when its file opens. */
  lemma PerformedConcern(s: LedSettings, suffix: string, canOpen: string -> bool)
    ensures Performed(ConcernWrites(s, suffix), canOpen) ==
              Attempt(ColorWrite(s, suffix), canOpen) + Attempt(DurationWrite(s, suffix), canOpen)
              + Attempt(EffectWrite(s, suffix), canOpen)
  {
    var c, d, e := ColorWrite(s, suffix), DurationWrite(s, suffix), EffectWrite(s, suffix);
    assert ConcernWrites(s, suffix) == [c] + [d] + [e];
    PerformedAppend([c] + [d], [e], canOpen);
    PerformedAppend([c], [d], canOpen);
    PerformedOne(c, canOpen);
    PerformedOne(d, canOpen);
    PerformedOne(e, canOpen);
  }

  /**
   * update_leds plans fifteen writes: colour, duration and effect for f1,
   * then for f2, then the front brightness under f1f2; then colour,
   * duration, effect and brightness for the top LED (m) and the back LED (lr).
   */
  lemma SyncPlanOrder(ss: seq<LedSettings>)
    requires |ss| == LED_COUNT
    ensures SyncPlan(ss) ==
      ConcernWrites(ss[0], "f1") + ConcernWrites(ss[0], "f2") + [MaxScaleWrite(ss[0], "f1f2")]
      + (ConcernWrites(ss[1], "m") + [MaxScaleWrite(ss[1], "m")])
      + (ConcernWrites(ss[2], "lr") + [MaxScaleWrite(ss[2], "lr")])
    ensures |SyncPlan(ss)| == 15
  {
    SyncPlanThree(ss);
    FrontPlan(ss[0]);
    OtherPlan(1, ss[1]);
    OtherPlan(2, ss[2]);
  }

  /** The colour file of the f1 half of the front LED. */
  lemma FrontColorPath(s: LedSettings)
    ensures ColorWrite(s, "f1").path == "/sys/class/led_anim/effect_rgb_hex_f1"
  {
  }

  /** The two halves of the front LED receive the same three contents. */
  lemma FrontHalvesAgree(ss: seq<LedSettings>)
    requires |ss| == LED_COUNT
    ensures |SyncPlan(ss)| == 15
    ensures forall k :: 0 <= k < 3 ==> SyncPlan(ss)[k].content == SyncPlan(ss)[k + 3].content
  {
    SyncPlanOrder(ss);
  }

  /** A 24-bit colour takes exactly six hex digits. */
  lemma HexSixWide(c: nat)
    requires c <= MAX_COLOR
    ensures |TextFormat.HexString(c, 6)| == 6
  {
    assert TextFormat.Pow(16, 6) == 0x100_0000;
    TextFormat.NumeralWidth(c, 16, 6);
  }

  /** Text whose second character is a hex digit has no 0x prefix for %x to skip. */
  lemma ScanHexUnprefixed(t: string)
    requires |t| > 2 && t[1] in TextFormat.HEX_CHARS
    ensures TextFormat.ScanHex(t) == TextFormat.ScanUnsigned(t, 16)
  {
  }

  /** Six hex digits and a newline read back as the value they spell. */
  lemma HexLineReadsBack(c: nat)
    requires c <= MAX_COLOR
    ensures var h := TextFormat.HexString(c, 6);
            |h| == 6 && TextFormat.ScanHex(h + "\n") == Some(c)
  {
    var h := TextFormat.HexString(c, 6);
    HexSixWide(c);
    TextFormat.ScanUnsignedRoundTrip(c, 16, 6, "\n");
    assert (h + "\n")[1] == h[1];
    ScanHexUnprefixed(h + "\n");
  }

  /** A 24-bit colour is written as exactly six upper-case hex digits and a newline, which read back as the colour. */
  lemma ColorContent(s: LedSettings, suffix: string)
    requires s.color <= MAX_COLOR
    ensures var c := ColorWrite(s, suffix).content;
            && |c| == 7 && c[6] == '\n'
            && (forall k :: 0 <= k < 6 ==> c[k] in TextFormat.HEX_CHARS)
            && TextFormat.ScanHex(c) == Some(s.color)
  {
    HexLineReadsBack(s.color);
  }

  /** Duration, effect and brightness are written in decimal, which reads back as the value. */
  lemma DecimalContents(s: LedSettings, suffix: string)
    ensures TextFormat.ScanDecimal(DurationWrite(s, suffix).content) == Some(s.duration)
    ensures TextFormat.ScanDecimal(EffectWrite(s, suffix).content) == Some(s.effect)
    ensures TextFormat.ScanDecimal(MaxScaleWrite(s, suffix).content) == Some(s.brightness)
  {
    TextFormat.ScanDecimalRoundTrip(s.duration, "\n");
    TextFormat.ScanDecimalRoundTrip(s.effect, "\n");
    TextFormat.ScanDecimalRoundTrip(s.brightness, "\n");
  }
}
