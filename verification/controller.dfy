/**
 * The controller's state, AppState, and what led_controller.c does to it:
 * the input handler, the setting mutator with its palette search, start-up,
 * reading and saving the settings file, and pushing the settings to the
 * LED driver. Each method is specified by a function on a snapshot of the
 * state, and the properties of the handler are lemmas about that function.
 */
module Controller {
  import opened Wrappers
  import opened LedTypes
  import opened Input
  import TextFormat
  import Common
  import Mutator
  import SettingsStore
  import HardwareSync

  /** The enum fields are unsigned int: arithmetic on them is modulo 2^32. */
  const UINT_MODULUS := 0x1_0000_0000

  predicate Unsigned(x: int) {
    0 <= x < UINT_MODULUS
  }

  /**
   * DPAD_UP: `(s - 1) % LED_SETTINGS_COUNT` on an unsigned s. It moves up one
   * row, and from the first row the wrapped value 2^32 - 1, a multiple of 5,
   * keeps the selection on the first row instead of wrapping to the last.
   */
  function SettingUp(s: int): (r: int)
    requires Unsigned(s)
    ensures 0 <= r < LED_SETTINGS_COUNT
    ensures 0 < s <= LED_SETTINGS_COUNT ==> r == s - 1
    ensures s == 0 ==> r == 0
  {
    ((s - 1) % UINT_MODULUS) % LED_SETTINGS_COUNT
  }

  /** DPAD_DOWN: `(s + 1 + LED_SETTINGS_COUNT) % LED_SETTINGS_COUNT`, the next row, cyclically. */
  function SettingDown(s: int): (r: int)
    requires Unsigned(s)
    ensures 0 <= r < LED_SETTINGS_COUNT
    ensures 0 <= s < LED_SETTINGS_COUNT ==> r == if s == LED_SETTINGS_COUNT - 1 then 0 else s + 1
  {
    ((s + 1 + LED_SETTINGS_COUNT) % UINT_MODULUS) % LED_SETTINGS_COUNT
  }

  /** L1, L2, L3: the previous LED, from the front round to the back. */
  function PreviousLed(led: int): (r: int)
    requires 0 <= led < LED_COUNT
    ensures 0 <= r < LED_COUNT
    ensures r == if led == 0 then LED_COUNT - 1 else led - 1
  {
    (led - 1 + LED_COUNT) % LED_COUNT
  }

  /** R1, R2, R3: the next LED, from the back round to the front. */
  function NextLed(led: int): (r: int)
    requires 0 <= led < LED_COUNT
    ensures 0 <= r < LED_COUNT
    ensures r == if led == LED_COUNT - 1 then 0 else led + 1
  {
    (led + 1) % LED_COUNT
  }

  /** A snapshot of AppState's fields. */
  datatype AppModel = AppModel(
    shouldSaveSettings: bool,
    shouldUpdateLeds: bool,
    shouldQuit: bool,
    shouldInstallDaemon: bool,
    currentPage: int,
    selectedLed: int,
    selectedSetting: int,
    selectedMenuOption: int,
    ledSettings: seq<LedSettings>)
  {
    /** Three LEDs, a selected LED that indexes them, an unsigned selected setting. */
    predicate Ready() {
      |ledSettings| == LED_COUNT && 0 <= selectedLed < LED_COUNT && Unsigned(selectedSetting)
    }

    /** Every LED's settings within bounds. */
    predicate AllInBounds() {
      forall i :: 0 <= i < |ledSettings| ==> InBounds(ledSettings[i])
    }
  }

  /** handle_change_setting: the selected LED's settings change as Mutator.ChangeLed says. */
  ghost function ChangeSetting(m: AppModel, change: int): (r: AppModel)
    requires m.Ready()
    requires SettingFromOrdinal(m.selectedSetting) == Some(Color) ==> change >= -NUM_COLORS
    ensures r.Ready()
  {
    var i := m.selectedLed;
    m.(ledSettings := m.ledSettings[i := Mutator.ChangeLed(m.ledSettings[i], m.selectedSetting, change)])
  }

  /** handle_user_input: the state after one input. */
  ghost function UserInput(m: AppModel, input: InputType): (r: AppModel)
    requires m.Ready()
    ensures r.Ready()
  {
    match input
    case Power | Start => m.(shouldSaveSettings := true)
    case B => m.(shouldQuit := true)
    case DpadUp => m.(selectedSetting := SettingUp(m.selectedSetting))
    case DpadDown => m.(selectedSetting := SettingDown(m.selectedSetting))
    case DpadRight => ChangeSetting(m, 1).(shouldUpdateLeds := true)
    case DpadLeft => ChangeSetting(m, -1).(shouldUpdateLeds := true)
    case L1 | L2 | L3 => m.(selectedLed := PreviousLed(m.selectedLed))
    case R1 | R2 | R3 => m.(selectedLed := NextLed(m.selectedLed))
    case _ => m
  }

  /** The state after the same input n times. */
  ghost function Repeat(m: AppModel, input: InputType, n: nat): (r: AppModel)
    requires m.Ready()
    ensures r.Ready()
  {
    if n == 0 then m else UserInput(Repeat(m, input, n - 1), input)
  }

  /**
   * The mutator changes at most one field of the selected LED, the one the
   * selected setting names, and nothing else in the state.
   */
  lemma ChangeSettingTouchesOneField(m: AppModel, change: int)
    requires m.Ready()
    requires SettingFromOrdinal(m.selectedSetting) == Some(Color) ==> change >= -NUM_COLORS
    ensures var r := ChangeSetting(m, change);
            var s, t := m.ledSettings[m.selectedLed], r.ledSettings[m.selectedLed];
            && r == m.(ledSettings := r.ledSettings)
            && (forall i :: 0 <= i < LED_COUNT && i != m.selectedLed ==> r.ledSettings[i] == m.ledSettings[i])
            && (m.selectedSetting != 1 ==> t.brightness == s.brightness)
            && (m.selectedSetting != 2 ==> t.effect == s.effect)
            && (m.selectedSetting != 3 ==> t.duration == s.duration)
            && (m.selectedSetting != 4 ==> t.color == s.color)
  {
  }

  /** A save request is raised by POWER or START and by nothing else, and never cleared by an input. */
  lemma SaveRequests(m: AppModel, input: InputType)
    requires m.Ready()
    ensures UserInput(m, input).shouldSaveSettings <==> m.shouldSaveSettings || input == Power || input == Start
  {
  }

  /** Quitting is requested by B and by nothing else. */
  lemma QuitRequests(m: AppModel, input: InputType)
    requires m.Ready()
    ensures UserInput(m, input).shouldQuit <==> m.shouldQuit || input == B
  {
  }

  /** An LED update is requested exactly by the two inputs that change a setting. */
  lemma UpdateRequests(m: AppModel, input: InputType)
    requires m.Ready()
    ensures UserInput(m, input).shouldUpdateLeds <==> m.shouldUpdateLeds || input == DpadLeft || input == DpadRight
  {
  }

  /** POWER, START and B set their flag and leave everything else as it was. */
  lemma FlagInputsChangeOnlyTheirFlag(m: AppModel, input: InputType)
    requires m.Ready()
    ensures input == Power || input == Start ==> UserInput(m, input) == m.(shouldSaveSettings := true)
    ensures input == B ==> UserInput(m, input) == m.(shouldQuit := true)
  {
  }

  /** The inputs handle_user_input has no case for change nothing. */
  lemma UnhandledInputs(m: AppModel, input: InputType)
    requires m.Ready()
    requires input in {Unknown, Select, Menu, A, X, Y}
    ensures UserInput(m, input) == m
  {
  }

  /** Only DPAD_LEFT and DPAD_RIGHT change LED settings, and they change only the selected LED's. */
  lemma OnlySidewaysChangesSettings(m: AppModel, input: InputType)
    requires m.Ready()
    ensures input != DpadLeft && input != DpadRight ==> UserInput(m, input).ledSettings == m.ledSettings
    ensures forall i :: 0 <= i < LED_COUNT && i != m.selectedLed ==> UserInput(m, input).ledSettings[i] == m.ledSettings[i]
  {
  }

  /** Whatever the input, settings within bounds stay within bounds, and the selected setting stays a menu row. */
  lemma InputKeepsBounds(m: AppModel, input: InputType)
    requires m.Ready() && m.AllInBounds()
    ensures UserInput(m, input).AllInBounds()
    ensures 0 <= m.selectedSetting < LED_SETTINGS_COUNT ==> 0 <= UserInput(m, input).selectedSetting < LED_SETTINGS_COUNT
  {
    match input
    case DpadRight => ChangeSettingKeepsBounds(m, 1);
    case DpadLeft => ChangeSettingKeepsBounds(m, -1);
    case _ =>
  }

  /** The mutator keeps every LED's settings within bounds. */
  lemma ChangeSettingKeepsBounds(m: AppModel, change: int)
    requires m.Ready() && m.AllInBounds()
    requires SettingFromOrdinal(m.selectedSetting) == Some(Color) ==> change >= -NUM_COLORS
    ensures ChangeSetting(m, change).AllInBounds()
  {
    Mutator.ChangeLedKeepsBounds(m.ledSettings[m.selectedLed], m.selectedSetting, change);
  }

  /** R then L, and L then R, come back to the same state. */
  lemma ShoulderButtonsInverse(m: AppModel)
    requires m.Ready()
    ensures UserInput(UserInput(m, R1), L1) == m
    ensures UserInput(UserInput(m, L1), R1) == m
  {
  }

  /** n presses of R1 select the LED n places on, cyclically. */
  lemma {:induction false} RepeatNextLed(m: AppModel, n: nat)
    requires m.Ready()
    ensures Repeat(m, R1, n) == m.(selectedLed := (m.selectedLed + n) % LED_COUNT)
  {
    if n > 0 {
      RepeatNextLed(m, n - 1);
    }
  }

  /** Three presses of R1 come back to the LED they started from. */
  lemma ShoulderCycle(m: AppModel)
    requires m.Ready()
    ensures Repeat(m, R1, LED_COUNT) == m
    ensures forall n :: 0 < n < LED_COUNT ==> Repeat(m, R1, n).selectedLed != m.selectedLed
  {
    RepeatNextLed(m, LED_COUNT);
    forall n | 0 < n < LED_COUNT
      ensures Repeat(m, R1, n).selectedLed != m.selectedLed
    {
      RepeatNextLed(m, n);
    }
  }

  /** The row after row x mod 5 is row x + 1 mod 5. */
  lemma RowSucc(x: nat)
    ensures (if x % LED_SETTINGS_COUNT == LED_SETTINGS_COUNT - 1 then 0 else x % LED_SETTINGS_COUNT + 1)
            == (x + 1) % LED_SETTINGS_COUNT
  {
  }

  /** n presses of DPAD_DOWN from a menu row select the row n places down, cyclically. */
  lemma {:induction false} RepeatDown(m: AppModel, n: nat)
    requires m.Ready() && 0 <= m.selectedSetting < LED_SETTINGS_COUNT
    ensures Repeat(m, DpadDown, n) == m.(selectedSetting := (m.selectedSetting + n) % LED_SETTINGS_COUNT)
  {
    if n > 0 {
      RepeatDown(m, n - 1);
      RowSucc(m.selectedSetting + n - 1);
    }
  }

  /** Five presses of DPAD_DOWN come back to the row they started from, and no fewer do. */
  lemma DownCycle(m: AppModel)
    requires m.Ready() && 0 <= m.selectedSetting < LED_SETTINGS_COUNT
    ensures Repeat(m, DpadDown, LED_SETTINGS_COUNT) == m
    ensures forall n :: 0 < n < LED_SETTINGS_COUNT ==> Repeat(m, DpadDown, n).selectedSetting != m.selectedSetting
  {
    RepeatDown(m, LED_SETTINGS_COUNT);
    forall n | 0 < n < LED_SETTINGS_COUNT
      ensures Repeat(m, DpadDown, n).selectedSetting != m.selectedSetting
    {
      RepeatDown(m, n);
    }
  }

  /**
   * DPAD_UP undoes DPAD_DOWN except on the last row, where DOWN wraps to
   * the first row and UP stays there; on the first row UP changes nothing.
   */
  lemma UpAfterDown(m: AppModel)
    requires m.Ready() && 0 <= m.selectedSetting < LED_SETTINGS_COUNT
    ensures m.selectedSetting < LED_SETTINGS_COUNT - 1 ==> UserInput(UserInput(m, DpadDown), DpadUp) == m
    ensures m.selectedSetting == LED_SETTINGS_COUNT - 1 ==>
              UserInput(UserInput(m, DpadDown), DpadUp) == m.(selectedSetting := 0)
    ensures m.selectedSetting == 0 ==> UserInput(m, DpadUp) == m
  {
  }

  /** On the colour row, RIGHT then LEFT restores a palette colour; only the update request remains. */
  lemma RightLeftRestoresColor(m: AppModel, j: nat)
    requires m.Ready() && m.selectedSetting == 4 && j < NUM_COLORS
    requires m.ledSettings[m.selectedLed].color == COLORS[j]
    ensures UserInput(UserInput(m, DpadRight), DpadLeft) == m.(shouldUpdateLeds := true)
  {
    Mutator.StepColorInverse(j);
    var i := m.selectedLed;
    var s := m.ledSettings[i];
    var once := UserInput(m, DpadRight);
    assert once.ledSettings[i] == s.(color := Mutator.StepColor(COLORS[j], 1));
    assert UserInput(once, DpadLeft).ledSettings == m.ledSettings;
  }

  /** The application state: main keeps one, and the handlers below update it in place. */
  class AppState {
    var shouldSaveSettings: bool
    var shouldUpdateLeds: bool
    var shouldQuit: bool
    var shouldInstallDaemon: bool
    var currentPage: int
    var selectedLed: int
    var selectedSetting: int
    var selectedMenuOption: int
    const ledSettings: array<LedSettings>

    /** The fields, read as a snapshot. */
    function Model(): AppModel
      reads this, ledSettings
    {
      AppModel(shouldSaveSettings, shouldUpdateLeds, shouldQuit, shouldInstallDaemon,
               currentPage, selectedLed, selectedSetting, selectedMenuOption, ledSettings[..])
    }

    /**
     * The state as declared in main, before initialisation: the fields hold
     * whatever `memory` held.
     */
    constructor(memory: AppModel)
      requires |memory.ledSettings| == LED_COUNT
      ensures Model() == memory
      ensures fresh(ledSettings)
    {
      shouldSaveSettings := memory.shouldSaveSettings;
      shouldUpdateLeds := memory.shouldUpdateLeds;
      shouldQuit := memory.shouldQuit;
      shouldInstallDaemon := memory.shouldInstallDaemon;
      currentPage := memory.currentPage;
      selectedLed := memory.selectedLed;
      selectedSetting := memory.selectedSetting;
      selectedMenuOption := memory.selectedMenuOption;
      ledSettings := new LedSettings[LED_COUNT](i requires 0 <= i < LED_COUNT => memory.ledSettings[i]);
      new;
      assert ledSettings[..] == memory.ledSettings;
    }

    /**
     * initialize_app_state: select the front LED and the brightness row,
     * clear the save and quit requests, then read the settings file
     * (`file` is its text, None when it cannot be opened). Returns 1 when
     * the file cannot be read.
     */
    method Initialize(file: Option<string>) returns (rc: int)
      requires ledSettings.Length == LED_COUNT
      modifies this, ledSettings
      ensures Model() == old(Model()).(
                selectedLed := LedOrdinal(Front), selectedSetting := 1,
                shouldSaveSettings := false, shouldQuit := false,
                ledSettings := SettingsStore.ReadResult(file, old(ledSettings[..])))
      ensures Model().Ready() && SettingFromOrdinal(selectedSetting) == Some(Brightness)
      ensures rc == if file.Some? then 0 else 1
    {
      selectedLed := LedOrdinal(Front);
      selectedSetting := 1;
      shouldSaveSettings := false;
      shouldQuit := false;
      rc := ReadSettings(file);
      if rc != 0 {
        return 1;
      }
      return 0;
    }

    /**
     * read_settings: each line either selects a section by its `[LED_<n>`
     * header or, inside a section of an existing LED, overwrites the fields
     * whose key it carries and then clamps all four fields.
     */
    method ReadSettings(file: Option<string>) returns (rc: int)
      requires ledSettings.Length == LED_COUNT
      modifies ledSettings
      ensures ledSettings[..] == SettingsStore.ReadResult(file, old(ledSettings[..]))
      ensures rc == if file.Some? then 0 else 1
    {
      if file.None? {
        return 1;
      }
      var lines := TextFormat.SplitLines(file.value);
      ghost var start := SettingsStore.LoadState(-1, ledSettings[..]);
      var ledIndex := -1;
      var i := 0;
      while i < |lines|
        invariant 0 <= i <= |lines|
        invariant SettingsStore.LoadState(ledIndex, ledSettings[..]) == SettingsStore.Load(start, lines[..i])
      {
        var line := lines[i];
        SettingsStore.LoadSnoc(start, lines, i);
        var header := SettingsStore.HeaderIndex(line);
        if header.Some? {
          ledIndex := header.value;
        } else if 0 <= ledIndex < LED_COUNT {
          var s := ApplyData(ledSettings[ledIndex], line);
          ledSettings[ledIndex] := s;
        }
        i := i + 1;
      }
      assert lines[..|lines|] == lines;
      return 0;
    }

    /**
     * save_settings: clear the save request, then, when the file opens,
     * write every LED's section in index order. `canOpen` says whether the
     * file opens; `file` is the text written, None when nothing is.
     */
    method SaveSettings(canOpen: bool) returns (rc: int, file: Option<string>)
      requires ledSettings.Length == LED_COUNT
      modifies this
      ensures Model() == old(Model()).(shouldSaveSettings := false)
      ensures rc == if canOpen then 0 else 1
      ensures file == if canOpen then Some(SettingsStore.Serialize(ledSettings[..])) else None
    {
      shouldSaveSettings := false;
      if !canOpen {
        return 1, None;
      }
      var text := "";
      ghost var lines: seq<string> := [];
      var ledIndex := 0;
      while ledIndex < LED_COUNT
        invariant 0 <= ledIndex <= LED_COUNT
        invariant lines == SettingsStore.SettingsLines(ledSettings[..ledIndex])
        invariant text == TextFormat.JoinLines(lines)
        modifies {}
      {
        var s := ledSettings[ledIndex];
        text, lines := WriteSection(text, lines, ledIndex, s);
        SettingsStore.SettingsLinesSnoc(ledSettings[..], ledIndex + 1);
        assert ledSettings[..][..ledIndex + 1] == ledSettings[..ledIndex + 1];
        ledIndex := ledIndex + 1;
      }
      assert ledSettings[..LED_COUNT] == ledSettings[..];
      return 0, Some(text);
    }

    /** handle_change_setting: the selected LED's settings change as the mutator says. */
    method HandleChangeSetting(change: int)
      requires ledSettings.Length == LED_COUNT && 0 <= selectedLed < LED_COUNT && Unsigned(selectedSetting)
      requires SettingFromOrdinal(selectedSetting) == Some(Color) ==> change >= -NUM_COLORS
      modifies ledSettings
      ensures Model() == ChangeSetting(old(Model()), change)
    {
      var s := ChangeLedSettings(ledSettings[selectedLed], selectedSetting, change);
      ledSettings[selectedLed] := s;
    }

    /** handle_user_input: one input applied to the state. */
    method HandleUserInput(input: InputType)
      requires Model().Ready()
      modifies this, ledSettings
      ensures Model() == UserInput(old(Model()), input)
    {
      match input
      case Power | Start =>
        shouldSaveSettings := true;
      case B =>
        shouldQuit := true;
      case DpadUp =>
        selectedSetting := SettingUp(selectedSetting);
      case DpadDown =>
        selectedSetting := SettingDown(selectedSetting);
      case DpadRight =>
        HandleChangeSetting(1);
        shouldUpdateLeds := true;
      case DpadLeft =>
        HandleChangeSetting(-1);
        shouldUpdateLeds := true;
      case L1 | L2 | L3 =>
        selectedLed := PreviousLed(selectedLed);
      case R1 | R2 | R3 =>
        selectedLed := NextLed(selectedLed);
      case _ =>
    }

    /**
     * update_leds: clear the update request, then attempt each LED's writes
     * in order, the front LED's colour, duration and effect once for each
     * half; a write whose file does not open is skipped.
     */
    method UpdateLeds(canOpen: string -> bool) returns (writes: seq<HardwareSync.Write>)
      requires ledSettings.Length == LED_COUNT
      modifies this
      ensures Model() == old(Model()).(shouldUpdateLeds := false)
      ensures writes == HardwareSync.Performed(HardwareSync.SyncPlan(ledSettings[..]), canOpen)
    {
      shouldUpdateLeds := false;
      writes := WriteAll(ledSettings, canOpen);
    }
  }

  /** Palette position `index` holds `color`. */
  predicate HoldsAt(index: int, color: nat) {
    0 <= index < NUM_COLORS && COLORS[index] == color
  }

  /**
   * The search loop of handle_change_setting: the first palette position
   * holding `color`, or -1 when no entry does.
   */
  method FindColorIndex(color: nat) returns (index: int)
    ensures index == Mutator.PaletteIndex(color)
    ensures -1 <= index < NUM_COLORS
  {
    index := -1;
    var i := 0;
    while i < NUM_COLORS
      invariant 0 <= i <= NUM_COLORS && -1 <= index < NUM_COLORS
      invariant index == -1 ==> forall k :: 0 <= k < i ==> COLORS[k] != color
      invariant index >= 0 ==> HoldsAt(index, color)
    {
      if COLORS[i] == color {
        index := i;
        break;
      }
      i := i + 1;
    }
    if index != -1 {
      Mutator.PaletteIndexAt(index);
    }
  }

  /**
   * The switch of handle_change_setting on one LED's settings: the field
   * the setting names moves by `change`; the colour moves `change` places
   * through the palette from where the search found it, or from position 0.
   */
  method ChangeLedSettings(s: LedSettings, setting: int, change: int) returns (r: LedSettings)
    requires SettingFromOrdinal(setting) == Some(Color) ==> change >= -NUM_COLORS
    ensures r == Mutator.ChangeLed(s, setting, change)
  {
    r := s;
    if setting == 1 {
      r := r.(brightness := Common.Clamp(s.brightness + change * BRIGHTNESS_INCREMENT, 0, MAX_BRIGHTNESS));
    } else if setting == 2 {
      r := r.(effect := Common.Clamp(s.effect + change, 0, ANIMATION_EFFECT_COUNT - 1));
    } else if setting == 3 {
      r := r.(duration := Common.Clamp(s.duration + DURATION_INCREMENT * change, 0, MAX_DURATION));
    } else if setting == 4 {
      var color := NextPaletteColor(s.color, change);
      r := r.(color := color);
    }
  }

  /** The colour case of handle_change_setting: `change` palette places on from where the search finds `color`, or from position 0. */
  method NextPaletteColor(color: nat, change: int) returns (next: nat)
    requires change >= -NUM_COLORS
    ensures next == Mutator.StepColor(color, change)
  {
    var index := FindColorIndex(color);
    if index == -1 {
      index := 0;
    }
    index := (index + change + NUM_COLORS) % NUM_COLORS;
    next := COLORS[index];
  }

  /** The loop of update_leds over the three LEDs, in order. */
  method WriteAll(ledSettings: array<LedSettings>, canOpen: string -> bool) returns (writes: seq<HardwareSync.Write>)
    requires ledSettings.Length == LED_COUNT
    ensures writes == HardwareSync.Performed(HardwareSync.SyncPlan(ledSettings[..]), canOpen)
  {
    writes := [];
    ghost var ss := ledSettings[..];
    var led := 0;
    while led < LED_COUNT
      invariant 0 <= led <= LED_COUNT
      invariant writes == HardwareSync.Performed(HardwareSync.SyncPlan(ss[..led]), canOpen)
    {
      writes := WriteLed(writes, led, ledSettings[led], canOpen);
      HardwareSync.PerformedSyncStep(ss, led, canOpen);
      led := led + 1;
    }
    assert ss[..LED_COUNT] == ss;
  }

  /**
   * The four sscanf calls on a data line, each overwriting its field when
   * the line carries that key and the value parses, then the four clamps.
   */
  method ApplyData(s: LedSettings, line: string) returns (s': LedSettings)
    ensures s' == SettingsStore.ApplyDataLine(s, line)
  {
    s' := s;
    var brightness := SettingsStore.DecimalField(line, "brightness");
    if brightness.Some? {
      s' := s'.(brightness := brightness.value);
    }
    var color := SettingsStore.ColorField(line);
    if color.Some? {
      s' := s'.(color := color.value);
    }
    var duration := SettingsStore.DecimalField(line, "duration");
    if duration.Some? {
      s' := s'.(duration := duration.value);
    }
    var effect := SettingsStore.DecimalField(line, "effect");
    if effect.Some? {
      s' := s'.(effect := effect.value);
    }
    s' := s'.(brightness := Common.Clamp(s'.brightness, 0, MAX_BRIGHTNESS));
    s' := s'.(color := Common.Clamp(s'.color, 0, MAX_COLOR));
    s' := s'.(duration := Common.Clamp(s'.duration, 0, MAX_DURATION));
    s' := s'.(effect := Common.Clamp(s'.effect, 0, ANIMATION_EFFECT_COUNT - 1));
  }

  /** The five fprintf calls of one LED's section, the last ending in a blank line. */
  method WriteSection(text: string, ghost lines: seq<string>, i: int, s: LedSettings)
    returns (text': string, ghost lines': seq<string>)
    requires text == TextFormat.JoinLines(lines)
    ensures lines' == lines + SettingsStore.SectionLines(i, s)
    ensures text' == TextFormat.JoinLines(lines')
  {
    ghost var before := lines;
    text', lines' := WriteThree(text, lines,
      SettingsStore.HeaderLine(i), SettingsStore.BrightnessLine(s.brightness), SettingsStore.ColorLine(s.color));
    text', lines' := WriteThree(text', lines',
      SettingsStore.DurationLine(s.duration), SettingsStore.EffectLine(s.effect), "");
    ThreeAndThree(before, SettingsStore.SectionLines(i, s));
  }

  /** Six lines appended as two runs of three. */
  lemma ThreeAndThree(lines: seq<string>, six: seq<string>)
    requires |six| == 6
    ensures lines + [six[0], six[1], six[2]] + [six[3], six[4], six[5]] == lines + six
  {
  }

  /** Three lines written one after the other. */
  method WriteThree(text: string, ghost lines: seq<string>, a: string, b: string, c: string)
    returns (text': string, ghost lines': seq<string>)
    requires text == TextFormat.JoinLines(lines)
    ensures lines' == lines + [a, b, c]
    ensures text' == TextFormat.JoinLines(lines')
  {
    text', lines' := WriteLine(text, lines, a);
    text', lines' := WriteLine(text', lines', b);
    text', lines' := WriteLine(text', lines', c);
  }

  /**
   * One LED's writes in update_leds: colour, duration and effect (for each
   * front half, or under the LED's name), then the brightness, whose guard
   * `led != LED_FRONT || led != LED_BACK` always holds.
   */
  method WriteLed(writes: seq<HardwareSync.Write>, led: nat, s: LedSettings, canOpen: string -> bool)
    returns (writes': seq<HardwareSync.Write>)
    requires led < LED_COUNT
    ensures writes' == writes + HardwareSync.Performed(HardwareSync.ConcernPlan(led, s), canOpen)
                      + HardwareSync.Attempt(HardwareSync.MaxScaleWrite(s, HardwareSync.LED_NAMES[led]), canOpen)
  {
    var name := HardwareSync.LED_NAMES[led];
    if led == LedOrdinal(Front) {
      writes' := WriteFrontHalves(writes, s, canOpen);
    } else {
      writes' := WriteConcerns(writes, s, name, canOpen);
    }
    if led != LedOrdinal(Front) || led != LedOrdinal(Back) {
      writes' := writes' + HardwareSync.Attempt(HardwareSync.MaxScaleWrite(s, name), canOpen);
    }
  }

  /** The front LED's colour, duration and effect, written once for each half, f1 then f2. */
  method WriteFrontHalves(writes: seq<HardwareSync.Write>, s: LedSettings, canOpen: string -> bool)
    returns (writes': seq<HardwareSync.Write>)
    ensures writes' == writes + HardwareSync.Performed(HardwareSync.SplitWrites(s, HardwareSync.FRONT_SPLIT), canOpen)
  {
    writes' := writes;
    var nameIndex := 0;
    while nameIndex < 2
      invariant 0 <= nameIndex <= 2
      invariant writes' == writes + HardwareSync.Performed(HardwareSync.SplitWrites(s, HardwareSync.FRONT_SPLIT[..nameIndex]), canOpen)
    {
      writes' := WriteConcerns(writes', s, HardwareSync.FRONT_SPLIT[nameIndex], canOpen);
      FrontSplitStep(s, nameIndex, canOpen);
      nameIndex := nameIndex + 1;
    }
    assert HardwareSync.FRONT_SPLIT[..2] == HardwareSync.FRONT_SPLIT;
  }

  /** One fprintf of a line: the text grows by the line and its break, the lines by the line. */
  method WriteLine(text: string, ghost lines: seq<string>, line: string)
    returns (text': string, ghost lines': seq<string>)
    requires text == TextFormat.JoinLines(lines)
    ensures lines' == lines + [line]
    ensures text' == TextFormat.JoinLines(lines')
    ensures text' == text + line + "\n"
  {
    TextFormat.JoinSnoc(lines, line);
    text' := text + line + "\n";
    lines' := lines + [line];
  }

  /** write_color_data, write_effect_duration_data and write_effect_data for one suffix, in that order. */
  method WriteConcerns(writes: seq<HardwareSync.Write>, s: LedSettings, suffix: string, canOpen: string -> bool)
    returns (writes': seq<HardwareSync.Write>)
    ensures writes' == writes + HardwareSync.Performed(HardwareSync.ConcernWrites(s, suffix), canOpen)
  {
    writes' := writes + HardwareSync.Attempt(HardwareSync.ColorWrite(s, suffix), canOpen);
    writes' := writes' + HardwareSync.Attempt(HardwareSync.DurationWrite(s, suffix), canOpen);
    writes' := writes' + HardwareSync.Attempt(HardwareSync.EffectWrite(s, suffix), canOpen);
    HardwareSync.PerformedConcern(s, suffix, canOpen);
  }

  /** One more half of the front LED. */
  lemma FrontSplitStep(s: LedSettings, n: nat, canOpen: string -> bool)
    requires n < 2
    ensures HardwareSync.Performed(HardwareSync.SplitWrites(s, HardwareSync.FRONT_SPLIT[..n + 1]), canOpen) ==
              HardwareSync.Performed(HardwareSync.SplitWrites(s, HardwareSync.FRONT_SPLIT[..n]), canOpen)
              + HardwareSync.Performed(HardwareSync.ConcernWrites(s, HardwareSync.FRONT_SPLIT[n]), canOpen)
  {
    var names := HardwareSync.FRONT_SPLIT[..n + 1];
    assert names[..|names| - 1] == HardwareSync.FRONT_SPLIT[..n];
    HardwareSync.PerformedAppend(HardwareSync.SplitWrites(s, HardwareSync.FRONT_SPLIT[..n]),
                                 HardwareSync.ConcernWrites(s, HardwareSync.FRONT_SPLIT[n]), canOpen);
  }
}
