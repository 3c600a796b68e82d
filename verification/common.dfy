/**
 * The helpers of led_controller_common.c: clamp, the extended-colour
 * hue-wheel step next_color, the LED internal names and their inverse, and
 * the tables that turn enum values into display strings.
 */
module Common {
  import opened Wrappers
  import opened LedTypes
  import CommonTypes
  import TextFormat

  /** `value` limited to the closed interval [min, max]. */
  function Clamp(value: int, min: int, max: int): (r: int)
    ensures min <= max ==> min <= r <= max
    ensures min <= value <= max ==> r == value
    ensures value < min ==> r == min
    ensures max < value && min <= max ==> r == max
  {
    if value < min then min
    else if value > max then max
    else value
  }

  /** Clamping a clamped value changes nothing. */
  lemma ClampIdempotent(value: int, min: int, max: int)
    requires min <= max
    ensures Clamp(Clamp(value, min, max), min, max) == Clamp(value, min, max)
  {
  }

  /** Clamping preserves order. */
  lemma ClampMonotone(a: int, b: int, min: int, max: int)
    requires a <= b && min <= max
    ensures Clamp(a, min, max) <= Clamp(b, min, max)
  {
  }

  /** An 8-bit colour channel. */
  type Byte = x: nat | x < 0x100

  /** A colour split into its red, green and blue channels. */
  datatype Channels = Channels(r: Byte, g: Byte, b: Byte)

  /** The channels of a packed colour, as the shifts and masks extract them (only the low 24 bits count). */
  function Unpack(color: nat): Channels {
    Channels((color / 0x1_0000) % 0x100, (color / 0x100) % 0x100, color % 0x100)
  }

  /** The channels packed back into one colour value. */
  function Pack(c: Channels): (color: nat)
    ensures color <= MAX_COLOR
  {
    c.r * 0x1_0000 + c.g * 0x100 + c.b
  }

  /** Unpacking a packed colour gives its channels back. */
  lemma UnpackPack(c: Channels)
    ensures Unpack(Pack(c)) == c
  {
    var color := Pack(c);
    assert color / 0x100 == c.r * 0x100 + c.g;
    assert color / 0x1_0000 == c.r;
  }

  /** Packing is one-to-one. */
  lemma PackInjective(c: Channels, d: Channels)
    requires Pack(c) == Pack(d)
    ensures c == d
  {
    UnpackPack(c);
    UnpackPack(d);
  }

  /** A channel moved by `delta` and held within [0, 255]. */
  function MoveChannel(x: Byte, delta: int): Byte {
    Clamp(x + delta, 0, 255)
  }

  /** The colour lies on one of the six edges of the RGB cube that next_color walks. */
  predicate OnWheel(c: Channels) {
    || (c.r == 255 && c.g < 255 && c.b == 0)
    || (c.r > 0 && c.g == 255 && c.b == 0)
    || (c.g == 255 && c.r == 0 && c.b < 255)
    || (c.g > 0 && c.b == 255 && c.r == 0)
    || (c.b == 255 && c.g == 0 && c.r < 255)
    || (c.r == 255 && c.g == 0 && c.b > 0)
  }

  /** How far a channel moved. */
  function Distance(x: Byte, y: Byte): nat {
    if x <= y then y - x else x - y
  }

  /**
   * The body of next_color on channels: the edge the colour lies on is found
   * by exact tests of two channels, and the third channel moves by
   * sign * COLOR_CYCLE_INCREMENT, held within [0, 255]. A colour on no edge is
   * reset to red.
   */
  function NextChannels(c: Channels, sign: int): (res: Channels)
    requires -1 <= sign <= 1
    ensures !OnWheel(c) ==> res == Channels(255, 0, 0)
  {
    // sign * COLOR_CYCLE_INCREMENT, for the three signs allowed
    var step := if sign < 0 then -CommonTypes.COLOR_CYCLE_INCREMENT else if sign > 0 then CommonTypes.COLOR_CYCLE_INCREMENT else 0;
    if c.r == 255 && c.g < 255 && c.b == 0 then c.(g := MoveChannel(c.g, step))        // red to yellow
    else if c.r > 0 && c.g == 255 && c.b == 0 then c.(r := MoveChannel(c.r, -step))    // yellow to green
    else if c.g == 255 && c.r == 0 && c.b < 255 then c.(b := MoveChannel(c.b, step))   // green to cyan
    else if c.g > 0 && c.b == 255 && c.r == 0 then c.(g := MoveChannel(c.g, -step))    // cyan to blue
    else if c.b == 255 && c.g == 0 && c.r < 255 then c.(r := MoveChannel(c.r, step))   // blue to magenta
    else if c.r == 255 && c.g == 0 && c.b > 0 then c.(b := MoveChannel(c.b, -step))    // magenta to red
    else Channels(255, 0, 0)
  }

  /**
   * The step always lands on the wheel, and a colour on the wheel changes
   * in at most one channel, by at most one increment.
   */
  lemma NextChannelsStaysOnWheel(c: Channels, sign: int)
    requires -1 <= sign <= 1
    ensures OnWheel(NextChannels(c, sign))
    ensures OnWheel(c) ==>
              var res := NextChannels(c, sign);
              var moved := (if res.r != c.r then 1 else 0) + (if res.g != c.g then 1 else 0) + (if res.b != c.b then 1 else 0);
              && moved <= 1
              && Distance(c.r, res.r) <= CommonTypes.COLOR_CYCLE_INCREMENT
              && Distance(c.g, res.g) <= CommonTypes.COLOR_CYCLE_INCREMENT
              && Distance(c.b, res.b) <= CommonTypes.COLOR_CYCLE_INCREMENT
  {
  }

  /** x moved toward `target` by one increment, or onto it when it is nearer than that. */
  function Toward(x: Byte, target: Byte): (y: Byte)
    ensures Distance(x, y) <= CommonTypes.COLOR_CYCLE_INCREMENT
    ensures Distance(y, target) == if Distance(x, target) <= 16 then 0 else Distance(x, target) - 16
  {
    if x <= target then (if target - x <= 16 then target else x + 16)
    else (if x - target <= 16 then target else x - 16)
  }

  /** A corner of the RGB cube that lies on the wheel: red, yellow, green, cyan, blue or magenta. */
  predicate IsVertex(c: Channels) {
    && (c.r == 0 || c.r == 255)
    && (c.g == 0 || c.g == 255)
    && (c.b == 0 || c.b == 255)
    && OnWheel(c)
  }

  /**
   * On each edge only its free channel moves: sign +1 takes it one increment
   * toward the next vertex, sign -1 toward the previous one, sign 0 leaves
   * the colour as it is; the other two channels stay.
   */
  lemma NextChannelsAlongEdges(c: Channels)
    ensures c.r == 255 && c.g < 255 && c.b == 0 ==>      // red to yellow
              NextChannels(c, 1) == c.(g := Toward(c.g, 255)) && NextChannels(c, -1) == c.(g := Toward(c.g, 0))
    ensures c.r > 0 && c.g == 255 && c.b == 0 ==>        // yellow to green
              NextChannels(c, 1) == c.(r := Toward(c.r, 0)) && NextChannels(c, -1) == c.(r := Toward(c.r, 255))
    ensures c.g == 255 && c.r == 0 && c.b < 255 ==>      // green to cyan
              NextChannels(c, 1) == c.(b := Toward(c.b, 255)) && NextChannels(c, -1) == c.(b := Toward(c.b, 0))
    ensures c.g > 0 && c.b == 255 && c.r == 0 ==>        // cyan to blue
              NextChannels(c, 1) == c.(g := Toward(c.g, 0)) && NextChannels(c, -1) == c.(g := Toward(c.g, 255))
    ensures c.b == 255 && c.g == 0 && c.r < 255 ==>      // blue to magenta
              NextChannels(c, 1) == c.(r := Toward(c.r, 255)) && NextChannels(c, -1) == c.(r := Toward(c.r, 0))
    ensures c.r == 255 && c.g == 0 && c.b > 0 ==>        // magenta to red
              NextChannels(c, 1) == c.(b := Toward(c.b, 0)) && NextChannels(c, -1) == c.(b := Toward(c.b, 255))
    ensures NextChannels(c, 0) == if OnWheel(c) then c else Channels(255, 0, 0)
  {
  }

  /** Away from the vertices, a backward step undoes a forward step and a forward step undoes a backward one. */
  lemma NextChannelsUndo(c: Channels)
    requires OnWheel(c)
    ensures !IsVertex(NextChannels(c, 1)) ==> NextChannels(NextChannels(c, 1), -1) == c
    ensures !IsVertex(NextChannels(c, -1)) ==> NextChannels(NextChannels(c, -1), 1) == c
  {
    NextChannelsAlongEdges(c);
    var d, e := NextChannels(c, 1), NextChannels(c, -1);
    if c.r == 255 && c.g < 255 && c.b == 0 {
      TowardUndo(c.g, 255, 0);
      TowardUndo(c.g, 0, 255);
    } else if c.r > 0 && c.g == 255 && c.b == 0 {
      TowardUndo(c.r, 0, 255);
      TowardUndo(c.r, 255, 0);
    } else if c.g == 255 && c.r == 0 && c.b < 255 {
      TowardUndo(c.b, 255, 0);
      TowardUndo(c.b, 0, 255);
    } else if c.g > 0 && c.b == 255 && c.r == 0 {
      TowardUndo(c.g, 0, 255);
      TowardUndo(c.g, 255, 0);
    } else if c.b == 255 && c.g == 0 && c.r < 255 {
      TowardUndo(c.r, 255, 0);
      TowardUndo(c.r, 0, 255);
    } else {
      TowardUndo(c.b, 0, 255);
      TowardUndo(c.b, 255, 0);
    }
    NextChannelsAlongEdges(d);
    NextChannelsAlongEdges(e);
  }

  /** Short of the target, a move toward one end of [0, 255] is undone by a move toward the other. */
  lemma TowardUndo(x: Byte, a: Byte, b: Byte)
    requires (a == 0 && b == 255) || (a == 255 && b == 0)
    ensures Toward(x, a) != a ==> Toward(Toward(x, a), b) == x
  {
  }

  /**
   * next_color: one step of the extended-colour hue wheel
   * Red -> Yellow -> Green -> Cyan -> Blue -> Magenta -> Red (sign +1) or
   * back (sign -1), on a 32-bit colour value.
   */
  function NextColor(color: nat, sign: int): (res: nat)
    requires color < 0x1_0000_0000
    requires -1 <= sign <= 1
    ensures res <= MAX_COLOR
  {
    Pack(NextChannels(Unpack(color), sign))
  }

  /** next_color on a packed colour is the channel step on its channels. */
  lemma NextColorPacked(c: Channels, sign: int)
    requires -1 <= sign <= 1
    ensures NextColor(Pack(c), sign) == Pack(NextChannels(c, sign))
    ensures Unpack(NextColor(Pack(c), sign)) == NextChannels(c, sign)
  {
    UnpackPack(c);
    UnpackPack(NextChannels(c, sign));
  }

  /** color_to_string: the palette colours by name, any other as "0x" and six or more upper-case hex digits. */
  function ColorToString(color: nat): string {
    if color == 0xFF0000 then "Red"
    else if color == 0xFF8080 then "Light Red"
    else if color == 0x800000 then "Maroon"
    else if color == 0xFF0080 then "Hot Pink"
    else if color == 0xFF8000 then "Orange"
    else if color == 0x00FF00 then "Green"
    else if color == 0x00FF80 then "Lime"
    else if color == 0xFFFF00 then "Yellow"
    else if color == 0x808000 then "Olive"
    else if color == 0x0000FF then "Blue"
    else if color == 0x0080FF then "Light Blue"
    else if color == 0x000080 then "Navy"
    else if color == 0x00FFFF then "Cyan"
    else if color == 0x008080 then "Teal"
    else if color == 0xFF00FF then "Magenta"
    else if color == 0xFF80C0 then "Pink"
    else if color == 0xFFFFFF then "White"
    else "0x" + TextFormat.HexString(color, 6)
  }

  /** A display string in the hexadecimal form rather than a colour name. */
  predicate IsHexForm(s: string) {
    |s| >= 2 && s[0] == '0' && s[1] == 'x'
  }

  /**
   * Exactly the palette colours get a name; any other 24-bit colour is
   * shown as "0x" and six upper-case hex digits that read back as the colour.
   */
  lemma ColorToStringForms(color: nat)
    ensures !IsHexForm(ColorToString(color)) <==> color in COLORS
    ensures color !in COLORS && color <= MAX_COLOR ==>
              |ColorToString(color)| == 8 && TextFormat.ScanHex(ColorToString(color)) == Some(color)
  {
    if color !in COLORS {
      TextFormat.ScanHexRoundTrip(color, "");
      assert "0x" + TextFormat.HexString(color, 6) + "" == ColorToString(color);
      if color <= MAX_COLOR {
        assert TextFormat.Pow(16, 6) == 0x100_0000;
        TextFormat.NumeralWidth(color, 16, 6);
      }
    }
  }

  /** Different 24-bit colours are never shown alike. */
  lemma ColorToStringInjective(a: nat, b: nat)
    requires a <= MAX_COLOR && b <= MAX_COLOR
    requires ColorToString(a) == ColorToString(b)
    ensures a == b
  {
    ColorToStringForms(a);
    ColorToStringForms(b);
  }

  /** The display name of an effect. */
  function EffectName(e: AnimationEffect): string {
    match e
    case Disable => "Disabled"
    case Linear => "Linear"
    case Breath => "Breath"
    case Sniff => "Sniff"
    case Static => "Static"
    case Blink1 => "Blink 1"
    case Blink2 => "Blink 2"
    case Blink3 => "Blink 3"
  }

  /** animation_effect_to_string: the effect's name, or "UNKNOWN" for a value outside the enum. */
  function AnimationEffectToString(effect: int): (r: string)
    ensures r == "UNKNOWN" <==> !(0 <= effect < ANIMATION_EFFECT_COUNT)
  {
    match EffectFromOrdinal(effect)
    case Some(e) => EffectName(e)
    case None => "UNKNOWN"
  }

  /** Distinct effects get distinct names. */
  lemma EffectNamesDistinct(a: AnimationEffect, b: AnimationEffect)
    requires EffectName(a) == EffectName(b)
    ensures a == b
  {
  }

  /** led_setting_option_to_string (this generation): MATCH_SETTINGS has no case and falls to "UNKNOWN". */
  function LedSettingOptionToString(setting: int): (r: string)
    ensures r == "UNKNOWN     " <==> !(0 <= setting < CommonTypes.LED_SETTINGS_COUNT - 1)
    ensures CommonTypes.SettingFromOrdinal(setting) == Some(CommonTypes.MatchSettings) ==> r == "UNKNOWN     "
  {
    var o := CommonTypes.SettingFromOrdinal(setting);
    if o == Some(CommonTypes.SelectedLed) then "LED: "
    else if o == Some(CommonTypes.Brightness) then "Brightness: "
    else if o == Some(CommonTypes.Effect) then "Effect:     "
    else if o == Some(CommonTypes.Color) then "Color       "
    else if o == Some(CommonTypes.Duration) then "Duration:   "
    else "UNKNOWN     "
  }

  /**
   * menu_option_to_string: the toggle's label follows the extended-colour
   * flag; TOGGLE_LOW_BATTERY_INDICATION has no case and falls to "UNKNOWN".
   */
  function MenuOptionToString(option: int, appState: CommonTypes.AppState): (r: string)
    ensures r == "UNKNOWN" <==> !(0 <= option < CommonTypes.MENU_OPTION_COUNT) || option == 3
    ensures option == 2 ==> (r == "Disable Extended Colors" <==> appState.areExtendedColorsEnabled)
  {
    var o := CommonTypes.MenuOptionFromOrdinal(option);
    if o == Some(CommonTypes.ToggleExtendedColors) then
      (if appState.areExtendedColorsEnabled then "Disable Extended Colors" else "Enable Extended Colors")
    else if o == Some(CommonTypes.EnableAll) then "Turn on all LEDs"
    else if o == Some(CommonTypes.DisableAll) then "Turn off all LEDs"
    else if o == Some(CommonTypes.Uninstall) then "Uninstall"
    else if o == Some(CommonTypes.Quit) then "Quit"
    else "UNKNOWN"
  }

  /** led_internal_name: the name the LED driver's files use for an LED. */
  function InternalName(led: int): string {
    match LedFromOrdinal(led)
    case Some(Front) => "f1f2"
    case Some(Top) => "m"
    case Some(Back) => "lr"
    case None => "UNKNOWN"
  }

  /** internal_led_name_to_led: the LED an internal name belongs to, or -1. */
  function InternalNameToLed(name: string): (r: int)
    ensures r == -1 || (0 <= r < LED_COUNT && InternalName(r) == name)
    ensures r == -1 <==> name != "f1f2" && name != "m" && name != "lr"
  {
    if name == "f1f2" then LedOrdinal(Front)
    else if name == "m" then LedOrdinal(Top)
    else if name == "lr" then LedOrdinal(Back)
    else -1
  }

  /** Each LED's internal name leads back to it; "UNKNOWN" leads nowhere. */
  lemma InternalNameRoundTrip(led: int)
    ensures 0 <= led < LED_COUNT ==> InternalNameToLed(InternalName(led)) == led
    ensures !(0 <= led < LED_COUNT) ==> InternalNameToLed(InternalName(led)) == -1
  {
  }
}
