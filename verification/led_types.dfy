/**
 * The data model of led_controller.h: the LED clusters, the driver's
 * animation effects, the editable settings, the menu options, the settings
 * record of one LED, the bounds and steps used when editing, and the colour
 * palette.
 */
module LedTypes {
  import opened Wrappers

  /** FRONT, TOP, BACK. */
  const LED_COUNT := 3
  /** SELECTED_LED, BRIGHTNESS, EFFECT, DURATION, COLOR. */
  const LED_SETTINGS_COUNT := 5
  /** ENABLE_ALL, DISABLE_ALL, UNINSTALL, QUIT. */
  const MENU_OPTION_COUNT := 4
  const ANIMATION_EFFECT_COUNT := 8
  /** Largest brightness the firmware accepts. */
  const MAX_BRIGHTNESS := 200
  /** Longest effect cycle, in milliseconds. */
  const MAX_DURATION := 5000
  const DURATION_INCREMENT := 500
  const BRIGHTNESS_INCREMENT := 10
  const NUM_COLORS := 17
  /** Largest 24-bit RGB value. */
  const MAX_COLOR := 0xFF_FFFF

  datatype Led = Front | Top | Back

  /** The C enum value of an Led; it is a valid array index and maps back to the same Led. */
  function LedOrdinal(led: Led): (i: nat)
    ensures i < LED_COUNT && LedFromOrdinal(i) == Some(led)
  {
    match led
    case Front => 0
    case Top => 1
    case Back => 2
  }

  /** The Led a C enum value stands for, if any. */
  function LedFromOrdinal(i: int): (r: Option<Led>)
    ensures r.Some? <==> 0 <= i < LED_COUNT
  {
    if i == 0 then Some(Front)
    else if i == 1 then Some(Top)
    else if i == 2 then Some(Back)
    else None
  }

  /** The effects the firmware recognises, in the order of their numeric codes. */
  datatype AnimationEffect = Disable | Linear | Breath | Sniff | Static | Blink1 | Blink2 | Blink3

  /** The numeric code of an effect; codes are 0 .. ANIMATION_EFFECT_COUNT - 1 and map back. */
  function EffectOrdinal(e: AnimationEffect): (i: nat)
    ensures i < ANIMATION_EFFECT_COUNT && EffectFromOrdinal(i) == Some(e)
  {
    match e
    case Disable => 0
    case Linear => 1
    case Breath => 2
    case Sniff => 3
    case Static => 4
    case Blink1 => 5
    case Blink2 => 6
    case Blink3 => 7
  }

  function EffectFromOrdinal(i: int): (r: Option<AnimationEffect>)
    ensures r.Some? <==> 0 <= i < ANIMATION_EFFECT_COUNT
  {
    if i == 0 then Some(Disable)
    else if i == 1 then Some(Linear)
    else if i == 2 then Some(Breath)
    else if i == 3 then Some(Sniff)
    else if i == 4 then Some(Static)
    else if i == 5 then Some(Blink1)
    else if i == 6 then Some(Blink2)
    else if i == 7 then Some(Blink3)
    else None
  }

  /** The field of the selected LED that left/right edits; SelectedLed is a pseudo-field. */
  datatype LedSettingOption = SelectedLed | Brightness | Effect | Duration | Color

  function SettingFromOrdinal(i: int): (r: Option<LedSettingOption>)
    ensures r.Some? <==> 0 <= i < LED_SETTINGS_COUNT
    ensures r == Some(SelectedLed) <==> i == 0
    ensures r == Some(Color) <==> i == LED_SETTINGS_COUNT - 1
  {
    if i == 0 then Some(SelectedLed)
    else if i == 1 then Some(Brightness)
    else if i == 2 then Some(Effect)
    else if i == 3 then Some(Duration)
    else if i == 4 then Some(Color)
    else None
  }

  datatype MenuOption = EnableAll | DisableAll | Uninstall | Quit

  function MenuOptionFromOrdinal(i: int): (r: Option<MenuOption>)
    ensures r.Some? <==> 0 <= i < MENU_OPTION_COUNT
    ensures r == Some(Quit) <==> i == MENU_OPTION_COUNT - 1
  {
    if i == 0 then Some(EnableAll)
    else if i == 1 then Some(DisableAll)
    else if i == 2 then Some(Uninstall)
    else if i == 3 then Some(Quit)
    else None
  }

  datatype ApplicationPage = ConfigPage | MenuPage

  /**
   * The settings of one LED. The effect is kept as the C enum's integer
   * value, since the settings file is read into it with %d before it is
   * clamped; the colour is a packed 0xRRGGBB value.
   */
  datatype LedSettings = LedSettings(brightness: int, effect: int, color: nat, duration: int)

  /** Every field within the closed bounds the editor and the loader enforce. */
  predicate InBounds(s: LedSettings) {
    && 0 <= s.brightness <= MAX_BRIGHTNESS
    && 0 <= s.effect < ANIMATION_EFFECT_COUNT
    && s.color <= MAX_COLOR
    && 0 <= s.duration <= MAX_DURATION
  }

  /** The palette the colour setting steps through. */
  const COLORS: seq<nat> := [
    0xFF0000, // Red
    0xFF8080, // Light Red
    0x800000, // Maroon
    0xFF0080, // Hot Pink
    0xFF8000, // Orange
    0x00FF00, // Green
    0x00FF80, // Aqua
    0xFFFF00, // Yellow
    0x808000, // Olive
    0x0000FF, // Blue
    0x0080FF, // Sky Blue
    0x000080, // Navy
    0x00FFFF, // Cyan
    0x008080, // Teal
    0xFF00FF, // Magenta
    0xFF80C0, // Light Magenta
    0xFFFFFF  // White
  ]

  /** The palette has NUM_COLORS entries, all distinct, all 24-bit colours. */
  lemma PaletteWellFormed()
    ensures |COLORS| == NUM_COLORS
    ensures forall i, j :: 0 <= i < j < |COLORS| ==> COLORS[i] != COLORS[j]
    ensures forall i :: 0 <= i < |COLORS| ==> COLORS[i] <= MAX_COLOR
  {
  }

  /** Stepping a field from 0 by its increment reaches its maximum exactly. */
  lemma IncrementsDivideMaxima()
    ensures MAX_BRIGHTNESS % BRIGHTNESS_INCREMENT == 0
    ensures MAX_DURATION % DURATION_INCREMENT == 0
  {
  }
}
