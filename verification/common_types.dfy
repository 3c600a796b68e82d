/**
 * The data model of led_controller_common.h, the later generation of the
 * header. Led, AnimationEffect, ApplicationPage and LedSettings are
 * declared there exactly as in led_controller.h and are reused from
 * LedTypes; what differs is declared here.
 */
module CommonTypes {
  import opened Wrappers
  import LedTypes

  const LED_COUNT := 3
  /** SELECTED_LED, BRIGHTNESS, EFFECT, DURATION, COLOR, MATCH_SETTINGS. */
  const LED_SETTINGS_COUNT := 6
  /** ENABLE_ALL ... QUIT. */
  const MENU_OPTION_COUNT := 6
  /** This generation halves the brightness ceiling. */
  const MAX_BRIGHTNESS := 100
  const BRIGHTNESS_INCREMENT := 10
  /** Step of one channel when the extended colours cycle round the hue wheel. */
  const COLOR_CYCLE_INCREMENT := 16

  datatype LedSettingOption = SelectedLed | Brightness | Effect | Duration | Color | MatchSettings

  function SettingFromOrdinal(i: int): (r: Option<LedSettingOption>)
    ensures r.Some? <==> 0 <= i < LED_SETTINGS_COUNT
    ensures r == Some(MatchSettings) <==> i == 5
    ensures 0 <= i < LedTypes.LED_SETTINGS_COUNT ==> r.Some? && LedTypes.SettingFromOrdinal(i).Some?
  {
    if i == 0 then Some(SelectedLed)
    else if i == 1 then Some(Brightness)
    else if i == 2 then Some(Effect)
    else if i == 3 then Some(Duration)
    else if i == 4 then Some(Color)
    else if i == 5 then Some(MatchSettings)
    else None
  }

  datatype MenuOption =
    EnableAll | DisableAll | ToggleExtendedColors | ToggleLowBatteryIndication | Uninstall | Quit

  function MenuOptionFromOrdinal(i: int): (r: Option<MenuOption>)
    ensures r.Some? <==> 0 <= i < MENU_OPTION_COUNT
    ensures r == Some(ToggleLowBatteryIndication) <==> i == 3
    ensures r == Some(Quit) <==> i == MENU_OPTION_COUNT - 1
  {
    if i == 0 then Some(EnableAll)
    else if i == 1 then Some(DisableAll)
    else if i == 2 then Some(ToggleExtendedColors)
    else if i == 3 then Some(ToggleLowBatteryIndication)
    else if i == 4 then Some(Uninstall)
    else if i == 5 then Some(Quit)
    else None
  }

  /** The application state of this generation: two more flags than in led_controller.h. */
  datatype AppState = AppState(
    shouldSaveSettings: bool,
    shouldUpdateLeds: bool,
    shouldQuit: bool,
    shouldInstallDaemon: bool,
    areExtendedColorsEnabled: bool,
    shouldEnableLowBatteryIndication: bool,
    currentPage: LedTypes.ApplicationPage,
    selectedLed: int,
    selectedSetting: int,
    selectedMenuOption: int,
    ledSettings: seq<LedTypes.LedSettings>)

  /** One settings record per LED, as the fixed-size array in the C struct holds. */
  predicate WellFormed(a: AppState) {
    |a.ledSettings| == LED_COUNT
  }

  /** The brightness ceiling is still a whole number of steps, and 255 is not a whole number of colour steps. */
  lemma StepConstants()
    ensures MAX_BRIGHTNESS % BRIGHTNESS_INCREMENT == 0
    ensures MAX_BRIGHTNESS != LedTypes.MAX_BRIGHTNESS
    ensures 255 % COLOR_CYCLE_INCREMENT != 0
    ensures 15 * COLOR_CYCLE_INCREMENT < 255 < 16 * COLOR_CYCLE_INCREMENT
  {
  }
}
