# TrimUI LED controller: the settings core, in Dafny

This project models the settings logic of the TrimUI handheld LED controller.
The controller keeps one `LedSettings` record (brightness, animation effect,
colour, effect duration) for each of the three LED clusters: front, top and
back. On the configuration page the d-pad and shoulder buttons choose an LED
and a setting and change its value. The settings are saved to and loaded from
an INI-like `settings.ini`. `update_leds` pushes them to the LED driver as a
sequence of small writes to files under `/sys/class/led_anim`. The model also
covers the helpers of `led_controller_common.c`:

- `next_color`, one step round the six edges of the RGB cube;
- `clamp`;
- the LED internal names and their inverse;
- the enum-to-string tables.

Modules:

- `LedTypes`: the data model and constants of `led_controller.h`. This includes
  the enums as datatypes with their C ordinals, `LedSettings`, and the
  17-colour palette.
- `CommonTypes`: what `led_controller_common.h`, the later generation of the
  header, changes. It adds `MATCH_SETTINGS` and two more menu options, its
  `AppState` has two more flags, `MAX_BRIGHTNESS` becomes 100, and it defines
  `COLOR_CYLCE_INCREMENT`.
- `Input`: the abstract `InputType` of `sdl_base.h`.
- `Common`: the functions of `led_controller_common.c`.
- `HueWheel`: lemmas about the orbit of `next_color`.
- `Mutator`: `handle_change_setting` as a function on one LED's settings, and
  the palette step.
- `TextFormat`: the parts of `printf`, `sscanf` and `fgets` that the settings
  file and the driver files use.
  - `%d`, `%0<w>X` and `%x` are modelled.
  - The lines `fgets` returns are modelled as the file split at `'\n'`.
- `SettingsStore`: the text `save_settings` writes and what `read_settings`
  makes of any text, as functions. It includes the save-then-load round trip.
- `HardwareSync`: the plan of driver writes `update_leds` issues, and the
  best-effort performance of a plan, given which files open.
- `Controller`: the class `AppState`, whose methods mirror
  `initialize_app_state`, `read_settings`, `save_settings`,
  `handle_user_input`, `handle_change_setting` and `update_leds`. They update
  the fields and the settings array in place.
  - Each method is proved against a function on an `AppModel` snapshot or on
    the settings sequence:
    - `HandleUserInput` against `Controller.UserInput`;
    - `HandleChangeSetting` against `Controller.ChangeSetting`;
    - `ReadSettings` and `Initialize` against `SettingsStore.ReadResult`;
    - `SaveSettings` against `SettingsStore.Serialize`;
    - `UpdateLeds` against `HardwareSync.Performed` of `HardwareSync.SyncPlan`.
  - The properties of the handler are lemmas on those functions.

Where the code and its documentation disagree, the model follows the code:

- The front LED's brightness file is `max_scale_f1f2`: `update_leds` passes the
  LED's name, `f1f2`, as the suffix. It is not a shared file without suffix.
- The test before the brightness write, `led != LED_FRONT || led != LED_BACK`,
  holds for every LED. So all three LEDs get a `max_scale_` write, the top LED
  (`max_scale_m`) included, although the comment says only the front and back
  LEDs have one (`HardwareSync.MaxScaleGuardHolds`).
- `DPAD_UP` computes `(selected_setting - 1) % LED_SETTINGS_COUNT` on an enum
  value. C lets the compiler choose the enum's type. The model assumes GCC's
  choice, `unsigned int`, since the enum has no negative constants. With a
  signed type the row would become -1 instead.
  - From row 0 the subtraction wraps to 2^32 - 1, which is a multiple of 5, so
    the selection stays on row 0. It does not move to the last row.
  - The model computes this wrap explicitly (`Controller.SettingUp`).
- `save_settings` names its sections with the `led_internal_name` of
  `led_controller.c` (`f`, `m`, `b`). `update_leds` uses its own table
  (`f1f2`, `m`, `lr`), which matches the `led_internal_name` of
  `led_controller_common.c`. Both tables are modelled, each where it is used
  (`SettingsStore.SectionName`, `HardwareSync.LED_NAMES`).

## Model

| member | source | states |
|---|---|---|
| LedTypes.LedOrdinal | workspace/include/led_controller.h:66-71 | FRONT, TOP, BACK are 0, 1, 2: each below LED_COUNT and mapping back to the same LED |
| LedTypes.LedFromOrdinal | workspace/include/led_controller.h:35 | exactly the values 0 .. LED_COUNT-1 name an LED |
| LedTypes.EffectOrdinal | workspace/include/led_controller.h:75-85 | DISABLE .. BLINK3 are 0 .. 7, below ANIMATION_EFFECT_COUNT, and map back |
| LedTypes.EffectFromOrdinal | workspace/include/led_controller.h:43 | exactly 0 .. ANIMATION_EFFECT_COUNT-1 name an effect |
| LedTypes.SettingFromOrdinal | workspace/include/led_controller.h:37-38 | exactly 0 .. LED_SETTINGS_COUNT-1 name a setting; 0 is SELECTED_LED and the last is COLOR |
| LedTypes.MenuOptionFromOrdinal | workspace/include/led_controller.h:40 | exactly 0 .. MENU_OPTION_COUNT-1 name a menu option; the last is QUIT |
| LedTypes.PaletteWellFormed | workspace/include/led_controller.h:155-189 | the palette has NUM_COLORS = 17 entries, pairwise distinct, each at most 0xFFFFFF |
| LedTypes.IncrementsDivideMaxima | workspace/include/led_controller.h:47-53 | MAX_BRIGHTNESS is a multiple of BRIGHTNESS_INCREMENT and MAX_DURATION of DURATION_INCREMENT |
| CommonTypes.SettingFromOrdinal | workspace/include/led_controller_common.h:84-92 | 0 .. 5 name a setting, MATCH_SETTINGS is 5, and every older ordinal still names one |
| CommonTypes.MenuOptionFromOrdinal | workspace/include/led_controller_common.h:95-103 | 0 .. 5 name a menu option, TOGGLE_LOW_BATTERY_INDICATION is 3 and QUIT is the last |
| CommonTypes.StepConstants | workspace/include/led_controller_common.h:47-59 | MAX_BRIGHTNESS 100 is a multiple of 10 and differs from the older 200; 255 is not a multiple of the colour step 16, and 15 steps fall short of 255 while 16 pass it |
| Common.Clamp | workspace/src/led_controller_common.c:239-253 | the result is min below the interval, max above it, the value inside it, and always within [min, max] when min <= max |
| Common.ClampIdempotent | workspace/src/led_controller_common.c:239-253 | clamping twice is clamping once |
| Common.ClampMonotone | workspace/src/led_controller_common.c:239-253 | clamping preserves order |
| Common.Pack | workspace/src/led_controller_common.c:136 | the shifted and or-ed channels form a 24-bit value |
| Common.UnpackPack | workspace/src/led_controller_common.c:75-77 | extracting the channels of a packed colour gives them back |
| Common.PackInjective | workspace/src/led_controller_common.c:136 | different channels pack to different colours |
| Common.NextChannels | workspace/src/led_controller_common.c:129-134 | a colour on none of the six edges becomes red, whatever the sign |
| Common.NextChannelsStaysOnWheel | workspace/src/led_controller_common.c:81-128 | the result lies on the wheel; on the wheel at most one channel moves, by at most 16 |
| Common.Toward | workspace/src/led_controller_common.c:82-85 | the moved channel is at most 16 from where it was, and 16 nearer its target, or on it when it was within 16 |
| Common.NextChannelsAlongEdges | workspace/src/led_controller_common.c:80-128 | on every colour of each of the six edges, only that edge's free channel moves: +1 takes it 16 toward the next vertex, -1 16 toward the previous one, stopping at the vertex; sign 0 changes nothing on the wheel |
| Common.TowardUndo | workspace/src/led_controller_common.c:82-85 | a move toward one end of [0, 255] that stops short of it is undone by a move toward the other end |
| Common.NextChannelsUndo | workspace/src/led_controller_common.c:80-128 | on the wheel, -1 undoes +1 and +1 undoes -1 whenever the intermediate colour is not a vertex |
| Common.NextColor | workspace/src/led_controller_common.c:73-137 | the result is at most 0xFFFFFF |
| Common.NextColorPacked | workspace/src/led_controller_common.c:73-137 | next_color of a packed colour is the channel step of its channels, packed |
| Common.ColorToStringForms | workspace/src/led_controller_common.c:28-71 | exactly the 17 palette colours get a name; any other 24-bit colour is "0x" and six hex digits that read back as the colour |
| Common.ColorToStringInjective | workspace/src/led_controller_common.c:28-71 | distinct 24-bit colours are shown differently |
| Common.AnimationEffectToString | workspace/src/led_controller_common.c:3-26 | "UNKNOWN" exactly for values outside the enum |
| Common.EffectNamesDistinct | workspace/src/led_controller_common.c:3-26 | distinct effects get distinct names |
| Common.LedSettingOptionToString | workspace/src/led_controller_common.c:139-157 | "UNKNOWN     " exactly outside SELECTED_LED .. COLOR, so also for MATCH_SETTINGS |
| Common.MenuOptionToString | workspace/src/led_controller_common.c:159-179 | "UNKNOWN" exactly outside the enum and for TOGGLE_LOW_BATTERY_INDICATION; the toggle reads "Disable Extended Colors" iff the extended colours are on |
| Common.InternalNameToLed | workspace/src/led_controller_common.c:211-229 | -1 exactly for names other than "f1f2", "m", "lr"; otherwise an LED whose internal name is the given one |
| Common.InternalNameRoundTrip | workspace/src/led_controller_common.c:196-229 | each LED's internal name maps back to it; "UNKNOWN" maps to -1 |
| HueWheel.StepAlongEdge | workspace/src/led_controller_common.c:81-128 | one forward step moves one place along an edge of the wheel |
| HueWheel.EdgesJoin | workspace/src/led_controller_common.c:81-128 | each edge ends where the next starts, and the last ends at red |
| HueWheel.StepBackAlongEdge | workspace/src/led_controller_common.c:81-128 | one backward step moves one place back along an edge, and stays put at its start |
| HueWheel.ForwardPacked | workspace/src/led_controller_common.c:73-137 | n presses of next_color on a packed colour follow the channel orbit |
| HueWheel.OrbitFromRed | workspace/src/led_controller_common.c:81-128 | 16e + k channel steps from red land k places along edge e |
| HueWheel.ForwardFromRed | workspace/src/led_controller_common.c:73-137 | 16e + k presses from 0xFF0000 give the packed colour k places along edge e |
| HueWheel.VertexColor | workspace/src/led_controller_common.c:80 | the starts of the six edges are red, yellow, green, cyan, blue, magenta |
| HueWheel.WheelVertices | workspace/src/led_controller_common.c:80-128 | 16e presses from red reach the e-th of 0xFF0000, 0xFFFF00, 0x00FF00, 0x00FFFF, 0x0000FF, 0xFF00FF |
| HueWheel.WheelCloses | workspace/src/led_controller_common.c:80-128 | 96 presses from red return to red |
| HueWheel.WheelPeriod | workspace/src/led_controller_common.c:80-128 | no number of presses from 1 to 95 returns to red |
| HueWheel.OrbitBack | workspace/src/led_controller_common.c:81-128 | on the channels, a backward step retraces the last forward step, or stays at a vertex |
| HueWheel.BackPacked | workspace/src/led_controller_common.c:73-137 | a channel relation between two orbit points carries over to next_color on the packed colours |
| HueWheel.BackwardStep | workspace/src/led_controller_common.c:81-128 | a backward press undoes the last forward press, except at a vertex, where it changes nothing |
| HueWheel.BackwardAtVertices | workspace/src/led_controller_common.c:81-96 | next_color(v, -1) == v for each of the six vertices, for example 0xFF0000 and 0xFFFF00 |
| HueWheel.OffLatticeStep | workspace/src/led_controller_common.c:121-128 | hot pink 0xFF0080 steps to 0xFF0070 forward and 0xFF0090 backward; 0xFF00F8 backward stops at magenta 0xFF00FF |
| HueWheel.OffWheelResets | workspace/src/led_controller_common.c:129-134 | 0x000000, 0xFFFFFF and 0xFF8080 go to red in either direction |
| Mutator.IndexIn | workspace/src/led_controller.c:214-221 | the search result is -1 iff the colour is absent, and otherwise a position holding it |
| Mutator.StepIn | workspace/src/led_controller.c:223-232 | the stepped colour is a palette entry |
| Mutator.StepInAt | workspace/src/led_controller.c:223-232 | from entry j a step of `change` lands on entry (j + change + N) mod N |
| Mutator.StepInBackAfterForward | workspace/src/led_controller.c:223-232 | -1 after +1 restores a palette colour |
| Mutator.StepInForwardAfterBack | workspace/src/led_controller.c:223-232 | +1 after -1 restores a palette colour |
| Mutator.StepInNIndex | workspace/src/led_controller.c:223-232 | k presses of +1 from entry j land on entry (j + k) mod N |
| Mutator.PaletteIndex | workspace/src/led_controller.c:214-221 | -1 iff the colour is not in the palette, otherwise its position |
| Mutator.PaletteIndexAt | workspace/src/led_controller.c:214-221 | the search finds entry j at position j, since the palette has no repeats |
| Mutator.StepColor | workspace/src/led_controller.c:212-233 | the new colour is always a palette entry |
| Mutator.StepColorOffPalette | workspace/src/led_controller.c:223-226 | off the palette, +1 gives entry 1 and -1 gives entry NUM_COLORS-1 |
| Mutator.StepColorInverse | workspace/src/led_controller.c:212-233 | on the palette, -1 undoes +1 and +1 undoes -1 |
| Mutator.StepInCycle | workspace/src/led_controller.c:212-233 | in a distinct palette, n presses of +1 return to the start iff n == NUM_COLORS |
| Mutator.StepColorCycle | workspace/src/led_controller.c:212-233 | NUM_COLORS presses of +1 return any palette colour to itself, and no fewer presses do |
| Mutator.ChangeLed | workspace/src/led_controller.c:193-240 | only the field the setting names changes; brightness, effect and duration land within their bounds and the colour in the palette; SELECTED_LED and other values change nothing |
| Mutator.ChangeLedKeepsBounds | workspace/src/led_controller.c:198-233 | settings within bounds stay within bounds under any change |
| Mutator.PressesFromZero | workspace/src/led_controller.c:198-209 | from 0, n presses of +1 give min(10n, 200) brightness and min(500n, 5000) duration, so each maximum is reached exactly |
| Mutator.ChangeLedDirection | workspace/src/led_controller.c:198-209 | a non-negative change never lowers a numeric field and a non-positive one never raises it |
| TextFormat.DigitValue | workspace/src/led_controller.c:433 | a digit's value is below 16 and the digit is a hex character |
| TextFormat.DigitChar | workspace/src/led_controller.c:471 | each upper-case digit printf writes reads back as its value |
| TextFormat.Numeral | workspace/src/led_controller.c:470-473 | a numeral is at least one and at least `width` characters long, all of them digits of its base |
| TextFormat.NumeralDigits | workspace/src/led_controller.c:470-473 | every character of a numeral is a digit of its base |
| TextFormat.NumeralRoundTrip | workspace/src/led_controller.c:470-473 | the value of the digits written for n is n |
| TextFormat.NumeralWidth | workspace/src/led_controller.c:471 | a value below base^width is written with exactly `width` digits |
| TextFormat.DigitRun | workspace/src/led_controller.c:432-435 | the conversion stops at the first non-digit, after digits only |
| TextFormat.DigitRunStops | workspace/src/led_controller.c:432-435 | after a run of digits followed by a non-digit, the conversion reads exactly that run |
| TextFormat.ScanUnsignedRoundTrip | workspace/src/led_controller.c:432-435 | an unsigned conversion reads back a written numeral, whatever non-digit follows |
| TextFormat.NumeralStartsWithDigit | workspace/src/led_controller.c:470 | a decimal numeral does not start with a sign |
| TextFormat.ScanDecimalNegative | workspace/src/led_controller.c:432 | %d reads a minus sign and digits as the negated value |
| TextFormat.ScanDecimalUnsigned | workspace/src/led_controller.c:432 | %d reads unsigned digits as their value |
| TextFormat.ScanDecimalRoundTrip | workspace/src/led_controller.c:432-435 | %d reads back what %d wrote, whatever non-digit follows |
| TextFormat.ScanHexRoundTrip | workspace/src/led_controller.c:433 | %x reads back what 0x%06X wrote |
| TextFormat.LineEnd | workspace/src/led_controller.c:424 | a line ends at its first '\n' or at the end of the text |
| TextFormat.JoinLinesAppend | workspace/src/led_controller.c:469-473 | writing two runs of lines is writing the first, then the second |
| TextFormat.JoinSnoc | workspace/src/led_controller.c:469-473 | one more line written is the text so far, the line, and its line break |
| TextFormat.LineEndOf | workspace/src/led_controller.c:424 | a line without line breaks ends at its own length |
| TextFormat.SplitJoin | workspace/src/led_controller.c:424 | the lines read back from written lines are those lines |
| SettingsStore.After | workspace/src/led_controller.c:426-435 | a literal prefix matches iff the line starts with it, and what follows is the rest of the line |
| SettingsStore.Clamped | workspace/src/led_controller.c:438-445 | the result is within bounds, and settings already within bounds are unchanged |
| SettingsStore.ApplyDataLine | workspace/src/led_controller.c:432-445 | each field is the clamped parsed value when the line carries its key and the value parses, and otherwise the clamped old value |
| SettingsStore.ApplyLine | workspace/src/led_controller.c:426-446 | a header sets the index only; a data line outside an LED's section changes nothing; inside one it applies the data line to that LED alone |
| SettingsStore.Load | workspace/src/led_controller.c:424-447 | loading keeps three LEDs |
| SettingsStore.ReadResult | workspace/src/led_controller.c:410-418 | a file that does not open leaves the settings as they were |
| SettingsStore.LoadAppend | workspace/src/led_controller.c:424-447 | loading two runs of lines is loading the first, then the second |
| SettingsStore.LoadOutsideSections | workspace/src/led_controller.c:430 | lines before any header, or under an index that names no LED, change nothing |
| SettingsStore.LoadTouchedInBounds | workspace/src/led_controller.c:437-445 | an LED that a data line reached ends within bounds, whatever the text |
| SettingsStore.LoadIndexStays | workspace/src/led_controller.c:426-429 | without further headers the current index does not change |
| SettingsStore.NumbersHaveNoNewline | workspace/src/led_controller.c:469-473 | %d and %06X never produce a line break |
| SettingsStore.ConcatNoNewline | workspace/src/led_controller.c:469-473 | pieces without line breaks join to one without |
| SettingsStore.SectionLinesNoNewline | workspace/src/led_controller.c:469-473 | no line of a saved section holds a line break |
| SettingsStore.SettingsLinesNoNewline | workspace/src/led_controller.c:467-474 | no saved line holds a line break |
| SettingsStore.HeaderLineIndex | workspace/src/led_controller.c:426-469 | a written `[LED_i_<name>]` header reads back as index i |
| SettingsStore.DecimalLine | workspace/src/led_controller.c:432-473 | a written `key=%d` line is not a header and reads back as its value |
| SettingsStore.OtherKey | workspace/src/led_controller.c:432-435 | a line that starts with another letter does not carry the key |
| SettingsStore.ColorLineValue | workspace/src/led_controller.c:433-471 | the written colour line is not a header and reads back as the colour |
| SettingsStore.LoadSnoc | workspace/src/led_controller.c:424-447 | loading one more line is applying it to the result so far |
| SettingsStore.BlankLine | workspace/src/led_controller.c:473 | the blank line that ends a section leaves settings within bounds unchanged |
| SettingsStore.DataLineEffect | workspace/src/led_controller.c:430-446 | a data line inside a section replaces that LED's settings by the data-line result |
| SettingsStore.BrightnessLineData | workspace/src/led_controller.c:432-470 | the brightness line sets the brightness and clamps the rest |
| SettingsStore.ColorLineData | workspace/src/led_controller.c:433-471 | the colour line sets the colour and clamps the rest |
| SettingsStore.DurationLineData | workspace/src/led_controller.c:434-472 | the duration line sets the duration and clamps the rest |
| SettingsStore.EffectLineData | workspace/src/led_controller.c:435-473 | the effect line sets the effect and clamps the rest |
| SettingsStore.BrightnessLineEffect | workspace/src/led_controller.c:430-446 | inside a section the brightness line changes only that LED's settings |
| SettingsStore.ColorLineEffect | workspace/src/led_controller.c:430-446 | inside a section the colour line changes only that LED's settings |
| SettingsStore.DurationLineEffect | workspace/src/led_controller.c:430-446 | inside a section the duration line changes only that LED's settings |
| SettingsStore.EffectLineEffect | workspace/src/led_controller.c:430-446 | inside a section the effect line changes only that LED's settings |
| SettingsStore.LoadSix | workspace/src/led_controller.c:424-447 | loading six lines is applying them in turn |
| SettingsStore.HeaderLineEffect | workspace/src/led_controller.c:426-469 | a written header selects its LED and changes no setting |
| SettingsStore.SectionFirstFields | workspace/src/led_controller.c:432-471 | a section's brightness and colour lines, read back, set those two fields |
| SettingsStore.SectionLastFields | workspace/src/led_controller.c:434-473 | a section's duration, effect and blank lines, read back, complete the clamped settings |
| SettingsStore.SectionLoad | workspace/src/led_controller.c:424-473 | reading one saved section selects its LED and restores its settings, clamped, leaving the other LEDs alone |
| SettingsStore.ClampedAll | workspace/src/led_controller.c:438-445 | each LED's settings clamped into bounds |
| SettingsStore.SettingsLinesSnoc | workspace/src/led_controller.c:467-474 | the saved lines of n LEDs are those of n - 1 LEDs, then LED n - 1's section |
| SettingsStore.RestoreNext | workspace/src/led_controller.c:467-474 | restoring LED n - 1 extends the restored prefix by one |
| SettingsStore.LoadSavedPrefix | workspace/src/led_controller.c:424-474 | reading the first n saved sections restores those LEDs, clamped, and leaves the rest |
| SettingsStore.SaveLoadRoundTrip | workspace/src/led_controller.c:410-479 | reading back what save_settings wrote restores every LED's settings, clamped, whatever was held before |
| SettingsStore.SaveLoadInBounds | workspace/src/led_controller.c:410-479 | settings within bounds are restored exactly |
| HardwareSync.Attempt | workspace/src/led_controller.c:682-691 | a write happens exactly when its file opens; otherwise nothing is written |
| HardwareSync.PerformedAppend | workspace/src/led_controller.c:752-786 | performing two runs of writes is performing the first, then the second |
| HardwareSync.PerformedMembership | workspace/src/led_controller.c:679-742 | a write happens iff it is planned and its file opens |
| HardwareSync.PerformedAllOpen | workspace/src/led_controller.c:752-786 | when every file opens, every planned write happens, in order |
| HardwareSync.PerformedSkip | workspace/src/led_controller.c:688-691 | a write whose file does not open leaves no trace |
| HardwareSync.BestEffort | workspace/src/led_controller.c:679-786 | a failed open costs only its own write; the writes before and after still happen |
| HardwareSync.MaxScaleGuardHolds | workspace/src/led_controller.c:780-784 | the test before the brightness write holds for every LED |
| HardwareSync.SyncPlanSnoc | workspace/src/led_controller.c:753-786 | the plan for n + 1 LEDs is the plan for n LEDs, then LED n's plan |
| HardwareSync.PerformedSyncStep | workspace/src/led_controller.c:753-786 | performing one more LED adds its concern writes, then its brightness write |
| HardwareSync.SyncPlanOne | workspace/src/led_controller.c:753-786 | the plan for the front LED alone |
| HardwareSync.SyncPlanTwo | workspace/src/led_controller.c:753-786 | the plan for the front and top LEDs |
| HardwareSync.SyncPlanThree | workspace/src/led_controller.c:753-786 | the plan is the front plan, then the top plan, then the back plan |
| HardwareSync.LedNamesAgree | workspace/src/led_controller.c:749 | update_leds's suffix table is the common module's led_internal_name |
| HardwareSync.FrontPlan | workspace/src/led_controller.c:760-784 | front: colour, duration, effect for f1, then for f2, then max_scale_f1f2 |
| HardwareSync.OtherPlan | workspace/src/led_controller.c:773-784 | top and back: colour, duration, effect, then max_scale, under "m" and "lr" |
| HardwareSync.PerformedOne | workspace/src/led_controller.c:679-742 | performing a single write is attempting it |
| HardwareSync.PerformedConcern | workspace/src/led_controller.c:769-777 | the colour, duration and effect writes each happen exactly when their file opens |
| HardwareSync.SyncPlanOrder | workspace/src/led_controller.c:744-787 | the plan is the 15 writes in order: f1 and f2 concerns, max_scale_f1f2, then m and lr with their max_scale |
| HardwareSync.FrontColorPath | workspace/src/led_controller.c:728 | the f1 colour file is /sys/class/led_anim/effect_rgb_hex_f1 |
| HardwareSync.FrontHalvesAgree | workspace/src/led_controller.c:763-771 | the two front halves receive the same three contents |
| HardwareSync.HexSixWide | workspace/src/led_controller.c:734 | a 24-bit colour is six hex digits |
| HardwareSync.ScanHexUnprefixed | workspace/src/led_controller.c:734 | text whose second character is a hex digit has no 0x prefix to skip |
| HardwareSync.HexLineReadsBack | workspace/src/led_controller.c:734 | six hex digits and a newline read back as the colour |
| HardwareSync.ColorContent | workspace/src/led_controller.c:726-742 | the colour is written as exactly six upper-case hex digits and a newline, which read back as the colour |
| HardwareSync.DecimalContents | workspace/src/led_controller.c:685-717 | duration, effect and brightness are written in decimal and read back as the values |
| Controller.SettingUp | workspace/src/led_controller.c:164-166 | DPAD_UP moves up one row from rows 1 .. 5 and stays on row 0, always giving a row below 5 |
| Controller.SettingDown | workspace/src/led_controller.c:167-169 | DPAD_DOWN moves to the next row, wrapping from the last to the first |
| Controller.PreviousLed | workspace/src/led_controller.c:178-182 | the previous LED, from the front round to the back |
| Controller.NextLed | workspace/src/led_controller.c:183-187 | the next LED, from the back round to the front |
| Controller.ChangeSetting | workspace/src/led_controller.c:193-240 | the state stays well formed |
| Controller.UserInput | workspace/src/led_controller.c:153-191 | the state stays well formed |
| Controller.Repeat | workspace/src/led_controller.c:153-191 | the state stays well formed after any number of inputs |
| Controller.ChangeSettingTouchesOneField | workspace/src/led_controller.c:195-239 | only the selected LED's settings change, and only the field the selected setting names |
| Controller.SaveRequests | workspace/src/led_controller.c:157-160 | a save is requested iff it already was or the input is POWER or START |
| Controller.QuitRequests | workspace/src/led_controller.c:161-163 | quitting is requested iff it already was or the input is B |
| Controller.UpdateRequests | workspace/src/led_controller.c:170-177 | an update is requested iff it already was or the input is DPAD_LEFT or DPAD_RIGHT |
| Controller.FlagInputsChangeOnlyTheirFlag | workspace/src/led_controller.c:157-163 | POWER and START set only the save flag; B sets only the quit flag |
| Controller.UnhandledInputs | workspace/src/led_controller.c:188-189 | UNKNOWN, SELECT, MENU, A, X and Y change nothing |
| Controller.OnlySidewaysChangesSettings | workspace/src/led_controller.c:155-190 | only DPAD_LEFT and DPAD_RIGHT change settings, and only the selected LED's |
| Controller.InputKeepsBounds | workspace/src/led_controller.c:153-240 | any input keeps settings within bounds and the selected setting a menu row |
| Controller.ChangeSettingKeepsBounds | workspace/src/led_controller.c:193-240 | the mutator keeps every LED's settings within bounds |
| Controller.ShoulderButtonsInverse | workspace/src/led_controller.c:178-187 | R then L, and L then R, restore the state |
| Controller.RepeatNextLed | workspace/src/led_controller.c:183-187 | n presses of R1 select the LED n places on, mod 3 |
| Controller.ShoulderCycle | workspace/src/led_controller.c:183-187 | three presses of R1 return to the start LED, and one or two presses do not |
| Controller.RepeatDown | workspace/src/led_controller.c:167-169 | n presses of DPAD_DOWN select the row n places down, mod 5 |
| Controller.DownCycle | workspace/src/led_controller.c:167-169 | five presses of DPAD_DOWN return to the start row, and fewer do not |
| Controller.UpAfterDown | workspace/src/led_controller.c:164-169 | UP undoes DOWN except from the last row, which ends on row 0; UP on row 0 changes nothing |
| Controller.RightLeftRestoresColor | workspace/src/led_controller.c:170-233 | on the colour row, RIGHT then LEFT restores a palette colour, leaving only the update request |
| Controller.AppState.constructor | workspace/src/led_controller.c:22 | the state declared in main holds whatever memory held |
| Controller.AppState.Initialize | workspace/src/led_controller.c:299-314 | selects the front LED and the brightness row, clears the save and quit requests, then reads the settings; returns 1 iff the file does not open |
| Controller.AppState.ReadSettings | workspace/src/led_controller.c:410-452 | the settings become what the loader makes of the file; a file that does not open returns 1 and changes nothing |
| Controller.AppState.SaveSettings | workspace/src/led_controller.c:454-479 | the save request is cleared even when the open fails; otherwise the text written is every LED's section in index order |
| Controller.AppState.HandleChangeSetting | workspace/src/led_controller.c:193-240 | the settings array changes as the mutator on the state says |
| Controller.AppState.HandleUserInput | workspace/src/led_controller.c:153-191 | the state changes as the handler on the state says |
| Controller.AppState.UpdateLeds | workspace/src/led_controller.c:744-787 | clears the update request, changes no setting, and returns the planned writes whose files open, in plan order |
| Controller.FindColorIndex | workspace/src/led_controller.c:214-221 | the search returns the palette position of the colour, or -1 when it is absent |
| Controller.ChangeLedSettings | workspace/src/led_controller.c:195-239 | the switch on one LED's settings computes the mutator's result |
| Controller.NextPaletteColor | workspace/src/led_controller.c:212-233 | the colour branch computes the palette step, counting a colour not found as position 0 |
| Controller.WriteAll | workspace/src/led_controller.c:753-786 | the loop over the LEDs performs the sync plan |
| Controller.ApplyData | workspace/src/led_controller.c:432-445 | the four conversions and four clamps compute the data-line result |
| Controller.WriteSection | workspace/src/led_controller.c:469-473 | one LED's five fprintf calls append its section lines to the text |
| Controller.WriteLed | workspace/src/led_controller.c:755-785 | one iteration of the loop appends that LED's concern writes and brightness write |
| Controller.WriteFrontHalves | workspace/src/led_controller.c:763-771 | the inner loop writes the f1 and then the f2 concerns |
| Controller.WriteConcerns | workspace/src/led_controller.c:775-777 | the colour, duration and effect writes, in that order |
| Controller.WriteLine | workspace/src/led_controller.c:469-473 | one fprintf appends a line and its line break |

## Left out

- SDL rendering, fonts, sprites, animation timing (`update_animation_frame_index`), the main event loop and `teardown`. These are presentation and platform code.
- The mapping from SDL events to `InputType`. Input is the abstract `InputType` of `sdl_base.h`.
- Logging: `SDL_Log`, `perror`, `debug_log`, and the `printf` calls in `next_color`. They have no effect on the state.
- Real file I/O.
  - The settings file's text is a parameter: `None` when `fopen` fails.
  - `save_settings` returns the text it writes.
  - `update_leds` takes a predicate saying which paths open, and returns the writes that happen.
  - Whether `fclose` succeeds is not modelled.
- `fgets`'s 255-character line limit. A line is the text up to the next `'\n'`.
- `sscanf` corner cases are not modelled:
  - leading white space;
  - overflow of `%d` and `%x`;
  - a sign before `%x`. `%d` takes a `+` or a `-`, but `%x` takes no sign in
    the model. In C, `color=-1` stores 0xFFFFFFFF, which `read_settings`
    clamps to 0. In the model the old colour stays. `save_settings` never
    writes a sign.
- The width of the colour: `LedSettings.color` is an unbounded `nat`, not `uint32_t`.
  - The conversion of a colour above `INT_MAX` to `int` when `read_settings` clamps it is not modelled.
  - `%06X` of a value above 0xFFFFFF is not modelled, beyond writing its digits.
- Common.NextColor: requires the sign in {-1, 0, 1}. In C a larger sign steps the free channel by sign * 16 and then clamps it. The model excludes those steps. No caller passes such a sign.
- Mutator.ChangeLed: requires a colour change of at least -NUM_COLORS. Below that the C remainder of a negative operand would be negative and index outside the palette. The callers pass only +1 and -1.
- HueWheel.WheelCloses: stated for the pinned count n == 96 rather than for a literal argument.
- `led_to_string` is not modelled: it is only used for log messages and labels.
- The extended-colour branch of the mutator, MATCH_SETTINGS, the menu page, `handle_menu_select`, and the daemon install and uninstall are not modelled. They are declared, but the code shown does not implement them.
- `next_color` has no caller here. It is modelled and its orbit is proved, but no input reaches it.
- Controller.AppState.constructor: `main` declares the state without initialising it. The constructor takes that memory as a parameter.
