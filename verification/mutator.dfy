/**
 * What handle_change_setting does to one LED's settings, as functions of
 * the old settings: the numeric fields move by their increment and are
 * clamped, and the colour steps cyclically through the palette.
 */
module Mutator {
  import opened Wrappers
  import opened LedTypes
  import Common

  /** No two entries of the palette are equal. */
  ghost predicate Distinct(palette: seq<nat>) {
    forall i, j :: 0 <= i < j < |palette| ==> palette[i] != palette[j]
  }

  /** The position of `color` in `palette`, or -1 when it is absent. */
  ghost function IndexIn(palette: seq<nat>, color: nat): (r: int)
    ensures -1 <= r < |palette|
    ensures r == -1 <==> color !in palette
    ensures r >= 0 ==> palette[r] == color
  {
    if color in palette then var i :| 0 <= i < |palette| && palette[i] == color; i else -1
  }

  /** The colour `change` places on from `color` in `palette`, counting an absent colour as position 0. */
  ghost function StepIn(palette: seq<nat>, color: nat, change: int): (r: nat)
    requires |palette| == NUM_COLORS && change >= -NUM_COLORS
    ensures r in palette
  {
    var found := IndexIn(palette, color);
    var start := if found == -1 then 0 else found;
    palette[(start + change + NUM_COLORS) % NUM_COLORS]
  }

  /** From entry j of a distinct palette, a step of `change` lands on entry (j + change + N) mod N. */
  lemma StepInAt(palette: seq<nat>, j: nat, change: int)
    requires |palette| == NUM_COLORS && Distinct(palette) && j < NUM_COLORS && change >= -NUM_COLORS
    ensures StepIn(palette, palette[j], change) == palette[(j + change + NUM_COLORS) % NUM_COLORS]
  {
    assert IndexIn(palette, palette[j]) == j;
  }

  /** Position arithmetic: the successor of the predecessor, and the other way round. */
  lemma WrapInverse(j: nat)
    requires j < NUM_COLORS
    ensures ((j + 1 + NUM_COLORS) % NUM_COLORS - 1 + NUM_COLORS) % NUM_COLORS == j
    ensures ((j - 1 + NUM_COLORS) % NUM_COLORS + 1 + NUM_COLORS) % NUM_COLORS == j
  {
  }

  /** Position arithmetic: the position after k steps from j is one step on from the position after k - 1 steps. */
  lemma WrapSucc(j: nat, k: nat, before: nat, after: nat)
    requires k > 0 && before == (j + (k - 1)) % NUM_COLORS && after == (j + k) % NUM_COLORS
    ensures (before + 1 + NUM_COLORS) % NUM_COLORS == after
  {
  }

  /** In a distinct palette a step back undoes a step forward. */
  lemma StepInBackAfterForward(palette: seq<nat>, j: nat)
    requires |palette| == NUM_COLORS && Distinct(palette) && j < NUM_COLORS
    ensures StepIn(palette, StepIn(palette, palette[j], 1), -1) == palette[j]
  {
    var up := (j + 1 + NUM_COLORS) % NUM_COLORS;
    StepInAt(palette, j, 1);
    StepInAt(palette, up, -1);
    WrapInverse(j);
  }

  /** In a distinct palette a step forward undoes a step back. */
  lemma StepInForwardAfterBack(palette: seq<nat>, j: nat)
    requires |palette| == NUM_COLORS && Distinct(palette) && j < NUM_COLORS
    ensures StepIn(palette, StepIn(palette, palette[j], -1), 1) == palette[j]
  {
    var down := (j - 1 + NUM_COLORS) % NUM_COLORS;
    StepInAt(palette, j, -1);
    StepInAt(palette, down, 1);
    WrapInverse(j);
  }

  /** The colour after n presses of +1 in `palette`. */
  ghost function StepInN(palette: seq<nat>, color: nat, k: nat): nat
    requires |palette| == NUM_COLORS
  {
    if k == 0 then color else StepIn(palette, StepInN(palette, color, k - 1), 1)
  }

  /** k presses of +1 from entry j of a distinct palette land on entry i = (j + k) mod NUM_COLORS. */
  lemma {:induction false} StepInNIndex(palette: seq<nat>, j: nat, k: nat, i: nat)
    requires |palette| == NUM_COLORS && Distinct(palette) && j < NUM_COLORS && i == (j + k) % NUM_COLORS
    ensures StepInN(palette, palette[j], k) == palette[i]
  {
    if k > 0 {
      var before := (j + (k - 1)) % NUM_COLORS;
      StepInNIndex(palette, j, k - 1, before);
      StepInAt(palette, before, 1);
      WrapSucc(j, k, before, i);
    }
  }

  /** The palette position of `color`, or -1 when it is not in the palette. */
  ghost function PaletteIndex(color: nat): (r: int)
    ensures -1 <= r < NUM_COLORS
    ensures r == -1 <==> color !in COLORS
    ensures r >= 0 ==> COLORS[r] == color
  {
    IndexIn(COLORS, color)
  }

  /** Entry j of the palette is found at position j: the palette has no repeats. */
  lemma PaletteIndexAt(j: nat)
    requires j < NUM_COLORS
    ensures PaletteIndex(COLORS[j]) == j
  {
    PaletteWellFormed();
  }

  /**
   * The colour `change` palette places on from `color`; a colour outside
   * the palette counts as position 0. The callers pass +1 or -1; any change
   * down to -NUM_COLORS keeps the C remainder's operand non-negative.
   */
  ghost function StepColor(color: nat, change: int): (r: nat)
    requires change >= -NUM_COLORS
    ensures r in COLORS
  {
    StepIn(COLORS, color, change)
  }

  /** Off the palette, +1 gives the second entry and -1 the last. */
  lemma StepColorOffPalette(color: nat)
    requires color !in COLORS
    ensures StepColor(color, 1) == COLORS[1]
    ensures StepColor(color, -1) == COLORS[NUM_COLORS - 1]
  {
    assert IndexIn(COLORS, color) == -1;
    assert (0 + 1 + NUM_COLORS) % NUM_COLORS == 1;
    assert (0 - 1 + NUM_COLORS) % NUM_COLORS == NUM_COLORS - 1;
  }

  /** On the palette, a step back undoes a step forward, and the other way round. */
  lemma StepColorInverse(j: nat)
    requires j < NUM_COLORS
    ensures StepColor(StepColor(COLORS[j], 1), -1) == COLORS[j]
    ensures StepColor(StepColor(COLORS[j], -1), 1) == COLORS[j]
  {
    PaletteWellFormed();
    StepInBackAfterForward(COLORS, j);
    StepInForwardAfterBack(COLORS, j);
  }

  /** In a distinct palette, NUM_COLORS presses of +1 return an entry to itself, and no fewer do. */
  lemma StepInCycle(palette: seq<nat>, j: nat, n: nat)
    requires |palette| == NUM_COLORS && Distinct(palette) && j < NUM_COLORS && 0 < n <= NUM_COLORS
    ensures StepInN(palette, palette[j], n) == palette[j] <==> n == NUM_COLORS
  {
    var i := (j + n) % NUM_COLORS;
    StepInNIndex(palette, j, n, i);
    if n < NUM_COLORS {
      assert i != j;
      assert i < j || j < i;
    } else {
      assert i == j;
    }
  }

  /** NUM_COLORS presses of +1 return any palette colour to itself, and no fewer do. */
  lemma StepColorCycle(j: nat, n: nat)
    requires j < NUM_COLORS && 0 < n <= NUM_COLORS
    ensures StepInN(COLORS, COLORS[j], n) == COLORS[j] <==> n == NUM_COLORS
  {
    PaletteWellFormed();
    StepInCycle(COLORS, j, n);
  }

  /**
   * handle_change_setting on the selected LED's settings: the field named by
   * `setting` moves by `change` steps; SELECTED_LED and values outside the
   * enum fall to the default case and change nothing.
   */
  ghost function ChangeLed(s: LedSettings, setting: int, change: int): (r: LedSettings)
    requires SettingFromOrdinal(setting) == Some(Color) ==> change >= -NUM_COLORS
    ensures SettingFromOrdinal(setting) == Some(Brightness) ==>
              r == s.(brightness := r.brightness) && 0 <= r.brightness <= MAX_BRIGHTNESS
    ensures SettingFromOrdinal(setting) == Some(Effect) ==>
              r == s.(effect := r.effect) && 0 <= r.effect < ANIMATION_EFFECT_COUNT
    ensures SettingFromOrdinal(setting) == Some(Duration) ==>
              r == s.(duration := r.duration) && 0 <= r.duration <= MAX_DURATION
    ensures SettingFromOrdinal(setting) == Some(Color) ==>
              r == s.(color := r.color) && r.color in COLORS
    ensures SettingFromOrdinal(setting) !in {Some(Brightness), Some(Effect), Some(Duration), Some(Color)} ==> r == s
  {
    match SettingFromOrdinal(setting)
    case Some(Brightness) =>
      s.(brightness := Common.Clamp(s.brightness + change * BRIGHTNESS_INCREMENT, 0, MAX_BRIGHTNESS))
    case Some(Effect) =>
      s.(effect := Common.Clamp(s.effect + change, 0, ANIMATION_EFFECT_COUNT - 1))
    case Some(Duration) =>
      s.(duration := Common.Clamp(s.duration + DURATION_INCREMENT * change, 0, MAX_DURATION))
    case Some(Color) =>
      s.(color := StepColor(s.color, change))
    case _ => s
  }

  /** Settings in bounds stay in bounds under any change. */
  lemma ChangeLedKeepsBounds(s: LedSettings, setting: int, change: int)
    requires InBounds(s)
    requires SettingFromOrdinal(setting) == Some(Color) ==> change >= -NUM_COLORS
    ensures InBounds(ChangeLed(s, setting, change))
  {
    PaletteWellFormed();
  }

  /** The settings after n presses of the same change. */
  ghost function Presses(s: LedSettings, setting: int, change: int, n: nat): LedSettings
    requires SettingFromOrdinal(setting) == Some(Color) ==> change >= -NUM_COLORS
  {
    if n == 0 then s else ChangeLed(Presses(s, setting, change, n - 1), setting, change)
  }

  function Min(a: int, b: int): int { if a <= b then a else b }

  /**
   * From 0, n presses of +1 on brightness give min(10n, MAX_BRIGHTNESS), and
   * on duration min(500n, MAX_DURATION): each maximum is reached exactly and
   * then held.
   */
  lemma {:induction false} PressesFromZero(s: LedSettings, n: nat)
    ensures s.brightness == 0 ==>
              Presses(s, 1, 1, n).brightness == Min(BRIGHTNESS_INCREMENT * n, MAX_BRIGHTNESS)
    ensures s.duration == 0 ==>
              Presses(s, 3, 1, n).duration == Min(DURATION_INCREMENT * n, MAX_DURATION)
  {
    if n > 0 {
      PressesFromZero(s, n - 1);
    }
  }

  /** Increasing presses never lower a numeric field and decreasing presses never raise it, within bounds. */
  lemma ChangeLedDirection(s: LedSettings, setting: int, change: int)
    requires InBounds(s) && setting != 4
    ensures var r := ChangeLed(s, setting, change);
            && (change >= 0 ==> r.brightness >= s.brightness && r.effect >= s.effect && r.duration >= s.duration)
            && (change <= 0 ==> r.brightness <= s.brightness && r.effect <= s.effect && r.duration <= s.duration)
  {
  }
}
