/**
  The conversions between the configuration record stored on disk (`GameConfig`) and the
  live `Settings` resource: `From<GameConfig> for Settings` and `From<&Settings> for GameConfig`.
*/
module Config {
  import opened Wrappers
  import opened Types
  import opened CfgSettings
  import opened Resources

  // ---------------------------------------------------------------- configuration to settings

  /** `Settings::default()` with the scalar, file and key fields copied from the configuration. */
  function Copied(c: GameConfig): SettingsState {
    DefaultSettings.(
      dpi := c.dpi, cm360 := c.cm360, fov := c.fov,
      directionalLightIlluminance := c.directionalLightIlluminance,
      ambientLightBrightness := c.ambientLightBrightness,
      crosshairSize := c.crosshairSize, crosshairThickness := c.crosshairThickness,
      fresnelEnabled := c.fresnelEnabled, fresnelIntensity := c.fresnelIntensity,
      fresnelPower := c.fresnelPower,
      textureFile := c.textureFile, fontFile := c.fontFile, hitSoundFile := c.hitSoundFile,
      keyRestart := c.keyRestart, keyStart := c.keyStart, keySettings := c.keySettings,
      keyFullscreen := c.keyFullscreen)
  }

  /** A colour string's conditional write: one that parsed is set, one that did not is skipped. */
  function CrosshairFrom(cs: ColorSpace, st: SettingsState, r: Result<Color, string>): SettingsState {
    if r.Ok? then WithCrosshairColor(cs, st, r.value) else st
  }

  function ArenaFrom(cs: ColorSpace, st: SettingsState, r: Result<Color, string>): SettingsState {
    if r.Ok? then WithArenaColor(cs, st, r.value) else st
  }

  function TargetFrom(cs: ColorSpace, st: SettingsState, r: Result<Color, string>): SettingsState {
    if r.Ok? then WithTargetColor(cs, st, r.value) else st
  }

  function FresnelFrom(cs: ColorSpace, st: SettingsState, r: Result<Color, string>): SettingsState {
    if r.Ok? then WithFresnelColor(cs, st, r.value) else st
  }

  /** The settings built from the configuration's copied fields and its four parsed colour strings. */
  function Built(cs: ColorSpace, c: GameConfig, crosshair: Result<Color, string>, arena: Result<Color, string>,
                 target: Result<Color, string>, fresnel: Result<Color, string>): SettingsState
  {
    FresnelFrom(cs, TargetFrom(cs, ArenaFrom(cs, CrosshairFrom(cs, Copied(c), crosshair), arena), target), fresnel)
  }

  /** The settings `Settings::from(config)` builds. */
  function SettingsOf(cs: ColorSpace, c: GameConfig): SettingsState {
    Built(cs, c, HexToColor(c.crosshairColor), HexToColor(c.arenaColor), HexToColor(c.targetColor), HexToColor(c.fresnelColor))
  }

  /**
    `Settings::from(config)`: a default resource, the copied fields, then each colour whose
    string parses set through its setter.
  */
  method FromConfig(cs: ColorSpace, config: GameConfig) returns (settings: Settings)
    ensures fresh(settings)
    ensures settings.State() == SettingsOf(cs, config)
  {
    settings := new Settings.Holding(Copied(config));
    var crosshair := HexToColor(config.crosshairColor);
    if crosshair.Ok? {
      settings.SetCrosshairColor(cs, crosshair.value);
    }
    var arena := HexToColor(config.arenaColor);
    if arena.Ok? {
      settings.SetArenaColor(cs, arena.value);
    }
    var target := HexToColor(config.targetColor);
    if target.Ok? {
      settings.SetTargetColor(cs, target.value);
    }
    var fresnel := HexToColor(config.fresnelColor);
    if fresnel.Ok? {
      settings.SetFresnelColor(cs, fresnel.value);
    }
  }

  /** Whatever the colour strings parse to, the scalar, file and key fields arrive unchanged and the picker stays default. */
  lemma BuiltCopies(cs: ColorSpace, c: GameConfig, crosshair: Result<Color, string>, arena: Result<Color, string>,
                    target: Result<Color, string>, fresnel: Result<Color, string>)
    ensures var st := Built(cs, c, crosshair, arena, target, fresnel);
      && st.dpi == c.dpi && st.cm360 == c.cm360 && st.fov == c.fov
      && st.directionalLightIlluminance == c.directionalLightIlluminance
      && st.ambientLightBrightness == c.ambientLightBrightness
      && st.crosshairSize == c.crosshairSize && st.crosshairThickness == c.crosshairThickness
      && st.fresnelEnabled == c.fresnelEnabled && st.fresnelIntensity == c.fresnelIntensity
      && st.fresnelPower == c.fresnelPower
      && st.textureFile == c.textureFile && st.fontFile == c.fontFile && st.hitSoundFile == c.hitSoundFile
      && st.keyRestart == c.keyRestart && st.keyStart == c.keyStart
      && st.keySettings == c.keySettings && st.keyFullscreen == c.keyFullscreen
    ensures var st := Built(cs, c, crosshair, arena, target, fresnel);
      && !st.colorPickerOpen && st.pickerTarget == None
      && st.pickerHue == DefaultSettings.pickerHue
      && st.pickerSaturation == DefaultSettings.pickerSaturation
      && st.pickerBrightness == DefaultSettings.pickerBrightness
  {
  }

  /** Each colour is the HSL form of its parsed string when that parsed, and the default colour otherwise. */
  lemma BuiltColors(cs: ColorSpace, c: GameConfig, crosshair: Result<Color, string>, arena: Result<Color, string>,
                    target: Result<Color, string>, fresnel: Result<Color, string>)
    ensures var st := Built(cs, c, crosshair, arena, target, fresnel); var d := DefaultSettings;
      (st.crosshairH, st.crosshairS, st.crosshairL) ==
        if crosshair.Ok? then HslOf(cs, crosshair.value) else (d.crosshairH, d.crosshairS, d.crosshairL)
    ensures var st := Built(cs, c, crosshair, arena, target, fresnel); var d := DefaultSettings;
      (st.arenaH, st.arenaS, st.arenaL) ==
        if arena.Ok? then HslOf(cs, arena.value) else (d.arenaH, d.arenaS, d.arenaL)
    ensures var st := Built(cs, c, crosshair, arena, target, fresnel); var d := DefaultSettings;
      (st.targetH, st.targetS, st.targetL) ==
        if target.Ok? then HslOf(cs, target.value) else (d.targetH, d.targetS, d.targetL)
    ensures var st := Built(cs, c, crosshair, arena, target, fresnel); var d := DefaultSettings;
      (st.fresnelH, st.fresnelS, st.fresnelL) ==
        if fresnel.Ok? then HslOf(cs, fresnel.value) else (d.fresnelH, d.fresnelS, d.fresnelL)
  {
  }

  /** The hue, saturation and lightness a setter writes for a colour. */
  function HslOf(cs: ColorSpace, color: Color): (real, real, real) {
    var h := ToHsla(cs, color);
    (h.hue, h.saturation, h.lightness)
  }

  /** `Settings::from` copies the scalar, file and key fields unchanged and leaves the picker at its default. */
  lemma SettingsOfCopies(cs: ColorSpace, c: GameConfig)
    ensures var st := SettingsOf(cs, c);
      && st.dpi == c.dpi && st.cm360 == c.cm360 && st.fov == c.fov
      && st.directionalLightIlluminance == c.directionalLightIlluminance
      && st.ambientLightBrightness == c.ambientLightBrightness
      && st.crosshairSize == c.crosshairSize && st.crosshairThickness == c.crosshairThickness
      && st.fresnelEnabled == c.fresnelEnabled && st.fresnelIntensity == c.fresnelIntensity
      && st.fresnelPower == c.fresnelPower
      && st.textureFile == c.textureFile && st.fontFile == c.fontFile && st.hitSoundFile == c.hitSoundFile
      && st.keyRestart == c.keyRestart && st.keyStart == c.keyStart
      && st.keySettings == c.keySettings && st.keyFullscreen == c.keyFullscreen
    ensures var st := SettingsOf(cs, c);
      && !st.colorPickerOpen && st.pickerTarget == None
      && st.pickerHue == DefaultSettings.pickerHue
      && st.pickerSaturation == DefaultSettings.pickerSaturation
      && st.pickerBrightness == DefaultSettings.pickerBrightness
  {
    BuiltCopies(cs, c, HexToColor(c.crosshairColor), HexToColor(c.arenaColor), HexToColor(c.targetColor), HexToColor(c.fresnelColor));
  }

  /** A colour string that parses is set through its setter; one `hex_to_color` refuses leaves the default colour. */
  lemma SettingsOfColors(cs: ColorSpace, c: GameConfig)
    ensures var st := SettingsOf(cs, c); var r := HexToColor(c.crosshairColor);
      (st.crosshairH, st.crosshairS, st.crosshairL) == if r.Ok? then HslOf(cs, r.value) else (0.0, 1.0, 0.5)
    ensures var st := SettingsOf(cs, c); var r := HexToColor(c.arenaColor);
      (st.arenaH, st.arenaS, st.arenaL) == if r.Ok? then HslOf(cs, r.value) else (180.0, 1.0, 0.5)
    ensures var st := SettingsOf(cs, c); var r := HexToColor(c.targetColor);
      (st.targetH, st.targetS, st.targetL) == if r.Ok? then HslOf(cs, r.value) else (0.0, 1.0, 0.5)
    ensures var st := SettingsOf(cs, c); var r := HexToColor(c.fresnelColor);
      (st.fresnelH, st.fresnelS, st.fresnelL) == if r.Ok? then HslOf(cs, r.value) else (60.0, 1.0, 0.5)
  {
    BuiltColors(cs, c, HexToColor(c.crosshairColor), HexToColor(c.arenaColor), HexToColor(c.targetColor), HexToColor(c.fresnelColor));
  }

  /** A colour string refused for its length or its digits leaves that colour at its default. */
  lemma BadHexKeepsDefault(cs: ColorSpace, c: GameConfig)
    requires !AcceptedHex(c.arenaColor)
    ensures var st := SettingsOf(cs, c); (st.arenaH, st.arenaS, st.arenaL) == (180.0, 1.0, 0.5)
  {
    HexToColorAcceptsExactly(c.arenaColor);
    SettingsOfColors(cs, c);
  }

  /** The default configuration gives the default settings, except for the colours, which it spells in sRGB. */
  lemma DefaultConfigSettings(cs: ColorSpace)
    ensures SettingsOf(cs, DefaultConfig) ==
      WithFresnelColor(cs, WithTargetColor(cs, WithArenaColor(cs, WithCrosshairColor(cs,
        DefaultSettings, Srgb(1.0, 0.0, 0.0)), Srgb(0.0, 1.0, 1.0)), Srgb(1.0, 0.0, 0.0)), Srgb(1.0, 1.0, 0.0))
  {
    DefaultColorsParsed();
    assert Copied(DefaultConfig) == DefaultSettings;
  }

  // ---------------------------------------------------------------- settings to configuration

  /** `GameConfig::from(&settings)`: every colour written by `color_to_hex` of its getter. */
  function ConfigOf(cs: ColorSpace, st: SettingsState): GameConfig {
    GameConfig(
      st.dpi, st.cm360, st.fov, st.directionalLightIlluminance, st.ambientLightBrightness,
      ColorToHex(cs, Hsl(st.crosshairH, st.crosshairS, st.crosshairL)),
      st.crosshairSize, st.crosshairThickness,
      ColorToHex(cs, Hsl(st.arenaH, st.arenaS, st.arenaL)),
      ColorToHex(cs, Hsl(st.targetH, st.targetS, st.targetL)),
      st.fresnelEnabled,
      ColorToHex(cs, Hsl(st.fresnelH, st.fresnelS, st.fresnelL)),
      st.fresnelIntensity, st.fresnelPower,
      st.textureFile, st.fontFile, st.hitSoundFile,
      st.keyRestart, st.keyStart, st.keySettings, st.keyFullscreen)
  }

  /**
    The configuration saved for a `Settings` resource: every colour string reads back as the
    sRGB-quantised colour of its getter, and the scalar, file and key fields are the resource's own.
  */
  function ConfigOfSettings(cs: ColorSpace, settings: Settings): (c: GameConfig)
    reads settings
    ensures HexToColor(c.crosshairColor) == Ok(Requantized(cs, settings.GetCrosshairColor()))
    ensures HexToColor(c.arenaColor) == Ok(Requantized(cs, settings.GetArenaColor()))
    ensures HexToColor(c.targetColor) == Ok(Requantized(cs, settings.GetTargetColor()))
    ensures HexToColor(c.fresnelColor) == Ok(Requantized(cs, settings.GetFresnelColor()))
    ensures c.dpi == settings.dpi && c.cm360 == settings.cm360 && c.fov == settings.fov
    ensures c.directionalLightIlluminance == settings.directionalLightIlluminance
    ensures c.ambientLightBrightness == settings.ambientLightBrightness
    ensures c.crosshairSize == settings.crosshairSize && c.crosshairThickness == settings.crosshairThickness
    ensures c.fresnelEnabled == settings.fresnelEnabled
    ensures c.fresnelIntensity == settings.fresnelIntensity && c.fresnelPower == settings.fresnelPower
    ensures c.textureFile == settings.textureFile && c.fontFile == settings.fontFile && c.hitSoundFile == settings.hitSoundFile
    ensures c.keyRestart == settings.keyRestart && c.keyStart == settings.keyStart
    ensures c.keySettings == settings.keySettings && c.keyFullscreen == settings.keyFullscreen
  {
    ColorToHexRoundTrip(cs, settings.GetCrosshairColor());
    ColorToHexRoundTrip(cs, settings.GetArenaColor());
    ColorToHexRoundTrip(cs, settings.GetTargetColor());
    ColorToHexRoundTrip(cs, settings.GetFresnelColor());
    ConfigOf(cs, settings.State())
  }

  /** Every colour the configuration is saved with parses back. */
  lemma ConfigColorsParse(cs: ColorSpace, st: SettingsState)
    ensures var c := ConfigOf(cs, st);
      && HexToColor(c.crosshairColor).Ok? && HexToColor(c.arenaColor).Ok?
      && HexToColor(c.targetColor).Ok? && HexToColor(c.fresnelColor).Ok?
  {
    ColorToHexParses(cs, Hsl(st.crosshairH, st.crosshairS, st.crosshairL));
    ColorToHexParses(cs, Hsl(st.arenaH, st.arenaS, st.arenaL));
    ColorToHexParses(cs, Hsl(st.targetH, st.targetS, st.targetL));
    ColorToHexParses(cs, Hsl(st.fresnelH, st.fresnelS, st.fresnelL));
  }

  /** Configuration to settings to configuration: every field but the four colour strings comes back unchanged. */
  lemma ConfigRoundTrip(cs: ColorSpace, c: GameConfig)
    ensures var back := ConfigOf(cs, SettingsOf(cs, c));
      back == c.(crosshairColor := back.crosshairColor, arenaColor := back.arenaColor,
                 targetColor := back.targetColor, fresnelColor := back.fresnelColor)
  {
    SettingsOfCopies(cs, c);
  }

  /**
    Settings to configuration to settings: the scalar, file and key fields survive, the picker
    returns to its default, and every colour becomes the HSL form of its sRGB bytes.
  */
  lemma SettingsRoundTrip(cs: ColorSpace, st: SettingsState)
    ensures var back := SettingsOf(cs, ConfigOf(cs, st));
      back == Copied(ConfigOf(cs, st)).(
        crosshairH := back.crosshairH, crosshairS := back.crosshairS, crosshairL := back.crosshairL,
        arenaH := back.arenaH, arenaS := back.arenaS, arenaL := back.arenaL,
        targetH := back.targetH, targetS := back.targetS, targetL := back.targetL,
        fresnelH := back.fresnelH, fresnelS := back.fresnelS, fresnelL := back.fresnelL)
    ensures var back := SettingsOf(cs, ConfigOf(cs, st));
      && (back.crosshairH, back.crosshairS, back.crosshairL) == HslOf(cs, Requantized(cs, Hsl(st.crosshairH, st.crosshairS, st.crosshairL)))
      && (back.arenaH, back.arenaS, back.arenaL) == HslOf(cs, Requantized(cs, Hsl(st.arenaH, st.arenaS, st.arenaL)))
      && (back.targetH, back.targetS, back.targetL) == HslOf(cs, Requantized(cs, Hsl(st.targetH, st.targetS, st.targetL)))
      && (back.fresnelH, back.fresnelS, back.fresnelL) == HslOf(cs, Requantized(cs, Hsl(st.fresnelH, st.fresnelS, st.fresnelL)))
  {
    ColorToHexRoundTrip(cs, Hsl(st.crosshairH, st.crosshairS, st.crosshairL));
    ColorToHexRoundTrip(cs, Hsl(st.arenaH, st.arenaS, st.arenaL));
    ColorToHexRoundTrip(cs, Hsl(st.targetH, st.targetS, st.targetL));
    ColorToHexRoundTrip(cs, Hsl(st.fresnelH, st.fresnelS, st.fresnelL));
  }
}
