/**
  The two mutable resources of the game: the user's `Settings` and the state of the
  reaction trial, `ReactionTest`.

  Each class keeps the fields of its resource and offers a snapshot of all of them as a
  value (`State()` and `Snapshot()`), so that the operations on the resources can be
  specified, and reasoned about, as functions on values.
*/
module Resources {
  import opened Wrappers
  import opened Numerics
  import opened Types
  import opened Constants

  // ---------------------------------------------------------------- settings

  /** Every field of `Settings`, as a value. */
  datatype SettingsState = SettingsState(
    dpi: real,
    cm360: real,
    fov: real,
    directionalLightIlluminance: real,
    ambientLightBrightness: real,
    crosshairH: real,
    crosshairS: real,
    crosshairL: real,
    crosshairSize: real,
    crosshairThickness: real,
    arenaH: real,
    arenaS: real,
    arenaL: real,
    targetH: real,
    targetS: real,
    targetL: real,
    fresnelEnabled: bool,
    fresnelH: real,
    fresnelS: real,
    fresnelL: real,
    fresnelIntensity: real,
    fresnelPower: real,
    textureFile: string,
    fontFile: string,
    hitSoundFile: string,
    keyRestart: KeyCode,
    keyStart: KeyCode,
    keySettings: KeyCode,
    keyFullscreen: KeyCode,
    colorPickerOpen: bool,
    pickerHue: real,
    pickerSaturation: real,
    pickerBrightness: real,
    pickerTarget: Option<ColorTarget>)

  /** `Settings::default`. */
  const DefaultSettings: SettingsState := SettingsState(
    DefaultDpi, DefaultCm360, DefaultFov, 4000.0, 250.0,
    0.0, 1.0, 0.5, 10.0, 2.0,
    180.0, 1.0, 0.5,
    0.0, 1.0, 0.5,
    false, 60.0, 1.0, 0.5, 1.0, 3.0,
    "texture.png", "font.ttf", "hit.ogg",
    KeyR, Space, Escape, F12,
    false, 0.0, 1.0, 1.0, None)

  /** The mouse sensitivity in radians per count: `None` stands for the non-finite quotient of a zero divisor. */
  function Sensitivity(cm360: real, dpi: real): (r: Option<real>)
    ensures r.Some? <==> cm360 * dpi != 0.0
    ensures r.Some? ==> r.value * ((cm360 / 2.54) * dpi) == 2.0 * Pi
    ensures cm360 > 0.0 && dpi > 0.0 ==> r.Some? && r.value > 0.0
  {
    var inches := cm360 / 2.54;
    var dots := inches * dpi;
    assert dots * 2.54 == cm360 * dpi;
    if dots == 0.0 then None else Some((2.0 * Pi) / dots)
  }

  class Settings {
    var dpi: real
    var cm360: real
    var fov: real
    var directionalLightIlluminance: real
    var ambientLightBrightness: real
    var crosshairH: real
    var crosshairS: real
    var crosshairL: real
    var crosshairSize: real
    var crosshairThickness: real
    var arenaH: real
    var arenaS: real
    var arenaL: real
    var targetH: real
    var targetS: real
    var targetL: real
    var fresnelEnabled: bool
    var fresnelH: real
    var fresnelS: real
    var fresnelL: real
    var fresnelIntensity: real
    var fresnelPower: real
    var textureFile: string
    var fontFile: string
    var hitSoundFile: string
    var keyRestart: KeyCode
    var keyStart: KeyCode
    var keySettings: KeyCode
    var keyFullscreen: KeyCode
    var colorPickerOpen: bool
    var pickerHue: real
    var pickerSaturation: real
    var pickerBrightness: real
    var pickerTarget: Option<ColorTarget>

    function State(): SettingsState
      reads this
    {
      SettingsState(
        dpi, cm360, fov, directionalLightIlluminance, ambientLightBrightness,
        crosshairH, crosshairS, crosshairL, crosshairSize, crosshairThickness,
        arenaH, arenaS, arenaL,
        targetH, targetS, targetL,
        fresnelEnabled, fresnelH, fresnelS, fresnelL, fresnelIntensity, fresnelPower,
        textureFile, fontFile, hitSoundFile,
        keyRestart, keyStart, keySettings, keyFullscreen,
        colorPickerOpen, pickerHue, pickerSaturation, pickerBrightness, pickerTarget)
    }

    /** `Settings::default`: the default sensitivity set and field of view, the picker closed. */
    constructor Default()
      ensures State() == DefaultSettings
      ensures dpi == DefaultDpi && cm360 == DefaultCm360 && fov == DefaultFov
      ensures !colorPickerOpen && pickerTarget == None
    {
      dpi, cm360, fov := DefaultDpi, DefaultCm360, DefaultFov;
      directionalLightIlluminance, ambientLightBrightness := 4000.0, 250.0;
      crosshairH, crosshairS, crosshairL := 0.0, 1.0, 0.5;
      crosshairSize, crosshairThickness := 10.0, 2.0;
      arenaH, arenaS, arenaL := 180.0, 1.0, 0.5;
      targetH, targetS, targetL := 0.0, 1.0, 0.5;
      fresnelEnabled, fresnelH, fresnelS, fresnelL := false, 60.0, 1.0, 0.5;
      fresnelIntensity, fresnelPower := 1.0, 3.0;
      textureFile, fontFile, hitSoundFile := "texture.png", "font.ttf", "hit.ogg";
      keyRestart, keyStart, keySettings, keyFullscreen := KeyR, Space, Escape, F12;
      colorPickerOpen, pickerTarget := false, None;
      pickerHue, pickerSaturation, pickerBrightness := 0.0, 1.0, 1.0;
    }

    /** A settings resource holding exactly the given values. */
    constructor Holding(st: SettingsState)
      ensures State() == st
    {
      dpi, cm360, fov := st.dpi, st.cm360, st.fov;
      directionalLightIlluminance, ambientLightBrightness := st.directionalLightIlluminance, st.ambientLightBrightness;
      crosshairH, crosshairS, crosshairL := st.crosshairH, st.crosshairS, st.crosshairL;
      crosshairSize, crosshairThickness := st.crosshairSize, st.crosshairThickness;
      arenaH, arenaS, arenaL := st.arenaH, st.arenaS, st.arenaL;
      targetH, targetS, targetL := st.targetH, st.targetS, st.targetL;
      fresnelEnabled, fresnelH, fresnelS, fresnelL := st.fresnelEnabled, st.fresnelH, st.fresnelS, st.fresnelL;
      fresnelIntensity, fresnelPower := st.fresnelIntensity, st.fresnelPower;
      textureFile, fontFile, hitSoundFile := st.textureFile, st.fontFile, st.hitSoundFile;
      keyRestart, keyStart, keySettings, keyFullscreen := st.keyRestart, st.keyStart, st.keySettings, st.keyFullscreen;
      colorPickerOpen, pickerTarget := st.colorPickerOpen, st.pickerTarget;
      pickerHue, pickerSaturation, pickerBrightness := st.pickerHue, st.pickerSaturation, st.pickerBrightness;
    }

    /**
      `mouse_sensitivity`: radians of turn per mouse count, finite exactly for a non-zero
      divisor; the counts of one `cm_360` sweep turn the camera by a full circle.
    */
    function MouseSensitivity(): (r: Option<real>)
      reads this
      ensures r.Some? <==> cm360 * dpi != 0.0
      ensures r.Some? ==> r.value * ((cm360 / 2.54) * dpi) == 2.0 * Pi
      ensures cm360 > 0.0 && dpi > 0.0 ==> r.Some? && r.value > 0.0
    {
      Sensitivity(cm360, dpi)
    }

    /** `get_crosshair_color`: an opaque colour whose HSL form is the stored crosshair fields, so that setting it back changes nothing. */
    function GetCrosshairColor(): (c: Color)
      reads this
      ensures forall cs :: ToHsla(cs, c) == Hsla(crosshairH, crosshairS, crosshairL, 1.0)
      ensures forall cs :: WithCrosshairColor(cs, State(), c) == State()
    {
      Hsl(crosshairH, crosshairS, crosshairL)
    }

    /** `get_arena_color`: an opaque colour whose HSL form is the stored arena fields, so that setting it back changes nothing. */
    function GetArenaColor(): (c: Color)
      reads this
      ensures forall cs :: ToHsla(cs, c) == Hsla(arenaH, arenaS, arenaL, 1.0)
      ensures forall cs :: WithArenaColor(cs, State(), c) == State()
    {
      Hsl(arenaH, arenaS, arenaL)
    }

    /** `get_target_color`: an opaque colour whose HSL form is the stored target fields, so that setting it back changes nothing. */
    function GetTargetColor(): (c: Color)
      reads this
      ensures forall cs :: ToHsla(cs, c) == Hsla(targetH, targetS, targetL, 1.0)
      ensures forall cs :: WithTargetColor(cs, State(), c) == State()
    {
      Hsl(targetH, targetS, targetL)
    }

    /** `get_fresnel_color`: an opaque colour whose HSL form is the stored Fresnel fields, so that setting it back changes nothing. */
    function GetFresnelColor(): (c: Color)
      reads this
      ensures forall cs :: ToHsla(cs, c) == Hsla(fresnelH, fresnelS, fresnelL, 1.0)
      ensures forall cs :: WithFresnelColor(cs, State(), c) == State()
    {
      Hsl(fresnelH, fresnelS, fresnelL)
    }

    /** `set_crosshair_color`: the colour's hue, saturation and lightness go into the crosshair fields, and nothing else changes. */
    method SetCrosshairColor(cs: ColorSpace, color: Color)
      modifies this`crosshairH, this`crosshairS, this`crosshairL
      ensures State() == WithCrosshairColor(cs, old(State()), color)
    {
      var hsla := ToHsla(cs, color);
      StoreCrosshairH(hsla.hue);
      StoreCrosshairS(hsla.saturation);
      StoreCrosshairL(hsla.lightness);
    }

    /** `set_arena_color`: the colour's hue, saturation and lightness go into the arena fields, and nothing else changes. */
    method SetArenaColor(cs: ColorSpace, color: Color)
      modifies this`arenaH, this`arenaS, this`arenaL
      ensures State() == WithArenaColor(cs, old(State()), color)
    {
      var hsla := ToHsla(cs, color);
      StoreArenaH(hsla.hue);
      StoreArenaS(hsla.saturation);
      StoreArenaL(hsla.lightness);
    }

    /** `set_target_color`: the colour's hue, saturation and lightness go into the target fields, and nothing else changes. */
    method SetTargetColor(cs: ColorSpace, color: Color)
      modifies this`targetH, this`targetS, this`targetL
      ensures State() == WithTargetColor(cs, old(State()), color)
    {
      var hsla := ToHsla(cs, color);
      StoreTargetH(hsla.hue);
      StoreTargetS(hsla.saturation);
      StoreTargetL(hsla.lightness);
    }

    /** `set_fresnel_color`: the colour's hue, saturation and lightness go into the Fresnel fields, and nothing else changes. */
    method SetFresnelColor(cs: ColorSpace, color: Color)
      modifies this`fresnelH, this`fresnelS, this`fresnelL
      ensures State() == WithFresnelColor(cs, old(State()), color)
    {
      var hsla := ToHsla(cs, color);
      StoreFresnelH(hsla.hue);
      StoreFresnelS(hsla.saturation);
      StoreFresnelL(hsla.lightness);
    }

    // One writer per field, each stating the whole new state; the operations on the
    // resource are sequences of these.

    method StoreDpi(v: real)
      modifies this`dpi
      ensures State() == old(State()).(dpi := v)
    {
      dpi := v;
    }

    method StoreCm360(v: real)
      modifies this`cm360
      ensures State() == old(State()).(cm360 := v)
    {
      cm360 := v;
    }

    method StoreFov(v: real)
      modifies this`fov
      ensures State() == old(State()).(fov := v)
    {
      fov := v;
    }

    method StoreDirectionalLightIlluminance(v: real)
      modifies this`directionalLightIlluminance
      ensures State() == old(State()).(directionalLightIlluminance := v)
    {
      directionalLightIlluminance := v;
    }

    method StoreAmbientLightBrightness(v: real)
      modifies this`ambientLightBrightness
      ensures State() == old(State()).(ambientLightBrightness := v)
    {
      ambientLightBrightness := v;
    }

    method StoreCrosshairH(v: real)
      modifies this`crosshairH
      ensures State() == old(State()).(crosshairH := v)
    {
      crosshairH := v;
    }

    method StoreCrosshairS(v: real)
      modifies this`crosshairS
      ensures State() == old(State()).(crosshairS := v)
    {
      crosshairS := v;
    }

    method StoreCrosshairL(v: real)
      modifies this`crosshairL
      ensures State() == old(State()).(crosshairL := v)
    {
      crosshairL := v;
    }

    method StoreArenaH(v: real)
      modifies this`arenaH
      ensures State() == old(State()).(arenaH := v)
    {
      arenaH := v;
    }

    method StoreArenaS(v: real)
      modifies this`arenaS
      ensures State() == old(State()).(arenaS := v)
    {
      arenaS := v;
    }

    method StoreArenaL(v: real)
      modifies this`arenaL
      ensures State() == old(State()).(arenaL := v)
    {
      arenaL := v;
    }

    method StoreTargetH(v: real)
      modifies this`targetH
      ensures State() == old(State()).(targetH := v)
    {
      targetH := v;
    }

    method StoreTargetS(v: real)
      modifies this`targetS
      ensures State() == old(State()).(targetS := v)
    {
      targetS := v;
    }

    method StoreTargetL(v: real)
      modifies this`targetL
      ensures State() == old(State()).(targetL := v)
    {
      targetL := v;
    }

    method StoreFresnelEnabled(v: bool)
      modifies this`fresnelEnabled
      ensures State() == old(State()).(fresnelEnabled := v)
    {
      fresnelEnabled := v;
    }

    method StoreFresnelH(v: real)
      modifies this`fresnelH
      ensures State() == old(State()).(fresnelH := v)
    {
      fresnelH := v;
    }

    method StoreFresnelS(v: real)
      modifies this`fresnelS
      ensures State() == old(State()).(fresnelS := v)
    {
      fresnelS := v;
    }

    method StoreFresnelL(v: real)
      modifies this`fresnelL
      ensures State() == old(State()).(fresnelL := v)
    {
      fresnelL := v;
    }

    method StoreFresnelIntensity(v: real)
      modifies this`fresnelIntensity
      ensures State() == old(State()).(fresnelIntensity := v)
    {
      fresnelIntensity := v;
    }

    method StoreFresnelPower(v: real)
      modifies this`fresnelPower
      ensures State() == old(State()).(fresnelPower := v)
    {
      fresnelPower := v;
    }

    method StoreColorPickerOpen(v: bool)
      modifies this`colorPickerOpen
      ensures State() == old(State()).(colorPickerOpen := v)
    {
      colorPickerOpen := v;
    }

    method StorePickerHue(v: real)
      modifies this`pickerHue
      ensures State() == old(State()).(pickerHue := v)
    {
      pickerHue := v;
    }

    method StorePickerSaturation(v: real)
      modifies this`pickerSaturation
      ensures State() == old(State()).(pickerSaturation := v)
    {
      pickerSaturation := v;
    }

    method StorePickerBrightness(v: real)
      modifies this`pickerBrightness
      ensures State() == old(State()).(pickerBrightness := v)
    {
      pickerBrightness := v;
    }

    method StorePickerTarget(v: Option<ColorTarget>)
      modifies this`pickerTarget
      ensures State() == old(State()).(pickerTarget := v)
    {
      pickerTarget := v;
    }
  }

  /** The state after `set_crosshair_color(color)`. */
  function WithCrosshairColor(cs: ColorSpace, st: SettingsState, color: Color): SettingsState {
    var h := ToHsla(cs, color);
    st.(crosshairH := h.hue, crosshairS := h.saturation, crosshairL := h.lightness)
  }

  /** The state after `set_arena_color(color)`. */
  function WithArenaColor(cs: ColorSpace, st: SettingsState, color: Color): SettingsState {
    var h := ToHsla(cs, color);
    st.(arenaH := h.hue, arenaS := h.saturation, arenaL := h.lightness)
  }

  /** The state after `set_target_color(color)`. */
  function WithTargetColor(cs: ColorSpace, st: SettingsState, color: Color): SettingsState {
    var h := ToHsla(cs, color);
    st.(targetH := h.hue, targetS := h.saturation, targetL := h.lightness)
  }

  /** The state after `set_fresnel_color(color)`. */
  function WithFresnelColor(cs: ColorSpace, st: SettingsState, color: Color): SettingsState {
    var h := ToHsla(cs, color);
    st.(fresnelH := h.hue, fresnelS := h.saturation, fresnelL := h.lightness)
  }

  /** Setting a colour to what its getter returns changes nothing, whatever the colour space. */
  lemma ColorGetSetIdentity(cs: ColorSpace, st: SettingsState)
    ensures WithCrosshairColor(cs, st, Hsl(st.crosshairH, st.crosshairS, st.crosshairL)) == st
    ensures WithArenaColor(cs, st, Hsl(st.arenaH, st.arenaS, st.arenaL)) == st
    ensures WithTargetColor(cs, st, Hsl(st.targetH, st.targetS, st.targetL)) == st
    ensures WithFresnelColor(cs, st, Hsl(st.fresnelH, st.fresnelS, st.fresnelL)) == st
  {
  }

  // ---------------------------------------------------------------- reaction test

  /** Every field of `ReactionTest`, as a value. `rmsDistance` is `None` when the f32 field would hold NaN. */
  datatype TestState = TestState(
    data: seq<DataPoint>,
    isRunning: bool,
    startTime: real,
    targetPosition: Vec3,
    crosshairDirection: Vec3,
    targetVelocity: Vec3,
    targetDistance: real,
    startCamPos: Vec3,
    startCamForward: Vec3,
    nextDirectionChange: real,
    changeInterval: real,
    rmsDistance: Option<real>,
    peakAngularError: real,
    testCompleted: bool,
    cameraYaw: real,
    cameraPitch: real,
    lastDirectionChangeTime: real,
    hits: nat,
    misses: nat,
    lastShotTime: real,
    shotInterval: real,
    countDirections: nat,
    reactDirections: nat,
    medianDelay: real,
    averageDelay: real)

  /** No trial is running or finished, and nothing has been recorded or scored. */
  predicate Idle(s: TestState) {
    !s.isRunning && !s.testCompleted && s.data == [] && s.hits == 0 && s.misses == 0
  }

  /**
    The camera basis is always built from the identity camera's forward vector: every path
    that writes `start_cam_forward` writes `-Z`.
  */
  predicate ForwardIsNegZ(s: TestState) {
    s.startCamForward == NegZ
  }

  /** `Vec3::new(1.0, 1.0, 1.0).normalize() * TARGET_SPEED`. */
  function DefaultVelocity(fl: Float): (v: Vec3)
    requires Lawful(fl)
    ensures Dot3(v, v) == TargetSpeed * TargetSpeed
  {
    var d := Vec3(1.0, 1.0, 1.0);
    LengthPositive(fl, d);
    NormalizeIsUnit(fl, d);
    DotScaleScale(Normalize3(fl, d), TargetSpeed);
    Scale3(Normalize3(fl, d), TargetSpeed)
  }

  /** `ReactionTest::default`. */
  function DefaultTest(fl: Float): TestState
    requires Lawful(fl)
  {
    TestState(
      [], false, 0.0, Zero3, NegZ, DefaultVelocity(fl), 15.0, Zero3, NegZ,
      0.1, 0.1, Some(0.0), 0.0, false, 0.0, 0.0, 0.0,
      0, 0, 0.0, 1.0 / 30.0, 0, 0, 0.0, 0.0)
  }

  class ReactionTest {
    var data: seq<DataPoint>
    var isRunning: bool
    var startTime: real
    var targetPosition: Vec3
    var crosshairDirection: Vec3
    var targetVelocity: Vec3
    var targetDistance: real
    var startCamPos: Vec3
    var startCamForward: Vec3
    var nextDirectionChange: real
    var changeInterval: real
    var rmsDistance: Option<real>
    var peakAngularError: real
    var testCompleted: bool
    var cameraYaw: real
    var cameraPitch: real
    var lastDirectionChangeTime: real
    var hits: nat
    var misses: nat
    var lastShotTime: real
    var shotInterval: real
    var countDirections: nat
    var reactDirections: nat
    var medianDelay: real
    var averageDelay: real

    function Snapshot(): TestState
      reads this
    {
      TestState(
        data, isRunning, startTime, targetPosition, crosshairDirection, targetVelocity,
        targetDistance, startCamPos, startCamForward, nextDirectionChange, changeInterval,
        rmsDistance, peakAngularError, testCompleted, cameraYaw, cameraPitch,
        lastDirectionChangeTime, hits, misses, lastShotTime, shotInterval,
        countDirections, reactDirections, medianDelay, averageDelay)
    }

    /** `ReactionTest::default`: an idle trial with the default parameters. */
    constructor Default(fl: Float)
      requires Lawful(fl)
      ensures Snapshot() == DefaultTest(fl)
      ensures Idle(Snapshot()) && ForwardIsNegZ(Snapshot())
      ensures shotInterval == 1.0 / 30.0 && targetDistance == 15.0 && nextDirectionChange == 0.1
    {
      data, isRunning, startTime := [], false, 0.0;
      targetPosition, crosshairDirection := Zero3, NegZ;
      targetVelocity := DefaultVelocity(fl);
      targetDistance, startCamPos, startCamForward := 15.0, Zero3, NegZ;
      nextDirectionChange, changeInterval := 0.1, 0.1;
      averageDelay, rmsDistance, peakAngularError := 0.0, Some(0.0), 0.0;
      testCompleted, cameraYaw, cameraPitch, lastDirectionChangeTime := false, 0.0, 0.0, 0.0;
      hits, misses, lastShotTime, shotInterval := 0, 0, 0.0, 1.0 / 30.0;
      medianDelay, countDirections, reactDirections := 0.0, 0, 0;
    }
  }
}
