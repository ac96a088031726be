/** The value types shared by the game: keys, application states, samples and colours. */
module Types {
  import opened Numerics

  /**
    The keyboard keys the program names. Every other key of the engine's key set is
    `Other(code)`, distinguished only by an opaque code.
  */
  datatype KeyCode =
    | Digit0 | Digit1 | Digit2 | Digit3 | Digit4 | Digit5 | Digit6 | Digit7 | Digit8 | Digit9
    | KeyA | KeyB | KeyC | KeyD | KeyE | KeyF | KeyG | KeyH | KeyI | KeyJ | KeyK | KeyL | KeyM
    | KeyN | KeyO | KeyP | KeyQ | KeyR | KeyS | KeyT | KeyU | KeyV | KeyW | KeyX | KeyY | KeyZ
    | Escape | Space
    | F1 | F2 | F3 | F4 | F5 | F6 | F7 | F8 | F9 | F10 | F11 | F12 | F35
    | Numpad0 | Numpad1 | Numpad2 | Numpad3 | Numpad4 | Numpad5 | Numpad6 | Numpad7 | Numpad8 | Numpad9
    | Period | NumpadDecimal | Minus | NumpadSubtract
    | Backspace | CapsLock | Delete
    | Other(code: nat)

  /** The keyboard as an input resource: keys held this frame, and keys that went down this frame. */
  datatype Keys = Keys(pressed: set<KeyCode>, justPressed: set<KeyCode>)

  datatype AppState = Loading | Settings | Game

  datatype InputField = Dpi | Cm | Fov | FresnelIntensity | FresnelPower | DirectionalLight | AmbientLight

  datatype ColorTarget = ArenaColor | TargetColor | FresnelColor

  /** The interaction state of a UI node. */
  datatype Interaction = Pressed | Hovered | NoInteraction

  /** One sample of a trial. */
  datatype DataPoint = DataPoint(
    time: real,
    targetPos: Vec3,
    crosshairDir: Vec3,
    targetX: real,
    targetY: real,
    cameraPos: Vec3,
    crosshairX: real,
    crosshairY: real)

  /** A detected change of the target's on-screen direction. */
  datatype DirectionChange = DirectionChange(time: real, targetNewDirection: Vec2)

  // ---------------------------------------------------------------- colours

  datatype Srgba = Srgba(red: real, green: real, blue: real, alpha: real)
  datatype Hsla = Hsla(hue: real, saturation: real, lightness: real, alpha: real)
  datatype Hsva = Hsva(hue: real, saturation: real, value: real, alpha: real)

  /** The engine's colour: a value in one of the colour spaces the program uses. */
  datatype Color = SrgbaColor(srgba: Srgba) | HslaColor(hsla: Hsla) | HsvaColor(hsva: Hsva)

  /** The engine's conversions between colour spaces, which the model takes as given. */
  datatype ColorSpace = ColorSpace(
    srgbaToHsla: Srgba -> Hsla,
    hsvaToHsla: Hsva -> Hsla,
    hslaToSrgba: Hsla -> Srgba,
    hsvaToSrgba: Hsva -> Srgba,
    srgbaToHsva: Srgba -> Hsva,
    hslaToHsva: Hsla -> Hsva)

  /** `Color::srgb`. */
  function Srgb(r: real, g: real, b: real): Color { SrgbaColor(Srgba(r, g, b, 1.0)) }

  /** `Color::hsl`. */
  function Hsl(h: real, s: real, l: real): Color { HslaColor(Hsla(h, s, l, 1.0)) }

  /** `Color::hsv`. */
  function Hsv(h: real, s: real, v: real): Color { HsvaColor(Hsva(h, s, v, 1.0)) }

  /** `Hsla::from(color)`: a colour already in HSL is returned as it is. */
  function ToHsla(cs: ColorSpace, c: Color): (r: Hsla)
    ensures c.HslaColor? ==> r == c.hsla
  {
    match c
    case SrgbaColor(x) => cs.srgbaToHsla(x)
    case HslaColor(x) => x
    case HsvaColor(x) => cs.hsvaToHsla(x)
  }

  /** `Hsva::from(color)`: a colour already in HSV is returned as it is. */
  function ToHsva(cs: ColorSpace, c: Color): (r: Hsva)
    ensures c.HsvaColor? ==> r == c.hsva
  {
    match c
    case SrgbaColor(x) => cs.srgbaToHsva(x)
    case HslaColor(x) => cs.hslaToHsva(x)
    case HsvaColor(x) => x
  }

  /** `color.to_srgba()`: a colour already in sRGB is returned as it is. */
  function ToSrgba(cs: ColorSpace, c: Color): (r: Srgba)
    ensures c.SrgbaColor? ==> r == c.srgba
  {
    match c
    case SrgbaColor(x) => x
    case HslaColor(x) => cs.hslaToSrgba(x)
    case HsvaColor(x) => cs.hsvaToSrgba(x)
  }
}

/** The game's tuning constants. */
module Constants {
  const ArenaSize: real := 32.0
  const TargetSize: real := 0.5
  const TargetSpeed: real := 7.0
  const TestDuration: real := 20.0

  const TargetBoundX: real := 6.0
  const TargetBoundY: real := 4.0
  const TargetBoundZMin: real := 8.0
  const TargetBoundZMax: real := 16.0

  const DefaultDpi: real := 1600.0
  const DefaultCm360: real := 38.0
  const DefaultFov: real := 103.0
}
