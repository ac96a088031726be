/**
  The configuration file's record and its text codecs: `#RRGGBB` colours and key names.
*/
module CfgSettings {
  import opened Wrappers
  import opened Types
  import opened Constants

  /** The configuration as stored on disk; colours are hex strings. */
  datatype GameConfig = GameConfig(
    dpi: real,
    cm360: real,
    fov: real,
    directionalLightIlluminance: real,
    ambientLightBrightness: real,
    crosshairColor: string,
    crosshairSize: real,
    crosshairThickness: real,
    arenaColor: string,
    targetColor: string,
    fresnelEnabled: bool,
    fresnelColor: string,
    fresnelIntensity: real,
    fresnelPower: real,
    textureFile: string,
    fontFile: string,
    hitSoundFile: string,
    keyRestart: KeyCode,
    keyStart: KeyCode,
    keySettings: KeyCode,
    keyFullscreen: KeyCode)

  /** `GameConfig::default`. */
  const DefaultConfig: GameConfig := GameConfig(
    DefaultDpi, DefaultCm360, DefaultFov, 4000.0, 250.0,
    "#FF0000", 10.0, 2.0, "#00FFFF", "#FF0000",
    false, "#FFFF00", 1.0, 3.0,
    "texture.png", "font.ttf", "hit.ogg",
    KeyR, Space, Escape, F12)

  // ---------------------------------------------------------------- colour to hex

  /** The `as u8` cast of an f32: truncation toward zero, saturating at 0 and 255. */
  function AsU8(x: real): (b: nat)
    ensures b < 256
    ensures 0.0 <= x < 256.0 ==> b == x.Floor
    ensures x <= 0.0 ==> b == 0
    ensures x >= 255.0 ==> b == 255
  {
    if x <= 0.0 then 0 else if x >= 255.0 then 255 else x.Floor
  }

  const UpperHexDigits: string := "0123456789ABCDEF"

  /** `{:02X}` of a byte: two upper-case hexadecimal digits, the high one first. */
  function Hex2(b: nat): (s: string)
    requires b < 256
    ensures |s| == 2 && s[0] in UpperHexDigits && s[1] in UpperHexDigits
  {
    [UpperHexDigits[b / 16], UpperHexDigits[b % 16]]
  }

  /** `#{:02X}{:02X}{:02X}` of three bytes. */
  function HexString(r: nat, g: nat, b: nat): string
    requires r < 256 && g < 256 && b < 256
  {
    "#" + Hex2(r) + Hex2(g) + Hex2(b)
  }

  /** The bytes `color_to_hex` writes for a colour: each sRGB channel times 255, cast to u8. */
  function SrgbBytes(cs: ColorSpace, c: Color): (t: (nat, nat, nat))
    ensures t.0 < 256 && t.1 < 256 && t.2 < 256
  {
    var s := ToSrgba(cs, c);
    (AsU8(s.red * 255.0), AsU8(s.green * 255.0), AsU8(s.blue * 255.0))
  }

  /** `color_to_hex`. */
  function ColorToHex(cs: ColorSpace, c: Color): string {
    var t := SrgbBytes(cs, c);
    HexString(t.0, t.1, t.2)
  }

  /** `color_to_hex` yields '#' followed by exactly six upper-case hexadecimal digits. */
  lemma ColorToHexShape(cs: ColorSpace, c: Color)
    ensures var s := ColorToHex(cs, c);
      |s| == 7 && s[0] == '#' && forall i :: 1 <= i < 7 ==> s[i] in UpperHexDigits
  {
    var t := SrgbBytes(cs, c);
    HexStringShape(t.0, t.1, t.2);
  }

  lemma HexStringShape(r: nat, g: nat, b: nat)
    requires r < 256 && g < 256 && b < 256
    ensures var s := HexString(r, g, b);
      |s| == 7 && s[0] == '#' && forall i :: 1 <= i < 7 ==> s[i] in UpperHexDigits
  {
    var s := HexString(r, g, b);
    var x, y, z := Hex2(r), Hex2(g), Hex2(b);
    assert s == ['#', x[0], x[1], y[0], y[1], z[0], z[1]];
  }

  // ---------------------------------------------------------------- hex to colour

  const LengthMessage: string := "Hex color must be 6 characters long"
  const InvalidMessage: string := "Invalid hex color"

  /** `trim_start_matches('#')`: drops every leading '#'. */
  function TrimHashes(s: string): (r: string)
    ensures |r| <= |s| && r == s[|s| - |r|..]
    ensures |r| > 0 ==> r[0] != '#'
    ensures forall i :: 0 <= i < |s| - |r| ==> s[i] == '#'
  {
    if |s| > 0 && s[0] == '#' then TrimHashes(s[1..]) else s
  }

  /** The number of bytes a character takes in UTF-8. */
  function Utf8Width(c: char): nat {
    if c as int < 0x80 then 1 else if c as int < 0x800 then 2 else if c as int < 0x10000 then 3 else 4
  }

  /** `str::len`: the length of a string in UTF-8 bytes. */
  function Utf8Len(s: string): (n: nat)
    ensures n >= |s|
  {
    if |s| == 0 then 0 else Utf8Width(s[0]) + Utf8Len(s[1..])
  }

  predicate IsAscii(s: string) {
    forall i :: 0 <= i < |s| ==> s[i] as int < 0x80
  }

  lemma {:induction false} Utf8LenAscii(s: string)
    ensures Utf8Len(s) == |s| <==> IsAscii(s)
  {
    if |s| > 0 {
      Utf8LenAscii(s[1..]);
      assert IsAscii(s) <==> s[0] as int < 0x80 && IsAscii(s[1..]) by {
        if IsAscii(s) {
          forall i | 0 <= i < |s[1..]| ensures s[1..][i] as int < 0x80 {
            assert s[1..][i] == s[i + 1];
          }
        }
        if s[0] as int < 0x80 && IsAscii(s[1..]) {
          forall i | 0 <= i < |s| ensures s[i] as int < 0x80 {
            if i > 0 { assert s[i] == s[1..][i - 1]; }
          }
        }
      }
    }
  }

  /** The value of a digit in base 16, either case. */
  function HexDigitValue(c: char): (v: Option<nat>)
    ensures v.Some? ==> v.value < 16
  {
    if '0' <= c <= '9' then Some(c as int - '0' as int)
    else if 'a' <= c <= 'f' then Some(c as int - 'a' as int + 10)
    else if 'A' <= c <= 'F' then Some(c as int - 'A' as int + 10)
    else None
  }

  predicate IsHexDigit(c: char) {
    HexDigitValue(c).Some?
  }

  /** The value of a string of base-16 digits, most significant first; `None` on a non-digit. */
  function HexDigitsValue(s: string): Option<nat> {
    if |s| == 0 then Some(0)
    else
      match (HexDigitsValue(s[..|s| - 1]), HexDigitValue(s[|s| - 1]))
      case (Some(p), Some(d)) => Some(p * 16 + d)
      case _ => None
  }

  /**
    `u8::from_str_radix(s, 16)`: a lone sign or an empty string is rejected, one leading '+'
    is skipped, a '-' is an invalid digit for an unsigned type, and values above 255 overflow.
  */
  function U8FromHex(s: string): (r: Option<nat>)
    ensures r.Some? ==> r.value < 256
  {
    if |s| == 0 then None
    else if (s[0] == '+' || s[0] == '-') && |s| == 1 then None
    else
      var digits := if s[0] == '+' then s[1..] else s;
      match HexDigitsValue(digits)
      case Some(v) => if v < 256 then Some(v) else None
      case None => None
  }

  /** The pairs `u8::from_str_radix` accepts: two hex digits, or '+' then one hex digit. */
  predicate ValidPair(p: string)
    requires |p| == 2
  {
    (IsHexDigit(p[0]) || p[0] == '+') && IsHexDigit(p[1])
  }

  lemma SingleDigitValue(c: char)
    ensures HexDigitsValue([c]) == HexDigitValue(c)
  {
    assert [c][..0] == [];
  }

  lemma TwoDigitsValue(p: string)
    requires |p| == 2
    ensures HexDigitsValue(p) == if IsHexDigit(p[0]) && IsHexDigit(p[1])
      then Some(HexDigitValue(p[0]).value * 16 + HexDigitValue(p[1]).value) else None
  {
    assert p[..1] == [p[0]];
    SingleDigitValue(p[0]);
  }

  lemma PairAccepted(p: string)
    requires |p| == 2
    ensures U8FromHex(p).Some? <==> ValidPair(p)
  {
    TwoDigitsValue(p);
    if p[0] == '+' {
      assert p[1..] == [p[1]];
      SingleDigitValue(p[1]);
    }
  }

  /** The three bytes of a trimmed `RRGGBB` string, before they are scaled to a colour. */
  function ParseHexBytes(hex: string): Result<(nat, nat, nat), string> {
    if Utf8Len(hex) != 6 then Err(LengthMessage)
    else if !IsAscii(hex) then Err(InvalidMessage)
    else
      Utf8LenAscii(hex);
      match (U8FromHex(hex[0..2]), U8FromHex(hex[2..4]), U8FromHex(hex[4..6]))
      case (Some(r), Some(g), Some(b)) => Ok((r, g, b))
      case _ => Err(InvalidMessage)
  }

  /** `hex_to_color`. */
  function HexToColor(hex: string): (r: Result<Color, string>)
    ensures r.Err? ==> r.error == LengthMessage || r.error == InvalidMessage
  {
    var p := ParseHexBytes(TrimHashes(hex));
    if p.Ok? then Ok(Srgb(p.value.0 as real / 255.0, p.value.1 as real / 255.0, p.value.2 as real / 255.0))
    else Err(p.error)
  }

  /** A string whose remainder after the leading '#'s is not six bytes long is refused with the length message. */
  lemma HexToColorLengthError(hex: string)
    requires Utf8Len(TrimHashes(hex)) != 6
    ensures HexToColor(hex) == Err(LengthMessage)
  {
  }

  /** The strings `hex_to_color` accepts: after the leading '#'s, six ASCII characters in three valid pairs. */
  predicate AcceptedHex(hex: string) {
    var t := TrimHashes(hex);
    |t| == 6 && IsAscii(t) && ValidPair(t[0..2]) && ValidPair(t[2..4]) && ValidPair(t[4..6])
  }

  lemma HexToColorAcceptsExactly(hex: string)
    ensures HexToColor(hex).Ok? <==> AcceptedHex(hex)
  {
    ParseAcceptsExactly(TrimHashes(hex));
  }

  lemma ParseAcceptsExactly(t: string)
    ensures ParseHexBytes(t).Ok? <==>
      |t| == 6 && IsAscii(t) && ValidPair(t[0..2]) && ValidPair(t[2..4]) && ValidPair(t[4..6])
  {
    Utf8LenAscii(t);
    if |t| == 6 && IsAscii(t) {
      PairAccepted(t[0..2]);
      PairAccepted(t[2..4]);
      PairAccepted(t[4..6]);
    }
  }

  lemma UpperDigitValue(n: nat)
    requires n < 16
    ensures HexDigitValue(UpperHexDigits[n]) == Some(n)
  {
    if n == 0 { assert UpperHexDigits[0] == '0'; }
    else if n == 1 { assert UpperHexDigits[1] == '1'; }
    else if n == 2 { assert UpperHexDigits[2] == '2'; }
    else if n == 3 { assert UpperHexDigits[3] == '3'; }
    else if n == 4 { assert UpperHexDigits[4] == '4'; }
    else if n == 5 { assert UpperHexDigits[5] == '5'; }
    else if n == 6 { assert UpperHexDigits[6] == '6'; }
    else if n == 7 { assert UpperHexDigits[7] == '7'; }
    else if n == 8 { assert UpperHexDigits[8] == '8'; }
    else if n == 9 { assert UpperHexDigits[9] == '9'; }
    else if n == 10 { assert UpperHexDigits[10] == 'A'; }
    else if n == 11 { assert UpperHexDigits[11] == 'B'; }
    else if n == 12 { assert UpperHexDigits[12] == 'C'; }
    else if n == 13 { assert UpperHexDigits[13] == 'D'; }
    else if n == 14 { assert UpperHexDigits[14] == 'E'; }
    else if n == 15 { assert UpperHexDigits[15] == 'F'; }
  }

  lemma Hex2Parses(b: nat)
    requires b < 256
    ensures U8FromHex(Hex2(b)) == Some(b)
  {
    var s := Hex2(b);
    UpperDigitValue(b / 16);
    UpperDigitValue(b % 16);
    TwoDigitsValue(s);
    assert s[0] != '+' && s[0] != '-';
  }

  lemma UpperDigitsAscii(c: char)
    requires c in UpperHexDigits
    ensures c as int < 0x80 && c != '#'
  {
  }

  lemma TrimOneHash(t: string)
    requires |t| > 0 && t[0] != '#'
    ensures TrimHashes("#" + t) == t
  {
    assert ("#" + t)[1..] == t;
  }

  lemma ParseValidBytes(t: string, r: nat, g: nat, b: nat)
    requires |t| == 6 && IsAscii(t)
    requires U8FromHex(t[0..2]) == Some(r) && U8FromHex(t[2..4]) == Some(g) && U8FromHex(t[4..6]) == Some(b)
    ensures ParseHexBytes(t) == Ok((r, g, b))
  {
    Utf8LenAscii(t);
  }

  lemma ParsedHexToColor(hex: string, r: nat, g: nat, b: nat)
    requires ParseHexBytes(TrimHashes(hex)) == Ok((r, g, b))
    ensures HexToColor(hex) == Ok(Srgb(r as real / 255.0, g as real / 255.0, b as real / 255.0))
  {
  }

  /** The six digits of `#RRGGBB`, with the facts the parser needs about them. */
  lemma HexDigitsOf(r: nat, g: nat, b: nat) returns (t: string)
    requires r < 256 && g < 256 && b < 256
    ensures HexString(r, g, b) == "#" + t
    ensures |t| == 6 && IsAscii(t) && t[0] != '#'
    ensures t[0..2] == Hex2(r) && t[2..4] == Hex2(g) && t[4..6] == Hex2(b)
  {
    var x, y, z := Hex2(r), Hex2(g), Hex2(b);
    t := x + y + z;
    SixUpperDigits(x, y, z);
    HashConcat(x, y, z);
  }

  lemma SixUpperDigits(x: string, y: string, z: string)
    requires |x| == 2 && |y| == 2 && |z| == 2
    requires x[0] in UpperHexDigits && x[1] in UpperHexDigits && y[0] in UpperHexDigits
    requires y[1] in UpperHexDigits && z[0] in UpperHexDigits && z[1] in UpperHexDigits
    ensures var t := x + y + z;
      |t| == 6 && IsAscii(t) && t[0] != '#' && t[0..2] == x && t[2..4] == y && t[4..6] == z
  {
    var t := x + y + z;
    assert t == [x[0], x[1], y[0], y[1], z[0], z[1]];
    UpperDigitsAscii(x[0]);
    UpperDigitsAscii(x[1]);
    UpperDigitsAscii(y[0]);
    UpperDigitsAscii(y[1]);
    UpperDigitsAscii(z[0]);
    UpperDigitsAscii(z[1]);
    assert t[0..2] == x && t[2..4] == y && t[4..6] == z;
  }

  lemma HashConcat(x: string, y: string, z: string)
    ensures "#" + x + y + z == "#" + (x + y + z)
  {
    assert "#" + x + y + z == "#" + (x + y + z);
  }

  /** Formatting three bytes as `#RRGGBB` and parsing the result recovers the same bytes. */
  lemma HexStringRoundTrip(r: nat, g: nat, b: nat)
    requires r < 256 && g < 256 && b < 256
    ensures ParseHexBytes(TrimHashes(HexString(r, g, b))) == Ok((r, g, b))
    ensures HexToColor(HexString(r, g, b)) == Ok(Srgb(r as real / 255.0, g as real / 255.0, b as real / 255.0))
  {
    var t := HexDigitsOf(r, g, b);
    TrimOneHash(t);
    Hex2Parses(r);
    Hex2Parses(g);
    Hex2Parses(b);
    ParseValidBytes(t, r, g, b);
    ParsedHexToColor(HexString(r, g, b), r, g, b);
  }

  /** Every colour written by `color_to_hex` is read back by `hex_to_color`, with the same bytes. */
  lemma ColorToHexParses(cs: ColorSpace, c: Color)
    ensures HexToColor(ColorToHex(cs, c)).Ok?
    ensures ParseHexBytes(TrimHashes(ColorToHex(cs, c))) == Ok(SrgbBytes(cs, c))
  {
    var t := SrgbBytes(cs, c);
    HexStringRoundTrip(t.0, t.1, t.2);
  }

  /** The colour `hex_to_color` reads back from `color_to_hex(c)`: the sRGB colour of the bytes written. */
  function Requantized(cs: ColorSpace, c: Color): Color {
    var t := SrgbBytes(cs, c);
    Srgb(t.0 as real / 255.0, t.1 as real / 255.0, t.2 as real / 255.0)
  }

  /** `hex_to_color(color_to_hex(c))` is the colour quantised to sRGB bytes. */
  lemma ColorToHexRoundTrip(cs: ColorSpace, c: Color)
    ensures HexToColor(ColorToHex(cs, c)) == Ok(Requantized(cs, c))
  {
    var t := SrgbBytes(cs, c);
    assert ColorToHex(cs, c) == HexString(t.0, t.1, t.2);
    assert Requantized(cs, c) == Srgb(t.0 as real / 255.0, t.1 as real / 255.0, t.2 as real / 255.0);
    BytesRoundTrip(t);
  }

  lemma BytesRoundTrip(t: (nat, nat, nat))
    requires t.0 < 256 && t.1 < 256 && t.2 < 256
    ensures HexToColor(HexString(t.0, t.1, t.2)) == Ok(Srgb(t.0 as real / 255.0, t.1 as real / 255.0, t.2 as real / 255.0))
  {
    HexStringRoundTrip(t.0, t.1, t.2);
  }

  /** The four colours of `GameConfig::default` are accepted, as the bytes they spell. */
  lemma DefaultColorsAccepted()
    ensures HexToColor(DefaultConfig.crosshairColor).Ok? && HexToColor(DefaultConfig.targetColor).Ok?
    ensures HexToColor(DefaultConfig.arenaColor).Ok? && HexToColor(DefaultConfig.fresnelColor).Ok?
    ensures ParseHexBytes(TrimHashes(DefaultConfig.crosshairColor)) == Ok((255, 0, 0))
    ensures ParseHexBytes(TrimHashes(DefaultConfig.arenaColor)) == Ok((0, 255, 255))
    ensures ParseHexBytes(TrimHashes(DefaultConfig.targetColor)) == Ok((255, 0, 0))
    ensures ParseHexBytes(TrimHashes(DefaultConfig.fresnelColor)) == Ok((255, 255, 0))
  {
    assert HexString(255, 0, 0) == "#FF0000";
    assert HexString(0, 255, 255) == "#00FFFF";
    assert HexString(255, 255, 0) == "#FFFF00";
    HexStringRoundTrip(255, 0, 0);
    HexStringRoundTrip(0, 255, 255);
    HexStringRoundTrip(255, 255, 0);
  }

  /** The colours `hex_to_color` reads from `GameConfig::default`: red, cyan, red and yellow. */
  lemma DefaultColorsParsed()
    ensures HexToColor(DefaultConfig.crosshairColor) == Ok(Srgb(1.0, 0.0, 0.0))
    ensures HexToColor(DefaultConfig.arenaColor) == Ok(Srgb(0.0, 1.0, 1.0))
    ensures HexToColor(DefaultConfig.targetColor) == Ok(Srgb(1.0, 0.0, 0.0))
    ensures HexToColor(DefaultConfig.fresnelColor) == Ok(Srgb(1.0, 1.0, 0.0))
  {
    DefaultColorsAccepted();
    RedParsed(DefaultConfig.crosshairColor);
    CyanParsed(DefaultConfig.arenaColor);
    RedParsed(DefaultConfig.targetColor);
    YellowParsed(DefaultConfig.fresnelColor);
  }

  lemma ByteScale()
    ensures 255 as real / 255.0 == 1.0 && 0 as real / 255.0 == 0.0
  {
  }

  lemma RedParsed(hex: string)
    requires ParseHexBytes(TrimHashes(hex)) == Ok((255, 0, 0))
    ensures HexToColor(hex) == Ok(Srgb(1.0, 0.0, 0.0))
  {
    ParsedHexToColor(hex, 255, 0, 0);
    ByteScale();
  }

  lemma CyanParsed(hex: string)
    requires ParseHexBytes(TrimHashes(hex)) == Ok((0, 255, 255))
    ensures HexToColor(hex) == Ok(Srgb(0.0, 1.0, 1.0))
  {
    ParsedHexToColor(hex, 0, 255, 255);
    ByteScale();
  }

  lemma YellowParsed(hex: string)
    requires ParseHexBytes(TrimHashes(hex)) == Ok((255, 255, 0))
    ensures HexToColor(hex) == Ok(Srgb(1.0, 1.0, 0.0))
  {
    ParsedHexToColor(hex, 255, 255, 0);
    ByteScale();
  }

  // ---------------------------------------------------------------- key names

  predicate IsDigitKey(k: KeyCode) {
    match k
    case Digit1 | Digit2 | Digit3 | Digit4 | Digit5 | Digit6 | Digit7 | Digit8 | Digit9 | Digit0 => true
    case _ => false
  }

  predicate IsLetterKey(k: KeyCode) {
    match k
    case KeyA | KeyB | KeyC | KeyD | KeyE | KeyF | KeyG | KeyH | KeyI | KeyJ | KeyK | KeyL | KeyM | KeyN | KeyO | KeyP | KeyQ | KeyR | KeyS | KeyT | KeyU | KeyV | KeyW | KeyX | KeyY | KeyZ => true
    case _ => false
  }

  predicate IsFunctionKey(k: KeyCode) {
    match k
    case F1 | F2 | F3 | F4 | F5 | F6 | F7 | F8 | F9 | F10 | F11 | F12 => true
    case _ => false
  }

  /** The fifty keys the configuration file can name: Digit0-9, KeyA-Z, Escape, Space and F1-F12. */
  predicate Listed(k: KeyCode) {
    IsDigitKey(k) || IsLetterKey(k) || k == Escape || k == Space || IsFunctionKey(k)
  }

  /** `serialize_keycode`: the key's name, or "F35" for a key outside the table. */
  function SerializeKeycode(k: KeyCode): string {
    match k
    case Digit1 => "Digit1"
    case Digit2 => "Digit2"
    case Digit3 => "Digit3"
    case Digit4 => "Digit4"
    case Digit5 => "Digit5"
    case Digit6 => "Digit6"
    case Digit7 => "Digit7"
    case Digit8 => "Digit8"
    case Digit9 => "Digit9"
    case Digit0 => "Digit0"
    case KeyA => "KeyA"
    case KeyB => "KeyB"
    case KeyC => "KeyC"
    case KeyD => "KeyD"
    case KeyE => "KeyE"
    case KeyF => "KeyF"
    case KeyG => "KeyG"
    case KeyH => "KeyH"
    case KeyI => "KeyI"
    case KeyJ => "KeyJ"
    case KeyK => "KeyK"
    case KeyL => "KeyL"
    case KeyM => "KeyM"
    case KeyN => "KeyN"
    case KeyO => "KeyO"
    case KeyP => "KeyP"
    case KeyQ => "KeyQ"
    case KeyR => "KeyR"
    case KeyS => "KeyS"
    case KeyT => "KeyT"
    case KeyU => "KeyU"
    case KeyV => "KeyV"
    case KeyW => "KeyW"
    case KeyX => "KeyX"
    case KeyY => "KeyY"
    case KeyZ => "KeyZ"
    case Escape => "Escape"
    case Space => "Space"
    case F1 => "F1"
    case F2 => "F2"
    case F3 => "F3"
    case F4 => "F4"
    case F5 => "F5"
    case F6 => "F6"
    case F7 => "F7"
    case F8 => "F8"
    case F9 => "F9"
    case F10 => "F10"
    case F11 => "F11"
    case F12 => "F12"
    case _ => "F35"
  }

  /** `deserialize_keycode`: the named key, or F35 for a name outside the table. */
  function DeserializeKeycode(s: string): KeyCode {
    match s
    case "Digit1" => Digit1
    case "Digit2" => Digit2
    case "Digit3" => Digit3
    case "Digit4" => Digit4
    case "Digit5" => Digit5
    case "Digit6" => Digit6
    case "Digit7" => Digit7
    case "Digit8" => Digit8
    case "Digit9" => Digit9
    case "Digit0" => Digit0
    case "KeyA" => KeyA
    case "KeyB" => KeyB
    case "KeyC" => KeyC
    case "KeyD" => KeyD
    case "KeyE" => KeyE
    case "KeyF" => KeyF
    case "KeyG" => KeyG
    case "KeyH" => KeyH
    case "KeyI" => KeyI
    case "KeyJ" => KeyJ
    case "KeyK" => KeyK
    case "KeyL" => KeyL
    case "KeyM" => KeyM
    case "KeyN" => KeyN
    case "KeyO" => KeyO
    case "KeyP" => KeyP
    case "KeyQ" => KeyQ
    case "KeyR" => KeyR
    case "KeyS" => KeyS
    case "KeyT" => KeyT
    case "KeyU" => KeyU
    case "KeyV" => KeyV
    case "KeyW" => KeyW
    case "KeyX" => KeyX
    case "KeyY" => KeyY
    case "KeyZ" => KeyZ
    case "Escape" => Escape
    case "Space" => Space
    case "F1" => F1
    case "F2" => F2
    case "F3" => F3
    case "F4" => F4
    case "F5" => F5
    case "F6" => F6
    case "F7" => F7
    case "F8" => F8
    case "F9" => F9
    case "F10" => F10
    case "F11" => F11
    case "F12" => F12
    case _ => F35
  }

  /** A key outside the table, and only such a key, is written as "F35". */
  lemma SerializeUnlisted(k: KeyCode)
    ensures !Listed(k) <==> SerializeKeycode(k) == "F35"
  {
    if IsDigitKey(k) {
      DigitNamed(k);
    } else if IsLetterKey(k) {
      LetterNamed(k);
    } else if IsFunctionKey(k) {
      FunctionKeyNamed(k);
    }
  }

  lemma DigitNamed(k: KeyCode)
    requires IsDigitKey(k)
    ensures SerializeKeycode(k) != "F35"
  {
    match k
    case Digit1 =>
    case Digit2 =>
    case Digit3 =>
    case Digit4 =>
    case Digit5 =>
    case Digit6 =>
    case Digit7 =>
    case Digit8 =>
    case Digit9 =>
    case Digit0 =>
  }

  lemma LetterNamed(k: KeyCode)
    requires IsLetterKey(k)
    ensures SerializeKeycode(k) != "F35"
  {
    match k
    case KeyA =>
    case KeyB =>
    case KeyC =>
    case KeyD =>
    case KeyE =>
    case KeyF =>
    case KeyG =>
    case KeyH =>
    case KeyI =>
    case KeyJ =>
    case KeyK =>
    case KeyL =>
    case KeyM =>
    case KeyN =>
    case KeyO =>
    case KeyP =>
    case KeyQ =>
    case KeyR =>
    case KeyS =>
    case KeyT =>
    case KeyU =>
    case KeyV =>
    case KeyW =>
    case KeyX =>
    case KeyY =>
    case KeyZ =>
  }

  lemma FunctionKeyNamed(k: KeyCode)
    requires IsFunctionKey(k)
    ensures SerializeKeycode(k) != "F35"
  {
    match k
    case F1 =>
    case F2 =>
    case F3 =>
    case F4 =>
    case F5 =>
    case F6 =>
    case F7 =>
    case F8 =>
    case F9 =>
    case F10 =>
    case F11 =>
    case F12 =>
  }

  lemma ReadsBackDigit1()
    ensures DeserializeKeycode("Digit1") == Digit1
  {
  }

  lemma ReadsBackDigit2()
    ensures DeserializeKeycode("Digit2") == Digit2
  {
  }

  lemma ReadsBackDigit3()
    ensures DeserializeKeycode("Digit3") == Digit3
  {
  }

  lemma ReadsBackDigit4()
    ensures DeserializeKeycode("Digit4") == Digit4
  {
  }

  lemma ReadsBackDigit5()
    ensures DeserializeKeycode("Digit5") == Digit5
  {
  }

  lemma ReadsBackDigit6()
    ensures DeserializeKeycode("Digit6") == Digit6
  {
  }

  lemma ReadsBackDigit7()
    ensures DeserializeKeycode("Digit7") == Digit7
  {
  }

  lemma ReadsBackDigit8()
    ensures DeserializeKeycode("Digit8") == Digit8
  {
  }

  lemma ReadsBackDigit9()
    ensures DeserializeKeycode("Digit9") == Digit9
  {
  }

  lemma ReadsBackDigit0()
    ensures DeserializeKeycode("Digit0") == Digit0
  {
  }

  lemma ReadsBackKeyA()
    ensures DeserializeKeycode("KeyA") == KeyA
  {
  }

  lemma ReadsBackKeyB()
    ensures DeserializeKeycode("KeyB") == KeyB
  {
  }

  lemma ReadsBackKeyC()
    ensures DeserializeKeycode("KeyC") == KeyC
  {
  }

  lemma ReadsBackKeyD()
    ensures DeserializeKeycode("KeyD") == KeyD
  {
  }

  lemma ReadsBackKeyE()
    ensures DeserializeKeycode("KeyE") == KeyE
  {
  }

  lemma ReadsBackKeyF()
    ensures DeserializeKeycode("KeyF") == KeyF
  {
  }

  lemma ReadsBackKeyG()
    ensures DeserializeKeycode("KeyG") == KeyG
  {
  }

  lemma ReadsBackKeyH()
    ensures DeserializeKeycode("KeyH") == KeyH
  {
  }

  lemma ReadsBackKeyI()
    ensures DeserializeKeycode("KeyI") == KeyI
  {
  }

  lemma ReadsBackKeyJ()
    ensures DeserializeKeycode("KeyJ") == KeyJ
  {
  }

  lemma ReadsBackKeyK()
    ensures DeserializeKeycode("KeyK") == KeyK
  {
  }

  lemma ReadsBackKeyL()
    ensures DeserializeKeycode("KeyL") == KeyL
  {
  }

  lemma ReadsBackKeyM()
    ensures DeserializeKeycode("KeyM") == KeyM
  {
  }

  lemma ReadsBackKeyN()
    ensures DeserializeKeycode("KeyN") == KeyN
  {
  }

  lemma ReadsBackKeyO()
    ensures DeserializeKeycode("KeyO") == KeyO
  {
  }

  lemma ReadsBackKeyP()
    ensures DeserializeKeycode("KeyP") == KeyP
  {
  }

  lemma ReadsBackKeyQ()
    ensures DeserializeKeycode("KeyQ") == KeyQ
  {
  }

  lemma ReadsBackKeyR()
    ensures DeserializeKeycode("KeyR") == KeyR
  {
  }

  lemma ReadsBackKeyS()
    ensures DeserializeKeycode("KeyS") == KeyS
  {
  }

  lemma ReadsBackKeyT()
    ensures DeserializeKeycode("KeyT") == KeyT
  {
  }

  lemma ReadsBackKeyU()
    ensures DeserializeKeycode("KeyU") == KeyU
  {
  }

  lemma ReadsBackKeyV()
    ensures DeserializeKeycode("KeyV") == KeyV
  {
  }

  lemma ReadsBackKeyW()
    ensures DeserializeKeycode("KeyW") == KeyW
  {
  }

  lemma ReadsBackKeyX()
    ensures DeserializeKeycode("KeyX") == KeyX
  {
  }

  lemma ReadsBackKeyY()
    ensures DeserializeKeycode("KeyY") == KeyY
  {
  }

  lemma ReadsBackKeyZ()
    ensures DeserializeKeycode("KeyZ") == KeyZ
  {
  }

  lemma ReadsBackEscape()
    ensures DeserializeKeycode("Escape") == Escape
  {
  }

  lemma ReadsBackSpace()
    ensures DeserializeKeycode("Space") == Space
  {
  }

  lemma ReadsBackF1()
    ensures DeserializeKeycode("F1") == F1
  {
  }

  lemma ReadsBackF2()
    ensures DeserializeKeycode("F2") == F2
  {
  }

  lemma ReadsBackF3()
    ensures DeserializeKeycode("F3") == F3
  {
  }

  lemma ReadsBackF4()
    ensures DeserializeKeycode("F4") == F4
  {
  }

  lemma ReadsBackF5()
    ensures DeserializeKeycode("F5") == F5
  {
  }

  lemma ReadsBackF6()
    ensures DeserializeKeycode("F6") == F6
  {
  }

  lemma ReadsBackF7()
    ensures DeserializeKeycode("F7") == F7
  {
  }

  lemma ReadsBackF8()
    ensures DeserializeKeycode("F8") == F8
  {
  }

  lemma ReadsBackF9()
    ensures DeserializeKeycode("F9") == F9
  {
  }

  lemma ReadsBackF10()
    ensures DeserializeKeycode("F10") == F10
  {
  }

  lemma ReadsBackF11()
    ensures DeserializeKeycode("F11") == F11
  {
  }

  lemma ReadsBackF12()
    ensures DeserializeKeycode("F12") == F12
  {
  }

  /** Reading back a written key from the table gives the key itself. */
  lemma ListedKeyRoundTrip(k: KeyCode)
    requires Listed(k)
    ensures DeserializeKeycode(SerializeKeycode(k)) == k
  {
    if IsDigitKey(k) {
      DigitKeyRoundTrip(k);
    } else if k == KeyA || k == KeyB || k == KeyC || k == KeyD || k == KeyE || k == KeyF || k == KeyG || k == KeyH || k == KeyI || k == KeyJ || k == KeyK || k == KeyL || k == KeyM {
      LetterAToMRoundTrip(k);
    } else if IsLetterKey(k) {
      LetterNToZRoundTrip(k);
    } else {
      OtherKeyRoundTrip(k);
    }
  }

  lemma DigitKeyRoundTrip(k: KeyCode)
    requires IsDigitKey(k)
    ensures DeserializeKeycode(SerializeKeycode(k)) == k
  {
    match k
    case Digit1 => ReadsBackDigit1();
    case Digit2 => ReadsBackDigit2();
    case Digit3 => ReadsBackDigit3();
    case Digit4 => ReadsBackDigit4();
    case Digit5 => ReadsBackDigit5();
    case Digit6 => ReadsBackDigit6();
    case Digit7 => ReadsBackDigit7();
    case Digit8 => ReadsBackDigit8();
    case Digit9 => ReadsBackDigit9();
    case Digit0 => ReadsBackDigit0();
  }

  lemma LetterAToMRoundTrip(k: KeyCode)
    requires k == KeyA || k == KeyB || k == KeyC || k == KeyD || k == KeyE || k == KeyF || k == KeyG || k == KeyH || k == KeyI || k == KeyJ || k == KeyK || k == KeyL || k == KeyM
    ensures DeserializeKeycode(SerializeKeycode(k)) == k
  {
    match k
    case KeyA => ReadsBackKeyA();
    case KeyB => ReadsBackKeyB();
    case KeyC => ReadsBackKeyC();
    case KeyD => ReadsBackKeyD();
    case KeyE => ReadsBackKeyE();
    case KeyF => ReadsBackKeyF();
    case KeyG => ReadsBackKeyG();
    case KeyH => ReadsBackKeyH();
    case KeyI => ReadsBackKeyI();
    case KeyJ => ReadsBackKeyJ();
    case KeyK => ReadsBackKeyK();
    case KeyL => ReadsBackKeyL();
    case KeyM => ReadsBackKeyM();
  }

  lemma LetterNToZRoundTrip(k: KeyCode)
    requires k == KeyN || k == KeyO || k == KeyP || k == KeyQ || k == KeyR || k == KeyS || k == KeyT || k == KeyU || k == KeyV || k == KeyW || k == KeyX || k == KeyY || k == KeyZ
    ensures DeserializeKeycode(SerializeKeycode(k)) == k
  {
    match k
    case KeyN => ReadsBackKeyN();
    case KeyO => ReadsBackKeyO();
    case KeyP => ReadsBackKeyP();
    case KeyQ => ReadsBackKeyQ();
    case KeyR => ReadsBackKeyR();
    case KeyS => ReadsBackKeyS();
    case KeyT => ReadsBackKeyT();
    case KeyU => ReadsBackKeyU();
    case KeyV => ReadsBackKeyV();
    case KeyW => ReadsBackKeyW();
    case KeyX => ReadsBackKeyX();
    case KeyY => ReadsBackKeyY();
    case KeyZ => ReadsBackKeyZ();
  }

  lemma OtherKeyRoundTrip(k: KeyCode)
    requires k == Escape || k == Space || IsFunctionKey(k)
    ensures DeserializeKeycode(SerializeKeycode(k)) == k
  {
    match k
    case Escape => ReadsBackEscape();
    case Space => ReadsBackSpace();
    case F1 => ReadsBackF1();
    case F2 => ReadsBackF2();
    case F3 => ReadsBackF3();
    case F4 => ReadsBackF4();
    case F5 => ReadsBackF5();
    case F6 => ReadsBackF6();
    case F7 => ReadsBackF7();
    case F8 => ReadsBackF8();
    case F9 => ReadsBackF9();
    case F10 => ReadsBackF10();
    case F11 => ReadsBackF11();
    case F12 => ReadsBackF12();
  }

  /** A key outside the table is written as "F35" and read back as F35. */
  lemma UnlistedKeyRoundTrip(k: KeyCode)
    requires !Listed(k)
    ensures DeserializeKeycode(SerializeKeycode(k)) == F35
  {
    SerializeUnlisted(k);
  }

  /** A name that reads as a key other than F35 is that key's own name; a name no listed key is written as reads as F35. */
  lemma KeyNameRoundTrip(s: string)
    ensures DeserializeKeycode(s) != F35 ==> SerializeKeycode(DeserializeKeycode(s)) == s
    ensures (forall k :: Listed(k) ==> SerializeKeycode(k) != s) ==> DeserializeKeycode(s) == F35
  {
    KeyNameRoundTripListed(s);
  }

  /** The first half of `KeyNameRoundTrip`, by the length of the name. */
  lemma KeyNameRoundTripListed(s: string)
    ensures DeserializeKeycode(s) != F35 ==> SerializeKeycode(DeserializeKeycode(s)) == s && Listed(DeserializeKeycode(s))
  {
    KeyNameRoundTripByLength(s);
    var k := DeserializeKeycode(s);
    if k != F35 {
      SerializeUnlisted(k);
    }
  }

  /** A name that reads as a key other than F35 is that key's own name. */
  lemma KeyNameRoundTripByLength(s: string)
    ensures DeserializeKeycode(s) != F35 ==> SerializeKeycode(DeserializeKeycode(s)) == s
  {
    if |s| == 2 {
      NamesOfLength2(s);
    } else if |s| == 3 {
      NamesOfLength3(s);
    } else if |s| == 4 {
      NamesOfLength4(s);
    } else if |s| == 5 {
      NamesOfLength5(s);
    } else if |s| == 6 {
      NamesOfLength6(s);
    } else {
      UnnamedLength(s);
    }
  }

  /** No name of the table has a length other than 2, 3, 4, 5, 6. */
  lemma UnnamedLength(s: string)
    requires |s| != 2 && |s| != 3 && |s| != 4 && |s| != 5 && |s| != 6
    ensures DeserializeKeycode(s) == F35
  {
  }

  lemma NamesOfLength2(s: string)
    requires |s| == 2
    ensures DeserializeKeycode(s) != F35 ==> SerializeKeycode(DeserializeKeycode(s)) == s
    ensures DeserializeKeycode(s) == F35 ==> SerializeKeycode(DeserializeKeycode(s)) == "F35"
  {
    if s == "F1" || s == "F2" || s == "F3" {
      NamesF1ToF3(s);
    } else if s == "F4" || s == "F5" || s == "F6" {
      NamesF4ToF6(s);
    } else if s == "F7" || s == "F8" || s == "F9" {
      NamesF7ToF9(s);
    } else {
      UnnamedOfLength2(s);
    }
  }

  lemma UnnamedOfLength2(s: string)
    requires |s| == 2 && s != "F1" && s != "F2" && s != "F3" && s != "F4" && s != "F5" && s != "F6" && s != "F7" && s != "F8" && s != "F9"
    ensures DeserializeKeycode(s) == F35
  {
  }

  lemma NamesF1ToF3(s: string)
    requires s == "F1" || s == "F2" || s == "F3"
    ensures DeserializeKeycode(s) != F35 ==> SerializeKeycode(DeserializeKeycode(s)) == s
    ensures DeserializeKeycode(s) == F35 ==> SerializeKeycode(DeserializeKeycode(s)) == "F35"
  {
    if s == "F1" {
      ReadsBackF1();
    } else if s == "F2" {
      ReadsBackF2();
    } else if s == "F3" {
      ReadsBackF3();
    }
  }

  lemma NamesF4ToF6(s: string)
    requires s == "F4" || s == "F5" || s == "F6"
    ensures DeserializeKeycode(s) != F35 ==> SerializeKeycode(DeserializeKeycode(s)) == s
    ensures DeserializeKeycode(s) == F35 ==> SerializeKeycode(DeserializeKeycode(s)) == "F35"
  {
    if s == "F4" {
      ReadsBackF4();
    } else if s == "F5" {
      ReadsBackF5();
    } else if s == "F6" {
      ReadsBackF6();
    }
  }

  lemma NamesF7ToF9(s: string)
    requires s == "F7" || s == "F8" || s == "F9"
    ensures DeserializeKeycode(s) != F35 ==> SerializeKeycode(DeserializeKeycode(s)) == s
    ensures DeserializeKeycode(s) == F35 ==> SerializeKeycode(DeserializeKeycode(s)) == "F35"
  {
    if s == "F7" {
      ReadsBackF7();
    } else if s == "F8" {
      ReadsBackF8();
    } else if s == "F9" {
      ReadsBackF9();
    }
  }

  lemma NamesOfLength3(s: string)
    requires |s| == 3
    ensures DeserializeKeycode(s) != F35 ==> SerializeKeycode(DeserializeKeycode(s)) == s
    ensures DeserializeKeycode(s) == F35 ==> SerializeKeycode(DeserializeKeycode(s)) == "F35"
  {
    if s == "F10" || s == "F11" || s == "F12" {
      NamesF10ToF12(s);
    } else {
      UnnamedOfLength3(s);
    }
  }

  lemma UnnamedOfLength3(s: string)
    requires |s| == 3 && s != "F10" && s != "F11" && s != "F12"
    ensures DeserializeKeycode(s) == F35
  {
  }

  lemma NamesF10ToF12(s: string)
    requires s == "F10" || s == "F11" || s == "F12"
    ensures DeserializeKeycode(s) != F35 ==> SerializeKeycode(DeserializeKeycode(s)) == s
    ensures DeserializeKeycode(s) == F35 ==> SerializeKeycode(DeserializeKeycode(s)) == "F35"
  {
    if s == "F10" {
      ReadsBackF10();
    } else if s == "F11" {
      ReadsBackF11();
    } else if s == "F12" {
      ReadsBackF12();
    }
  }

  lemma NamesOfLength4(s: string)
    requires |s| == 4
    ensures DeserializeKeycode(s) != F35 ==> SerializeKeycode(DeserializeKeycode(s)) == s
    ensures DeserializeKeycode(s) == F35 ==> SerializeKeycode(DeserializeKeycode(s)) == "F35"
  {
    if s == "KeyA" || s == "KeyB" || s == "KeyC" || s == "KeyD" || s == "KeyE" || s == "KeyF" || s == "KeyG" || s == "KeyH" || s == "KeyI" {
      NamesKeyAToKeyI(s);
    } else if s == "KeyJ" || s == "KeyK" || s == "KeyL" || s == "KeyM" || s == "KeyN" || s == "KeyO" || s == "KeyP" || s == "KeyQ" || s == "KeyR" {
      NamesKeyJToKeyR(s);
    } else if s == "KeyS" || s == "KeyT" || s == "KeyU" || s == "KeyV" || s == "KeyW" || s == "KeyX" || s == "KeyY" || s == "KeyZ" {
      NamesKeySToKeyZ(s);
    } else {
      UnnamedOfLength4(s);
    }
  }

  lemma NamesKeyAToKeyI(s: string)
    requires s == "KeyA" || s == "KeyB" || s == "KeyC" || s == "KeyD" || s == "KeyE" || s == "KeyF" || s == "KeyG" || s == "KeyH" || s == "KeyI"
    ensures DeserializeKeycode(s) != F35 ==> SerializeKeycode(DeserializeKeycode(s)) == s
    ensures DeserializeKeycode(s) == F35 ==> SerializeKeycode(DeserializeKeycode(s)) == "F35"
  {
    if s == "KeyA" || s == "KeyB" || s == "KeyC" {
      NamesKeyAToKeyC(s);
    } else if s == "KeyD" || s == "KeyE" || s == "KeyF" {
      NamesKeyDToKeyF(s);
    } else if s == "KeyG" || s == "KeyH" || s == "KeyI" {
      NamesKeyGToKeyI(s);
    }
  }

  lemma NamesKeyJToKeyR(s: string)
    requires s == "KeyJ" || s == "KeyK" || s == "KeyL" || s == "KeyM" || s == "KeyN" || s == "KeyO" || s == "KeyP" || s == "KeyQ" || s == "KeyR"
    ensures DeserializeKeycode(s) != F35 ==> SerializeKeycode(DeserializeKeycode(s)) == s
    ensures DeserializeKeycode(s) == F35 ==> SerializeKeycode(DeserializeKeycode(s)) == "F35"
  {
    if s == "KeyJ" || s == "KeyK" || s == "KeyL" {
      NamesKeyJToKeyL(s);
    } else if s == "KeyM" || s == "KeyN" || s == "KeyO" {
      NamesKeyMToKeyO(s);
    } else if s == "KeyP" || s == "KeyQ" || s == "KeyR" {
      NamesKeyPToKeyR(s);
    }
  }

  lemma NamesKeySToKeyZ(s: string)
    requires s == "KeyS" || s == "KeyT" || s == "KeyU" || s == "KeyV" || s == "KeyW" || s == "KeyX" || s == "KeyY" || s == "KeyZ"
    ensures DeserializeKeycode(s) != F35 ==> SerializeKeycode(DeserializeKeycode(s)) == s
    ensures DeserializeKeycode(s) == F35 ==> SerializeKeycode(DeserializeKeycode(s)) == "F35"
  {
    if s == "KeyS" || s == "KeyT" || s == "KeyU" {
      NamesKeySToKeyU(s);
    } else if s == "KeyV" || s == "KeyW" || s == "KeyX" {
      NamesKeyVToKeyX(s);
    } else if s == "KeyY" || s == "KeyZ" {
      NamesKeyYToKeyZ(s);
    }
  }

  lemma UnnamedOfLength4(s: string)
    requires |s| == 4 && s != "KeyA" && s != "KeyB" && s != "KeyC" && s != "KeyD" && s != "KeyE" && s != "KeyF" && s != "KeyG" && s != "KeyH" && s != "KeyI" && s != "KeyJ" && s != "KeyK" && s != "KeyL" && s != "KeyM" && s != "KeyN" && s != "KeyO" && s != "KeyP" && s != "KeyQ" && s != "KeyR" && s != "KeyS" && s != "KeyT" && s != "KeyU" && s != "KeyV" && s != "KeyW" && s != "KeyX" && s != "KeyY" && s != "KeyZ"
    ensures DeserializeKeycode(s) == F35
  {
  }

  lemma NamesKeyAToKeyC(s: string)
    requires s == "KeyA" || s == "KeyB" || s == "KeyC"
    ensures DeserializeKeycode(s) != F35 ==> SerializeKeycode(DeserializeKeycode(s)) == s
    ensures DeserializeKeycode(s) == F35 ==> SerializeKeycode(DeserializeKeycode(s)) == "F35"
  {
    if s == "KeyA" {
      ReadsBackKeyA();
    } else if s == "KeyB" {
      ReadsBackKeyB();
    } else if s == "KeyC" {
      ReadsBackKeyC();
    }
  }

  lemma NamesKeyDToKeyF(s: string)
    requires s == "KeyD" || s == "KeyE" || s == "KeyF"
    ensures DeserializeKeycode(s) != F35 ==> SerializeKeycode(DeserializeKeycode(s)) == s
    ensures DeserializeKeycode(s) == F35 ==> SerializeKeycode(DeserializeKeycode(s)) == "F35"
  {
    if s == "KeyD" {
      ReadsBackKeyD();
    } else if s == "KeyE" {
      ReadsBackKeyE();
    } else if s == "KeyF" {
      ReadsBackKeyF();
    }
  }

  lemma NamesKeyGToKeyI(s: string)
    requires s == "KeyG" || s == "KeyH" || s == "KeyI"
    ensures DeserializeKeycode(s) != F35 ==> SerializeKeycode(DeserializeKeycode(s)) == s
    ensures DeserializeKeycode(s) == F35 ==> SerializeKeycode(DeserializeKeycode(s)) == "F35"
  {
    if s == "KeyG" {
      ReadsBackKeyG();
    } else if s == "KeyH" {
      ReadsBackKeyH();
    } else if s == "KeyI" {
      ReadsBackKeyI();
    }
  }

  lemma NamesKeyJToKeyL(s: string)
    requires s == "KeyJ" || s == "KeyK" || s == "KeyL"
    ensures DeserializeKeycode(s) != F35 ==> SerializeKeycode(DeserializeKeycode(s)) == s
    ensures DeserializeKeycode(s) == F35 ==> SerializeKeycode(DeserializeKeycode(s)) == "F35"
  {
    if s == "KeyJ" {
      ReadsBackKeyJ();
    } else if s == "KeyK" {
      ReadsBackKeyK();
    } else if s == "KeyL" {
      ReadsBackKeyL();
    }
  }

  lemma NamesKeyMToKeyO(s: string)
    requires s == "KeyM" || s == "KeyN" || s == "KeyO"
    ensures DeserializeKeycode(s) != F35 ==> SerializeKeycode(DeserializeKeycode(s)) == s
    ensures DeserializeKeycode(s) == F35 ==> SerializeKeycode(DeserializeKeycode(s)) == "F35"
  {
    if s == "KeyM" {
      ReadsBackKeyM();
    } else if s == "KeyN" {
      ReadsBackKeyN();
    } else if s == "KeyO" {
      ReadsBackKeyO();
    }
  }

  lemma NamesKeyPToKeyR(s: string)
    requires s == "KeyP" || s == "KeyQ" || s == "KeyR"
    ensures DeserializeKeycode(s) != F35 ==> SerializeKeycode(DeserializeKeycode(s)) == s
    ensures DeserializeKeycode(s) == F35 ==> SerializeKeycode(DeserializeKeycode(s)) == "F35"
  {
    if s == "KeyP" {
      ReadsBackKeyP();
    } else if s == "KeyQ" {
      ReadsBackKeyQ();
    } else if s == "KeyR" {
      ReadsBackKeyR();
    }
  }

  lemma NamesKeySToKeyU(s: string)
    requires s == "KeyS" || s == "KeyT" || s == "KeyU"
    ensures DeserializeKeycode(s) != F35 ==> SerializeKeycode(DeserializeKeycode(s)) == s
    ensures DeserializeKeycode(s) == F35 ==> SerializeKeycode(DeserializeKeycode(s)) == "F35"
  {
    if s == "KeyS" {
      ReadsBackKeyS();
    } else if s == "KeyT" {
      ReadsBackKeyT();
    } else if s == "KeyU" {
      ReadsBackKeyU();
    }
  }

  lemma NamesKeyVToKeyX(s: string)
    requires s == "KeyV" || s == "KeyW" || s == "KeyX"
    ensures DeserializeKeycode(s) != F35 ==> SerializeKeycode(DeserializeKeycode(s)) == s
    ensures DeserializeKeycode(s) == F35 ==> SerializeKeycode(DeserializeKeycode(s)) == "F35"
  {
    if s == "KeyV" {
      ReadsBackKeyV();
    } else if s == "KeyW" {
      ReadsBackKeyW();
    } else if s == "KeyX" {
      ReadsBackKeyX();
    }
  }

  lemma NamesKeyYToKeyZ(s: string)
    requires s == "KeyY" || s == "KeyZ"
    ensures DeserializeKeycode(s) != F35 ==> SerializeKeycode(DeserializeKeycode(s)) == s
    ensures DeserializeKeycode(s) == F35 ==> SerializeKeycode(DeserializeKeycode(s)) == "F35"
  {
    if s == "KeyY" {
      ReadsBackKeyY();
    } else if s == "KeyZ" {
      ReadsBackKeyZ();
    }
  }

  lemma NamesOfLength5(s: string)
    requires |s| == 5
    ensures DeserializeKeycode(s) != F35 ==> SerializeKeycode(DeserializeKeycode(s)) == s
    ensures DeserializeKeycode(s) == F35 ==> SerializeKeycode(DeserializeKeycode(s)) == "F35"
  {
    if s == "Space" {
      ReadsBackSpace();
    } else {
      UnnamedOfLength5(s);
    }
  }

  lemma UnnamedOfLength5(s: string)
    requires |s| == 5 && s != "Space"
    ensures DeserializeKeycode(s) == F35
  {
  }

  lemma NamesOfLength6(s: string)
    requires |s| == 6
    ensures DeserializeKeycode(s) != F35 ==> SerializeKeycode(DeserializeKeycode(s)) == s
    ensures DeserializeKeycode(s) == F35 ==> SerializeKeycode(DeserializeKeycode(s)) == "F35"
  {
    if s == "Digit1" || s == "Digit2" || s == "Digit3" {
      NamesDigit1ToDigit3(s);
    } else if s == "Digit4" || s == "Digit5" || s == "Digit6" {
      NamesDigit4ToDigit6(s);
    } else if s == "Digit7" || s == "Digit8" || s == "Digit9" {
      NamesDigit7ToDigit9(s);
    } else if s == "Digit0" || s == "Escape" {
      NamesDigit0ToEscape(s);
    } else {
      UnnamedOfLength6(s);
    }
  }

  lemma UnnamedOfLength6(s: string)
    requires |s| == 6 && s != "Digit1" && s != "Digit2" && s != "Digit3" && s != "Digit4" && s != "Digit5" && s != "Digit6" && s != "Digit7" && s != "Digit8" && s != "Digit9" && s != "Digit0" && s != "Escape"
    ensures DeserializeKeycode(s) == F35
  {
  }

  lemma NamesDigit1ToDigit3(s: string)
    requires s == "Digit1" || s == "Digit2" || s == "Digit3"
    ensures DeserializeKeycode(s) != F35 ==> SerializeKeycode(DeserializeKeycode(s)) == s
    ensures DeserializeKeycode(s) == F35 ==> SerializeKeycode(DeserializeKeycode(s)) == "F35"
  {
    if s == "Digit1" {
      ReadsBackDigit1();
    } else if s == "Digit2" {
      ReadsBackDigit2();
    } else if s == "Digit3" {
      ReadsBackDigit3();
    }
  }

  lemma NamesDigit4ToDigit6(s: string)
    requires s == "Digit4" || s == "Digit5" || s == "Digit6"
    ensures DeserializeKeycode(s) != F35 ==> SerializeKeycode(DeserializeKeycode(s)) == s
    ensures DeserializeKeycode(s) == F35 ==> SerializeKeycode(DeserializeKeycode(s)) == "F35"
  {
    if s == "Digit4" {
      ReadsBackDigit4();
    } else if s == "Digit5" {
      ReadsBackDigit5();
    } else if s == "Digit6" {
      ReadsBackDigit6();
    }
  }

  lemma NamesDigit7ToDigit9(s: string)
    requires s == "Digit7" || s == "Digit8" || s == "Digit9"
    ensures DeserializeKeycode(s) != F35 ==> SerializeKeycode(DeserializeKeycode(s)) == s
    ensures DeserializeKeycode(s) == F35 ==> SerializeKeycode(DeserializeKeycode(s)) == "F35"
  {
    if s == "Digit7" {
      ReadsBackDigit7();
    } else if s == "Digit8" {
      ReadsBackDigit8();
    } else if s == "Digit9" {
      ReadsBackDigit9();
    }
  }

  lemma NamesDigit0ToEscape(s: string)
    requires s == "Digit0" || s == "Escape"
    ensures DeserializeKeycode(s) != F35 ==> SerializeKeycode(DeserializeKeycode(s)) == s
    ensures DeserializeKeycode(s) == F35 ==> SerializeKeycode(DeserializeKeycode(s)) == "F35"
  {
    if s == "Digit0" {
      ReadsBackDigit0();
    } else if s == "Escape" {
      ReadsBackEscape();
    }
  }
}
