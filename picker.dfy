/**
  The HSV colour picker of the settings screen. A swatch opens it on one of the arena, target
  and Fresnel colours; three bars move its hue, saturation and brightness; Apply writes the
  picked colour into the colour it was opened on and closes it; Close and Escape only close it.
  Its whole state lives in `Settings`: `color_picker_open`, `picker_target` and the three
  `picker_*` components.
*/
module Picker {
  import opened Wrappers
  import opened Numerics
  import opened Types
  import opened Resources
  import opened Camera

  // ---------------------------------------------------------------- the colours a picker edits

  /** The HSL components of the colour `t` names. */
  function ColorTriple(st: SettingsState, t: ColorTarget): (real, real, real) {
    match t
    case ArenaColor => (st.arenaH, st.arenaS, st.arenaL)
    case TargetColor => (st.targetH, st.targetS, st.targetL)
    case FresnelColor => (st.fresnelH, st.fresnelS, st.fresnelL)
  }

  /** `arena_color()`, `target_color()`, `fresnel_color()`. */
  function ColorOf(st: SettingsState, t: ColorTarget): Color {
    var c := ColorTriple(st, t);
    Hsl(c.0, c.1, c.2)
  }

  /** The colour the picker shows: its three components as an opaque HSV colour. */
  function PickerColor(st: SettingsState): Color {
    Hsv(st.pickerHue, st.pickerSaturation, st.pickerBrightness)
  }

  // ---------------------------------------------------------------- opening

  /** The marker components of a swatch. */
  datatype Swatch = Swatch(arena: bool, target: bool, fresnel: bool)

  /** The colour a swatch opens the picker on: the arena marker first, then target, then Fresnel. */
  function Chosen(sw: Swatch): (r: Option<ColorTarget>)
    ensures r.None? <==> !sw.arena && !sw.target && !sw.fresnel
  {
    if sw.arena then Some(ArenaColor)
    else if sw.target then Some(TargetColor)
    else if sw.fresnel then Some(FresnelColor)
    else None
  }

  /** The settings after the picker opens on colour `t`: its components start from that colour in HSV. */
  function Opened(cs: ColorSpace, st: SettingsState, t: ColorTarget): SettingsState {
    var hsv := ToHsva(cs, ColorOf(st, t));
    st.(pickerTarget := Some(t), pickerHue := hsv.hue, pickerSaturation := hsv.saturation,
        pickerBrightness := hsv.value, colorPickerOpen := true)
  }

  /** Opening the picker names the colour, opens it, and leaves every colour as it was. */
  lemma OpenedTargets(cs: ColorSpace, st: SettingsState, t: ColorTarget)
    ensures var r := Opened(cs, st, t);
      && r.colorPickerOpen && r.pickerTarget == Some(t)
      && (forall u :: ColorTriple(r, u) == ColorTriple(st, u))
      && (r.crosshairH, r.crosshairS, r.crosshairL) == (st.crosshairH, st.crosshairS, st.crosshairL)
  {
  }

  /** The picker components and target, written one at a time. */
  method StartPicker(cs: ColorSpace, settings: Settings, t: ColorTarget)
    modifies settings`pickerTarget, settings`pickerHue, settings`pickerSaturation, settings`pickerBrightness,
             settings`colorPickerOpen
    ensures settings.State() == Opened(cs, old(settings.State()), t)
  {
    settings.StorePickerTarget(Some(t));
    var color := match t {
      case ArenaColor => settings.GetArenaColor()
      case TargetColor => settings.GetTargetColor()
      case FresnelColor => settings.GetFresnelColor()
    };
    var hsv := ToHsva(cs, color);
    settings.StorePickerHue(hsv.hue);
    settings.StorePickerSaturation(hsv.saturation);
    settings.StorePickerBrightness(hsv.value);
    settings.StoreColorPickerOpen(true);
  }

  /** `handle_color_picker_clicks` for one swatch whose interaction changed. */
  method HandleColorPickerClicks(cs: ColorSpace, settings: Settings, interaction: Interaction, sw: Swatch)
    modifies settings`pickerTarget, settings`pickerHue, settings`pickerSaturation, settings`pickerBrightness,
             settings`colorPickerOpen
    ensures settings.State() == if interaction == Pressed && Chosen(sw).Some?
      then Opened(cs, old(settings.State()), Chosen(sw).value) else old(settings.State())
  {
    if interaction == Pressed {
      if sw.arena {
        StartPicker(cs, settings, ArenaColor);
      } else if sw.target {
        StartPicker(cs, settings, TargetColor);
      } else if sw.fresnel {
        StartPicker(cs, settings, FresnelColor);
      }
    }
  }

  // ---------------------------------------------------------------- closing and applying

  /** `close_color_picker`: the picker is closed and names no colour. */
  function Closed(st: SettingsState): (r: SettingsState)
    ensures !r.colorPickerOpen && r.pickerTarget == None
    ensures r.(colorPickerOpen := st.colorPickerOpen, pickerTarget := st.pickerTarget) == st
  {
    st.(colorPickerOpen := false, pickerTarget := None)
  }

  method ClosePicker(settings: Settings)
    modifies settings`colorPickerOpen, settings`pickerTarget
    ensures settings.State() == Closed(old(settings.State()))
  {
    settings.StoreColorPickerOpen(false);
    settings.StorePickerTarget(None);
  }

  /** The settings after Apply before closing: the picked colour written into the named colour, if any. */
  function Applied(cs: ColorSpace, st: SettingsState): SettingsState {
    match st.pickerTarget
    case None => st
    case Some(ArenaColor) => WithArenaColor(cs, st, PickerColor(st))
    case Some(TargetColor) => WithTargetColor(cs, st, PickerColor(st))
    case Some(FresnelColor) => WithFresnelColor(cs, st, PickerColor(st))
  }

  /** Apply writes exactly the colour the picker was opened on, with the picked colour's HSL. */
  lemma AppliedWritesTarget(cs: ColorSpace, st: SettingsState)
    ensures var r := Applied(cs, st);
      var hsl := ToHsla(cs, PickerColor(st));
      && (forall u :: Some(u) != st.pickerTarget ==> ColorTriple(r, u) == ColorTriple(st, u))
      && (st.pickerTarget.Some? ==> ColorTriple(r, st.pickerTarget.value) == (hsl.hue, hsl.saturation, hsl.lightness))
      && (r.crosshairH, r.crosshairS, r.crosshairL) == (st.crosshairH, st.crosshairS, st.crosshairL)
      && r.pickerTarget == st.pickerTarget && r.colorPickerOpen == st.colorPickerOpen
  {
  }

  /** Closing without Apply changes no colour, and closing twice is closing once. */
  lemma CloseKeepsColors(st: SettingsState)
    ensures forall u :: ColorTriple(Closed(st), u) == ColorTriple(st, u)
    ensures Closed(Closed(st)) == Closed(st)
  {
  }

  /**
    `handle_color_picker_buttons`: `apply` and `close` say whether the Apply and Close buttons
    were pressed this frame. Returns the swatch repainted with the picked colour, if any.
  */
  method HandleColorPickerButtons(cs: ColorSpace, settings: Settings, apply: bool, close: bool)
    returns (repainted: Option<(ColorTarget, Color)>)
    modifies settings
    ensures var afterApply := if apply then Closed(Applied(cs, old(settings.State()))) else old(settings.State());
      settings.State() == if close then Closed(afterApply) else afterApply
    ensures repainted == if apply && old(settings.pickerTarget).Some?
      then Some((old(settings.pickerTarget).value, PickerColor(old(settings.State())))) else None
  {
    repainted := None;
    if apply {
      var current := Hsv(settings.pickerHue, settings.pickerSaturation, settings.pickerBrightness);
      match settings.pickerTarget {
        case None =>
        case Some(ArenaColor) =>
          settings.SetArenaColor(cs, current);
          repainted := Some((ArenaColor, current));
        case Some(TargetColor) =>
          settings.SetTargetColor(cs, current);
          repainted := Some((TargetColor, current));
        case Some(FresnelColor) =>
          settings.SetFresnelColor(cs, current);
          repainted := Some((FresnelColor, current));
      }
      ClosePicker(settings);
    }
    if close {
      ClosePicker(settings);
    }
  }

  /** `handle_color_picker_escape`: Escape closes an open picker. */
  method HandleColorPickerEscape(settings: Settings, keys: Keys)
    modifies settings`colorPickerOpen, settings`pickerTarget
    ensures settings.State() == if old(settings.colorPickerOpen) && Escape in keys.justPressed
      then Closed(old(settings.State())) else old(settings.State())
  {
    if settings.colorPickerOpen && Escape in keys.justPressed {
      ClosePicker(settings);
    }
  }

  // ---------------------------------------------------------------- the three bars

  /** One pixel of travel moves saturation or brightness by this much, and hue by this times 360. */
  const Sensitivity: real := 1.0 / 300.0

  /** The bars act only while the left button is held and the travel exceeds 0.1 pixel either way. */
  predicate PickerDrags(leftPressed: bool, d: real) {
    leftPressed && Abs(d) > 0.1
  }

  /** The bars that are pressed, each found by a query that must hold exactly one bar. */
  datatype Bars = Bars(hue: bool, saturation: bool, brightness: bool)

  /** The settings after the bars moved by `d` pixels, when the picker is open. */
  function PickerSlid(st: SettingsState, bars: Bars, leftPressed: bool, d: real): (r: SettingsState)
    ensures !st.colorPickerOpen || !PickerDrags(leftPressed, d) ==> r == st
    ensures r.(pickerHue := st.pickerHue, pickerSaturation := st.pickerSaturation, pickerBrightness := st.pickerBrightness) == st
  {
    if !st.colorPickerOpen || !PickerDrags(leftPressed, d) then st
    else
      st.(pickerHue := if bars.hue then RemEuclid360(st.pickerHue + d * Sensitivity * 360.0) else st.pickerHue,
          pickerSaturation := if bars.saturation then Clamp(st.pickerSaturation + d * Sensitivity, 0.0, 1.0) else st.pickerSaturation,
          pickerBrightness := if bars.brightness then Clamp(st.pickerBrightness + d * Sensitivity, 0.0, 1.0) else st.pickerBrightness)
  }

  /** A moved hue lies in [0, 360) and a moved saturation or brightness in [0, 1]. */
  lemma PickerSlidRanges(st: SettingsState, bars: Bars, leftPressed: bool, d: real)
    requires st.colorPickerOpen && PickerDrags(leftPressed, d)
    ensures var r := PickerSlid(st, bars, leftPressed, d);
      && (bars.hue ==> 0.0 <= r.pickerHue < 360.0)
      && (bars.saturation ==> 0.0 <= r.pickerSaturation <= 1.0)
      && (bars.brightness ==> 0.0 <= r.pickerBrightness <= 1.0)
      && (!bars.hue ==> r.pickerHue == st.pickerHue)
      && (!bars.saturation ==> r.pickerSaturation == st.pickerSaturation)
      && (!bars.brightness ==> r.pickerBrightness == st.pickerBrightness)
  {
  }

  /** `handle_color_picker_sliders` for one frame of mouse-motion events. */
  method HandleColorPickerSliders(settings: Settings, motions: seq<Vec2>, leftPressed: bool, bars: Bars)
    modifies settings`pickerHue, settings`pickerSaturation, settings`pickerBrightness
    ensures settings.State() == PickerSlid(old(settings.State()), bars, leftPressed, SumDeltas(motions).x)
  {
    if !settings.colorPickerOpen {
      return;
    }
    var d := 0.0;
    for i := 0 to |motions|
      invariant d == SumDeltas(motions[..i]).x
    {
      assert motions[..i + 1][..i] == motions[..i];
      d := d + motions[i].x;
    }
    assert motions[..|motions|] == motions;
    if leftPressed && Abs(d) > 0.1 {
      if bars.hue {
        settings.StorePickerHue(RemEuclid360(settings.pickerHue + d * Sensitivity * 360.0));
      }
      if bars.saturation {
        settings.StorePickerSaturation(Clamp(settings.pickerSaturation + d * Sensitivity, 0.0, 1.0));
      }
      if bars.brightness {
        settings.StorePickerBrightness(Clamp(settings.pickerBrightness + d * Sensitivity, 0.0, 1.0));
      }
    }
  }

  // ---------------------------------------------------------------- display

  /** A gradient segment: its position among `count` segments. */
  datatype Segment = Segment(index: nat, count: nat)

  /** The parameter at the middle of a segment. */
  function SegmentParam(seg: Segment): real
    requires seg.count > 0
  {
    (seg.index as real + 0.5) / seg.count as real
  }

  /** The middle of a segment lies strictly inside (0, 1). */
  lemma SegmentParamInside(seg: Segment)
    requires seg.index < seg.count
    ensures 0.0 < SegmentParam(seg) < 1.0
  {
    var n := seg.count as real;
    var x := seg.index as real + 0.5;
    var t := x / n;
    assert t * n == x;
    if t < 0.0 {
      MulStrict(t, 0.0, n);
    }
    if t > 1.0 {
      MulStrict(1.0, t, n);
    }
  }

  /** The saturation gradient's colour at a segment: the picker's hue and brightness. */
  function SaturationSegmentColor(st: SettingsState, seg: Segment): Color
    requires seg.count > 0
  {
    Hsv(st.pickerHue, SegmentParam(seg), st.pickerBrightness)
  }

  /** The brightness gradient's colour at a segment: the picker's hue and saturation. */
  function BrightnessSegmentColor(st: SettingsState, seg: Segment): Color
    requires seg.count > 0
  {
    Hsv(st.pickerHue, st.pickerSaturation, SegmentParam(seg))
  }

  /**
    `update_color_picker_display`: when the picker is open, paints the preview with the picked
    colour and each gradient segment with its colour. Returns nothing when the picker is closed.
  */
  method UpdateColorPickerDisplay(settings: Settings, satSegments: seq<Segment>, brightSegments: seq<Segment>)
    returns (preview: Option<Color>, satColors: seq<Color>, brightColors: seq<Color>)
    requires forall i :: 0 <= i < |satSegments| ==> satSegments[i].count > 0
    requires forall i :: 0 <= i < |brightSegments| ==> brightSegments[i].count > 0
    ensures !settings.colorPickerOpen ==> preview == None && satColors == [] && brightColors == []
    ensures settings.colorPickerOpen ==> preview == Some(PickerColor(settings.State()))
    ensures settings.colorPickerOpen ==> |satColors| == |satSegments| && |brightColors| == |brightSegments|
    ensures settings.colorPickerOpen ==>
      forall i :: 0 <= i < |satSegments| ==> satColors[i] == SaturationSegmentColor(settings.State(), satSegments[i])
    ensures settings.colorPickerOpen ==>
      forall i :: 0 <= i < |brightSegments| ==> brightColors[i] == BrightnessSegmentColor(settings.State(), brightSegments[i])
  {
    preview := None;
    satColors := [];
    brightColors := [];
    if !settings.colorPickerOpen {
      return;
    }
    var st := settings.State();
    preview := Some(Hsv(settings.pickerHue, settings.pickerSaturation, settings.pickerBrightness));
    for i := 0 to |satSegments|
      invariant |satColors| == i
      invariant forall j :: 0 <= j < i ==> satColors[j] == SaturationSegmentColor(st, satSegments[j])
    {
      var t := (satSegments[i].index as real + 0.5) / satSegments[i].count as real;
      satColors := satColors + [Hsv(settings.pickerHue, t, settings.pickerBrightness)];
    }
    for i := 0 to |brightSegments|
      invariant |brightColors| == i
      invariant forall j :: 0 <= j < i ==> brightColors[j] == BrightnessSegmentColor(st, brightSegments[j])
    {
      var t := (brightSegments[i].index as real + 0.5) / brightSegments[i].count as real;
      brightColors := brightColors + [Hsv(settings.pickerHue, settings.pickerSaturation, t)];
    }
  }

  /** `update_color_picker_handles`: the three handles' left offsets in percent, when the picker is open. */
  function HandlePositions(st: SettingsState): (r: Option<(real, real, real)>)
    ensures r.Some? <==> st.colorPickerOpen
  {
    if !st.colorPickerOpen then None
    else Some((st.pickerHue / 360.0 * 100.0, st.pickerSaturation * 100.0, st.pickerBrightness * 100.0))
  }

  /** Components in their ranges put every handle between 0 and 100 percent of its bar. */
  lemma HandlesOnBars(st: SettingsState)
    requires st.colorPickerOpen
    requires 0.0 <= st.pickerHue < 360.0
    requires 0.0 <= st.pickerSaturation <= 1.0 && 0.0 <= st.pickerBrightness <= 1.0
    ensures var p := HandlePositions(st).value;
      0.0 <= p.0 < 100.0 && 0.0 <= p.1 <= 100.0 && 0.0 <= p.2 <= 100.0
  {
    DivBounds(st.pickerHue, 360.0, 0.0, 360.0);
  }
}
