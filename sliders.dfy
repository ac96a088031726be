/**
  `settings_slider_system`: dragging one of the six arena and target HSL bars with the left
  mouse button moves its setting by the frame's horizontal mouse travel, 200 pixels being the
  whole range, and resizes the bar's fill.
*/
module Sliders {
  import opened Wrappers
  import opened Numerics
  import opened Resources
  import opened Camera

  /** The six bars. */
  datatype Slider = ArenaHue | ArenaSaturation | ArenaLightness | TargetHue | TargetSaturation | TargetLightness

  /** One pixel of travel moves a saturation or lightness by this much, and a hue by this times 360. */
  const Scale: real := 1.0 / 200.0

  /** Full width of a bar's fill, in pixels. */
  const BarWidth: real := 200.0

  /** The bars in the order `settings_slider_system` visits them. */
  const Bars: seq<Slider> := [ArenaHue, ArenaSaturation, ArenaLightness, TargetHue, TargetSaturation, TargetLightness]

  predicate IsHue(s: Slider) {
    s == ArenaHue || s == TargetHue
  }

  /** The setting a bar moves. */
  function SliderValue(st: SettingsState, s: Slider): real {
    match s
    case ArenaHue => st.arenaH
    case ArenaSaturation => st.arenaS
    case ArenaLightness => st.arenaL
    case TargetHue => st.targetH
    case TargetSaturation => st.targetS
    case TargetLightness => st.targetL
  }

  /** The settings with the setting of bar `s` replaced by `v`. */
  function WithSlider(st: SettingsState, s: Slider, v: real): (r: SettingsState)
    ensures SliderValue(r, s) == v
    ensures forall o :: o != s ==> SliderValue(r, o) == SliderValue(st, o)
    ensures r.(arenaH := st.arenaH, arenaS := st.arenaS, arenaL := st.arenaL,
               targetH := st.targetH, targetS := st.targetS, targetL := st.targetL) == st
  {
    match s
    case ArenaHue => st.(arenaH := v)
    case ArenaSaturation => st.(arenaS := v)
    case ArenaLightness => st.(arenaL := v)
    case TargetHue => st.(targetH := v)
    case TargetSaturation => st.(targetS := v)
    case TargetLightness => st.(targetL := v)
  }

  /** The hue after a drag as the source computes it: f32 `%` by 360, then 360 added to a negative result. */
  function WrappedHue(v: real, dx: real): real {
    var r := FMod360(v + dx * Scale * 360.0);
    if r < 0.0 then r + 360.0 else r
  }

  /** The wrapped hue is the Euclidean remainder modulo 360, hence a hue in [0, 360). */
  lemma WrappedHueIsRemEuclid(v: real, dx: real)
    ensures WrappedHue(v, dx) == RemEuclid360(v + dx * Scale * 360.0)
    ensures 0.0 <= WrappedHue(v, dx) < 360.0
  {
  }

  /** The setting of bar `s` after a drag of `dx` pixels from `v`. */
  function Dragged(s: Slider, v: real, dx: real): (r: real)
    ensures IsHue(s) ==> 0.0 <= r < 360.0
    ensures !IsHue(s) ==> 0.0 <= r <= 1.0
  {
    if IsHue(s) then WrappedHue(v, dx) else Clamp(v + dx * Scale, 0.0, 1.0)
  }

  /** The width of a bar's fill for setting `v`. */
  function FillWidth(s: Slider, v: real): real {
    if IsHue(s) then BarWidth * (v / 360.0) else BarWidth * v
  }

  /** A fill drawn for a setting the bar can hold is between empty and the whole bar. */
  lemma FillWithinBar(s: Slider, v: real)
    requires IsHue(s) ==> 0.0 <= v < 360.0
    requires !IsHue(s) ==> 0.0 <= v <= 1.0
    ensures 0.0 <= FillWidth(s, v) <= BarWidth
  {
    if IsHue(s) {
      DivBounds(v, 360.0, 0.0, 360.0);
    }
  }

  /** A bar moves only while the left button is held and the mouse travelled sideways. */
  predicate Drags(leftPressed: bool, dx: real) {
    leftPressed && dx != 0.0
  }

  /** The setting of bar `s` after `apply_hsl`, which moves it only when `on`. */
  function Moved(s: Slider, on: bool, v: real, dx: real): real {
    if on then Dragged(s, v, dx) else v
  }

  /** Whether bar `s` moves this frame: its interaction turned to Pressed, with a drag in progress. */
  predicate Moves(s: Slider, pressed: set<Slider>, leftPressed: bool, dx: real) {
    s in pressed && Drags(leftPressed, dx)
  }

  /** The settings after a frame: each pressed bar moved by the frame's travel, every other setting kept. */
  function SlidSettings(st: SettingsState, pressed: set<Slider>, leftPressed: bool, dx: real): (r: SettingsState)
    ensures forall s :: SliderValue(r, s) == Moved(s, Moves(s, pressed, leftPressed, dx), SliderValue(st, s), dx)
    ensures r.(arenaH := st.arenaH, arenaS := st.arenaS, arenaL := st.arenaL,
               targetH := st.targetH, targetS := st.targetS, targetL := st.targetL) == st
  {
    st.(arenaH := Moved(ArenaHue, Moves(ArenaHue, pressed, leftPressed, dx), st.arenaH, dx),
        arenaS := Moved(ArenaSaturation, Moves(ArenaSaturation, pressed, leftPressed, dx), st.arenaS, dx),
        arenaL := Moved(ArenaLightness, Moves(ArenaLightness, pressed, leftPressed, dx), st.arenaL, dx),
        targetH := Moved(TargetHue, Moves(TargetHue, pressed, leftPressed, dx), st.targetH, dx),
        targetS := Moved(TargetSaturation, Moves(TargetSaturation, pressed, leftPressed, dx), st.targetS, dx),
        targetL := Moved(TargetLightness, Moves(TargetLightness, pressed, leftPressed, dx), st.targetL, dx))
  }

  /** Without a held left button or with no sideways travel nothing changes. */
  lemma StillWithoutDrag(st: SettingsState, pressed: set<Slider>, leftPressed: bool, dx: real)
    requires !Drags(leftPressed, dx)
    ensures SlidSettings(st, pressed, leftPressed, dx) == st
  {
  }

  /** Assigns the setting of bar `s`. */
  method StoreSlider(settings: Settings, s: Slider, v: real)
    modifies settings
    ensures settings.State() == WithSlider(old(settings.State()), s, v)
  {
    match s
    case ArenaHue => settings.StoreArenaH(v);
    case ArenaSaturation => settings.StoreArenaS(v);
    case ArenaLightness => settings.StoreArenaL(v);
    case TargetHue => settings.StoreTargetH(v);
    case TargetSaturation => settings.StoreTargetS(v);
    case TargetLightness => settings.StoreTargetL(v);
  }

  /** The settings after `apply_hsl` for bar `s`, which moves it only when `on`. */
  function Step(st: SettingsState, s: Slider, on: bool, dx: real): SettingsState {
    WithSlider(st, s, Moved(s, on, SliderValue(st, s), dx))
  }

  /** Applying the six bars one after another, in source order, gives the frame's settings. */
  lemma StepsCompose(st: SettingsState, pressed: set<Slider>, leftPressed: bool, dx: real)
    ensures
      var s1 := Step(st, ArenaHue, Moves(ArenaHue, pressed, leftPressed, dx), dx);
      var s2 := Step(s1, ArenaSaturation, Moves(ArenaSaturation, pressed, leftPressed, dx), dx);
      var s3 := Step(s2, ArenaLightness, Moves(ArenaLightness, pressed, leftPressed, dx), dx);
      var s4 := Step(s3, TargetHue, Moves(TargetHue, pressed, leftPressed, dx), dx);
      var s5 := Step(s4, TargetSaturation, Moves(TargetSaturation, pressed, leftPressed, dx), dx);
      Step(s5, TargetLightness, Moves(TargetLightness, pressed, leftPressed, dx), dx) == SlidSettings(st, pressed, leftPressed, dx)
  {
  }

  /** The new value of a bar that moves, as `apply_hsl` computes it. */
  method DragValue(s: Slider, v: real, dx: real) returns (moved: real)
    ensures moved == Dragged(s, v, dx)
  {
    if IsHue(s) {
      moved := FMod360(v + dx * Scale * 360.0);
      if moved < 0.0 {
        moved := moved + 360.0;
      }
    } else {
      moved := Clamp(v + dx * Scale, 0.0, 1.0);
    }
  }

  /** The `apply_hsl` closure for bar `s`, run when its interaction is Pressed; `on` is its drag gate. Returns the fill width drawn. */
  method ApplyHsl(settings: Settings, s: Slider, on: bool, dx: real) returns (fill: Option<real>)
    modifies settings
    ensures settings.State() == Step(old(settings.State()), s, on, dx)
    ensures fill == if on then Some(FillWidth(s, SliderValue(settings.State(), s))) else None
  {
    fill := None;
    if on {
      var moved := DragValue(s, SliderValue(settings.State(), s), dx);
      StoreSlider(settings, s, moved);
      fill := Some(if IsHue(s) then BarWidth * (moved / 360.0) else BarWidth * moved);
    } else {
      WithSliderSame(settings.State(), s);
    }
  }

  lemma WithSliderSame(st: SettingsState, s: Slider)
    ensures WithSlider(st, s, SliderValue(st, s)) == st
  {
    match s
    case ArenaHue =>
    case ArenaSaturation =>
    case ArenaLightness =>
    case TargetHue =>
    case TargetSaturation =>
    case TargetLightness =>
  }

  /** The six bar loops of `settings_slider_system`, after the frame's travel `dx` is known. */
  method SlideAll(settings: Settings, pressed: set<Slider>, leftPressed: bool, dx: real)
    returns (fills: seq<Option<real>>)
    modifies settings
    ensures settings.State() == SlidSettings(old(settings.State()), pressed, leftPressed, dx)
    ensures |fills| == 6
  {
    ghost var st := settings.State();
    fills := [];
    var fill: Option<real>;
    fill := ApplyHsl(settings, ArenaHue, Moves(ArenaHue, pressed, leftPressed, dx), dx);
    fills := fills + [fill];
    fill := ApplyHsl(settings, ArenaSaturation, Moves(ArenaSaturation, pressed, leftPressed, dx), dx);
    fills := fills + [fill];
    fill := ApplyHsl(settings, ArenaLightness, Moves(ArenaLightness, pressed, leftPressed, dx), dx);
    fills := fills + [fill];
    fill := ApplyHsl(settings, TargetHue, Moves(TargetHue, pressed, leftPressed, dx), dx);
    fills := fills + [fill];
    fill := ApplyHsl(settings, TargetSaturation, Moves(TargetSaturation, pressed, leftPressed, dx), dx);
    fills := fills + [fill];
    fill := ApplyHsl(settings, TargetLightness, Moves(TargetLightness, pressed, leftPressed, dx), dx);
    fills := fills + [fill];
    StepsCompose(st, pressed, leftPressed, dx);
  }

  /**
    `settings_slider_system` for one frame: `motions` are the frame's mouse-motion events and
    `pressed` the bars whose interaction turned to Pressed. Returns, bar by bar in `Bars` order,
    the fill width drawn.
  */
  method SettingsSliderSystem(settings: Settings, motions: seq<Vec2>, leftPressed: bool, pressed: set<Slider>)
    returns (fills: seq<Option<real>>)
    modifies settings
    ensures settings.State() == SlidSettings(old(settings.State()), pressed, leftPressed, SumDeltas(motions).x)
    ensures |fills| == 6
  {
    var dx := 0.0;
    for i := 0 to |motions|
      invariant dx == SumDeltas(motions[..i]).x
    {
      assert motions[..i + 1][..i] == motions[..i];
      dx := dx + motions[i].x;
    }
    assert motions[..|motions|] == motions;
    fills := SlideAll(settings, pressed, leftPressed, dx);
  }
}
