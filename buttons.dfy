/**
  The settings screen's buttons: the fullscreen toggle, the Fresnel checkbox, and the
  preset, navigation and hover feedback of `settings_button_system`.
*/
module Buttons {
  import opened Wrappers
  import opened Numerics
  import opened Types
  import opened Resources

  // ---------------------------------------------------------------- fullscreen

  /** Bevy's `MonitorSelection`. */
  datatype MonitorSelection = Current | Primary | Index(n: nat)

  /** Bevy's `WindowMode`. */
  datatype WindowMode =
    | Windowed
    | BorderlessFullscreen(monitor: MonitorSelection)
    | SizedFullscreen(monitor: MonitorSelection)
    | Fullscreen(monitor: MonitorSelection)

  /** The primary window, of which the toggle changes only the mode. */
  class Window {
    var mode: WindowMode

    constructor(m: WindowMode)
      ensures mode == m
    {
      mode := m;
    }
  }

  /** The mode after one press: windowed goes borderless on the primary monitor, any other mode goes windowed. */
  function Toggled(m: WindowMode): (r: WindowMode)
    ensures r.Windowed? != m.Windowed?
  {
    match m
    case Windowed => BorderlessFullscreen(Primary)
    case _ => Windowed
  }

  /** Two presses from windowed come back to windowed; from any full-screen mode they settle on borderless. */
  lemma ToggleTwice(m: WindowMode)
    ensures Toggled(Toggled(m)) == if m.Windowed? then Windowed else BorderlessFullscreen(Primary)
    ensures m == Windowed || m == BorderlessFullscreen(Primary) ==> Toggled(Toggled(m)) == m
  {
  }

  /**
    `handle_fullscreen_toggle`: `interaction` is the toggle's interaction if it changed this frame.
    Only a press changes the window.
  */
  method HandleFullscreenToggle(interaction: Option<Interaction>, window: Window)
    modifies window
    ensures window.mode == if interaction == Some(Pressed) then Toggled(old(window.mode)) else old(window.mode)
  {
    if interaction == Some(Pressed) {
      window.mode := match window.mode {
        case Windowed => BorderlessFullscreen(Primary)
        case _ => Windowed
      };
    }
  }

  // ---------------------------------------------------------------- Fresnel checkbox

  /** `UI_COLORS.success`. */
  const Success: Color := Hsl(120.0, 0.8, 0.5)

  /** `UI_COLORS.surface_light`. */
  const SurfaceLight: Color := HslaColor(Hsla(220.0, 0.1, 0.15, 0.8))

  /** The checkbox background for a Fresnel switch that is on or off. */
  function CheckboxBackground(enabled: bool): Color {
    if enabled then Success else SurfaceLight
  }

  /** The settings after the checkbox is pressed: the Fresnel switch flipped. */
  function FresnelFlipped(st: SettingsState): (r: SettingsState)
    ensures r.fresnelEnabled != st.fresnelEnabled
    ensures r.(fresnelEnabled := st.fresnelEnabled) == st
  {
    st.(fresnelEnabled := !st.fresnelEnabled)
  }

  /** Pressing the checkbox twice restores the settings. */
  lemma FresnelTwice(st: SettingsState)
    ensures FresnelFlipped(FresnelFlipped(st)) == st
  {
  }

  /**
    `handle_fresnel_clicks` for one checkbox whose interaction changed: a press flips the switch
    and paints the background after the new value; `bg` is the background before.
  */
  method HandleFresnelClicks(settings: Settings, interaction: Interaction, bg: Color) returns (bgAfter: Color)
    modifies settings`fresnelEnabled
    ensures settings.State() == if interaction == Pressed then FresnelFlipped(old(settings.State())) else old(settings.State())
    ensures bgAfter == if interaction == Pressed then CheckboxBackground(settings.fresnelEnabled) else bg
  {
    bgAfter := bg;
    if interaction == Pressed {
      settings.StoreFresnelEnabled(!settings.fresnelEnabled);
      bgAfter := if settings.fresnelEnabled then Success else SurfaceLight;
    }
  }

  // ---------------------------------------------------------------- settings buttons

  /** The marker components a settings button carries. */
  datatype ButtonRole = ButtonRole(arena: bool, target: bool, back: bool, start: bool, discord: bool)

  /** The next arena hue in the cycle cyan (180) → yellow (60) → magenta (300) → cyan. */
  function NextArenaHue(h: real): (r: real)
    ensures r == 60.0 || r == 300.0 || r == 180.0
    ensures -1.0 < h - 180.0 < 1.0 ==> r == 60.0
    ensures -1.0 < h - 60.0 < 1.0 ==> r == 300.0
    ensures !(-1.0 < h - 180.0 < 1.0) && !(-1.0 < h - 60.0 < 1.0) ==> r == 180.0
  {
    if Abs(h - 180.0) < 1.0 then 60.0
    else if Abs(h - 60.0) < 1.0 then 300.0
    else 180.0
  }

  /** The next target hue in the cycle red (0) → green (120) → blue (240) → red; any hue below 1 counts as red. */
  function NextTargetHue(h: real): (r: real)
    ensures r == 120.0 || r == 240.0 || r == 0.0
    ensures h < 1.0 ==> r == 120.0
    ensures -1.0 < h - 120.0 < 1.0 ==> r == 240.0
    ensures h >= 1.0 && !(-1.0 < h - 120.0 < 1.0) ==> r == 0.0
  {
    if h < 1.0 then 120.0
    else if Abs(h - 120.0) < 1.0 then 240.0
    else 0.0
  }

  /** The settings after the arena-colour button: the next preset hue, full saturation, half lightness. */
  function ArenaPreset(st: SettingsState): (r: SettingsState)
    ensures r.arenaS == 1.0 && r.arenaL == 0.5
    ensures r.(arenaH := st.arenaH, arenaS := st.arenaS, arenaL := st.arenaL) == st
  {
    st.(arenaH := NextArenaHue(st.arenaH), arenaS := 1.0, arenaL := 0.5)
  }

  /** The settings after the target-colour button. */
  function TargetPreset(st: SettingsState): (r: SettingsState)
    ensures r.targetS == 1.0 && r.targetL == 0.5
    ensures r.(targetH := st.targetH, targetS := st.targetS, targetL := st.targetL) == st
  {
    st.(targetH := NextTargetHue(st.targetH), targetS := 1.0, targetL := 0.5)
  }

  /** Starting from cyan, three presses of the arena button come back to cyan. */
  lemma ArenaCycle(st: SettingsState)
    requires st.arenaH == 180.0
    ensures ArenaPreset(st).arenaH == 60.0
    ensures ArenaPreset(ArenaPreset(st)).arenaH == 300.0
    ensures ArenaPreset(ArenaPreset(ArenaPreset(st))).arenaH == 180.0
  {
  }

  /** After the first press the arena presets repeat with period three, whatever the starting hue. */
  lemma ArenaPeriodic(st: SettingsState)
    ensures ArenaPreset(ArenaPreset(ArenaPreset(ArenaPreset(st)))) == ArenaPreset(st)
  {
    var h := ArenaPreset(st).arenaH;
    if h == 60.0 {
      assert ArenaPreset(ArenaPreset(st)).arenaH == 300.0;
    } else if h == 300.0 {
      assert ArenaPreset(ArenaPreset(st)).arenaH == 180.0;
    } else {
      assert ArenaPreset(ArenaPreset(st)).arenaH == 60.0;
    }
  }

  /** Starting from red, three presses of the target button come back to red. */
  lemma TargetCycle(st: SettingsState)
    requires st.targetH == 0.0
    ensures TargetPreset(st).targetH == 120.0
    ensures TargetPreset(TargetPreset(st)).targetH == 240.0
    ensures TargetPreset(TargetPreset(TargetPreset(st))).targetH == 0.0
  {
  }

  /** After the first press the target presets repeat with period three. */
  lemma TargetPeriodic(st: SettingsState)
    ensures TargetPreset(TargetPreset(TargetPreset(TargetPreset(st)))) == TargetPreset(st)
  {
    var h := TargetPreset(st).targetH;
    if h == 120.0 {
      assert TargetPreset(TargetPreset(st)).targetH == 240.0;
    } else if h == 240.0 {
      assert TargetPreset(TargetPreset(st)).targetH == 0.0;
    } else {
      assert TargetPreset(TargetPreset(st)).targetH == 120.0;
    }
  }

  /** The settings after a press on a button with `role`: the arena preset, then the target preset. */
  function PressedSettings(st: SettingsState, role: ButtonRole): SettingsState {
    var a := if role.arena then ArenaPreset(st) else st;
    if role.target then TargetPreset(a) else a
  }

  /** A button's background for its interaction: dark grey when pressed, lighter when hovered, blue for the Discord link. */
  function ButtonBackground(interaction: Interaction, discord: bool): Color {
    match interaction
    case Pressed => Srgb(0.3, 0.3, 0.3)
    case Hovered => if discord then Srgb(0.2, 0.2, 0.5) else Srgb(0.35, 0.35, 0.35)
    case NoInteraction => if discord then Srgb(0.1, 0.1, 0.3) else Srgb(0.2, 0.2, 0.2)
  }

  /** The state change a press requests: Back and Start both lead to the game. */
  function ButtonRequest(interaction: Interaction, role: ButtonRole): (r: Option<AppState>)
    ensures r.Some? <==> interaction == Pressed && (role.back || role.start)
    ensures r.Some? ==> r.value == AppState.Game
  {
    if interaction == Pressed && (role.back || role.start) then Some(AppState.Game) else None
  }

  method PressArena(settings: Settings)
    modifies settings`arenaH, settings`arenaS, settings`arenaL
    ensures settings.State() == ArenaPreset(old(settings.State()))
  {
    var current := settings.arenaH;
    if Abs(current - 180.0) < 1.0 {
      settings.StoreArenaH(60.0);
    } else if Abs(current - 60.0) < 1.0 {
      settings.StoreArenaH(300.0);
    } else {
      settings.StoreArenaH(180.0);
    }
    settings.StoreArenaS(1.0);
    settings.StoreArenaL(0.5);
  }

  method PressTarget(settings: Settings)
    modifies settings`targetH, settings`targetS, settings`targetL
    ensures settings.State() == TargetPreset(old(settings.State()))
  {
    var current := settings.targetH;
    if current < 1.0 {
      settings.StoreTargetH(120.0);
    } else if Abs(current - 120.0) < 1.0 {
      settings.StoreTargetH(240.0);
    } else {
      settings.StoreTargetH(0.0);
    }
    settings.StoreTargetS(1.0);
    settings.StoreTargetL(0.5);
  }

  /**
    `settings_button_system` for one button whose interaction changed: returns its new background
    and the state change it requests.
  */
  method SettingsButtonSystem(settings: Settings, interaction: Interaction, role: ButtonRole)
    returns (bg: Color, next: Option<AppState>)
    modifies settings`arenaH, settings`arenaS, settings`arenaL, settings`targetH, settings`targetS, settings`targetL
    ensures settings.State() == if interaction == Pressed then PressedSettings(old(settings.State()), role) else old(settings.State())
    ensures bg == ButtonBackground(interaction, role.discord)
    ensures next == ButtonRequest(interaction, role)
  {
    next := None;
    match interaction
    case Pressed =>
      bg := Srgb(0.3, 0.3, 0.3);
      if role.arena {
        PressArena(settings);
      }
      if role.target {
        PressTarget(settings);
      }
      if role.back {
        next := Some(AppState.Game);
      }
      if role.start {
        next := Some(AppState.Game);
      }
    case Hovered =>
      bg := if role.discord then Srgb(0.2, 0.2, 0.5) else Srgb(0.35, 0.35, 0.35);
    case NoInteraction =>
      bg := if role.discord then Srgb(0.1, 0.1, 0.3) else Srgb(0.2, 0.2, 0.2);
  }
}
