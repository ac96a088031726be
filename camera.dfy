/**
  The player's view (`update_camera`) and the projection (`apply_fov_to_camera`).

  The mouse events of one frame are a sequence of deltas, the camera entity is a flag saying
  whether it exists, and the rotation written into its transform is the method's result.
*/
module Camera {
  import opened Wrappers
  import opened Numerics
  import opened Resources

  /** The deltas of one frame, summed in order. */
  function SumDeltas(motions: seq<Vec2>): Vec2
  {
    if |motions| == 0 then Zero2 else Add2(SumDeltas(motions[..|motions| - 1]), motions[|motions| - 1])
  }

  /** Summing two runs of events is summing their sums: the split into frames does not matter. */
  lemma {:induction false} SumDeltasAppend(a: seq<Vec2>, b: seq<Vec2>)
    ensures SumDeltas(a + b) == Add2(SumDeltas(a), SumDeltas(b))
    decreases |b|
  {
    if |b| == 0 {
      assert a + b == a;
    } else {
      var b' := b[..|b| - 1];
      assert (a + b)[..|a + b| - 1] == a + b';
      SumDeltasAppend(a, b');
    }
  }

  const HalfPi: real := Pi / 2.0

  /** The camera rotation for a yaw and a pitch: yaw about +Y applied after pitch about +X. */
  function LookRotation(fl: Float, yaw: real, pitch: real): Quat {
    QuatMul(QuatFromAxisAngle(fl, UnitY, yaw), QuatFromAxisAngle(fl, UnitX, pitch))
  }

  /** Yaw after a frame's delta: turning right (positive x) decreases it. */
  function NewYaw(yaw: real, delta: Vec2, sensitivity: real): real {
    yaw - delta.x * sensitivity
  }

  /** Pitch after a frame's delta, clamped to straight up and straight down. */
  function NewPitch(pitch: real, delta: Vec2, sensitivity: real): (r: real)
    ensures -HalfPi <= r <= HalfPi
    ensures -HalfPi <= pitch - delta.y * sensitivity <= HalfPi ==> r == pitch - delta.y * sensitivity
  {
    Clamp(pitch - delta.y * sensitivity, -HalfPi, HalfPi)
  }

  /** Whether `update_camera` acts: a running trial and a non-zero delta. */
  predicate Moves(s: TestState, delta: Vec2) {
    s.isRunning && Dot2(delta, delta) > 0.0
  }

  /** The trial after `update_camera` with a frame's summed delta. */
  function Look(fl: Float, s: TestState, delta: Vec2, sensitivity: real): TestState
  {
    if Moves(s, delta) then
      var yaw := NewYaw(s.cameraYaw, delta, sensitivity);
      var pitch := NewPitch(s.cameraPitch, delta, sensitivity);
      s.(cameraYaw := yaw, cameraPitch := pitch,
         crosshairDirection := Rotate(LookRotation(fl, yaw, pitch), NegZ))
    else
      s
  }

  /** The rotation `update_camera` writes into the camera's transform, if it writes one. */
  function CameraRotation(fl: Float, s: TestState, delta: Vec2, sensitivity: real, hasCamera: bool): Option<Quat>
  {
    if Moves(s, delta) && hasCamera then
      Some(LookRotation(fl, NewYaw(s.cameraYaw, delta, sensitivity), NewPitch(s.cameraPitch, delta, sensitivity)))
    else
      None
  }

  /** `update_camera`. The settings give a finite sensitivity (`cm_360` and `dpi` both non-zero). */
  method UpdateCamera(test: ReactionTest, fl: Float, settings: Settings, motions: seq<Vec2>, hasCamera: bool)
    returns (rotation: Option<Quat>)
    requires settings.MouseSensitivity().Some?
    modifies test
    ensures test.Snapshot() == Look(fl, old(test.Snapshot()), SumDeltas(motions), settings.MouseSensitivity().value)
    ensures rotation == CameraRotation(fl, old(test.Snapshot()), SumDeltas(motions),
                                       settings.MouseSensitivity().value, hasCamera)
  {
    if !test.isRunning {
      return None;
    }
    var delta := Zero2;
    var i := 0;
    while i < |motions|
      invariant 0 <= i <= |motions|
      invariant delta == SumDeltas(motions[..i])
    {
      assert motions[..i + 1][..i] == motions[..i];
      delta := Add2(delta, motions[i]);
      i := i + 1;
    }
    assert motions[..|motions|] == motions;
    rotation := None;
    if Dot2(delta, delta) > 0.0 {
      var sensitivity := settings.MouseSensitivity().value;
      var yaw := NewYaw(test.cameraYaw, delta, sensitivity);
      var pitch := NewPitch(test.cameraPitch, delta, sensitivity);
      var q := LookRotation(fl, yaw, pitch);
      StoreLook(test, yaw, pitch, Rotate(q, NegZ));
      if hasCamera {
        rotation := Some(q);
      }
    }
  }

  method StoreLook(test: ReactionTest, yaw: real, pitch: real, crosshair: Vec3)
    modifies test
    ensures test.Snapshot() == old(test.Snapshot()).(
      cameraYaw := yaw, cameraPitch := pitch, crosshairDirection := crosshair)
  {
    test.cameraYaw := yaw;
    test.cameraPitch := pitch;
    test.crosshairDirection := crosshair;
  }

  // ---------------------------------------------------------------- properties of the view

  /** Nothing changes while no trial runs, or when the mouse did not move. */
  lemma LookStillWhenIdle(fl: Float, s: TestState, delta: Vec2, sensitivity: real, hasCamera: bool)
    requires !s.isRunning || delta == Zero2
    ensures Look(fl, s, delta, sensitivity) == s
    ensures CameraRotation(fl, s, delta, sensitivity, hasCamera) == None
  {
  }

  /**
    A movement turns the yaw by `-dx * sensitivity` and the pitch by `-dy * sensitivity`
    unless that would pass straight up or down, and touches no other field than the crosshair.
  */
  lemma LookTurns(fl: Float, s: TestState, delta: Vec2, sensitivity: real)
    requires Moves(s, delta)
    ensures var r := Look(fl, s, delta, sensitivity);
      && r.cameraYaw == s.cameraYaw - delta.x * sensitivity
      && (-HalfPi <= s.cameraPitch - delta.y * sensitivity <= HalfPi ==>
            r.cameraPitch == s.cameraPitch - delta.y * sensitivity)
      && (s.cameraPitch - delta.y * sensitivity > HalfPi ==> r.cameraPitch == HalfPi)
      && (s.cameraPitch - delta.y * sensitivity < -HalfPi ==> r.cameraPitch == -HalfPi)
      && r == s.(cameraYaw := r.cameraYaw, cameraPitch := r.cameraPitch,
                 crosshairDirection := r.crosshairDirection)
  {
    var pitch := NewPitch(s.cameraPitch, delta, sensitivity);
    assert Look(fl, s, delta, sensitivity).cameraPitch == pitch;
  }

  /** The pitch stays between straight down and straight up. */
  lemma LookKeepsPitchBounded(fl: Float, s: TestState, delta: Vec2, sensitivity: real)
    requires -HalfPi <= s.cameraPitch <= HalfPi
    ensures var r := Look(fl, s, delta, sensitivity); -HalfPi <= r.cameraPitch <= HalfPi
  {
  }

  /** The crosshair is the camera's rotation applied to `-Z`: the two come from one yaw and pitch. */
  lemma CrosshairFollowsCamera(fl: Float, s: TestState, delta: Vec2, sensitivity: real, q: Quat)
    requires CameraRotation(fl, s, delta, sensitivity, true) == Some(q)
    ensures var r := Look(fl, s, delta, sensitivity);
      && r.crosshairDirection == Rotate(q, NegZ)
      && q == LookRotation(fl, r.cameraYaw, r.cameraPitch)
  {
  }

  /** Two frames' events handled as one frame turn the yaw by the sum of both deltas. */
  lemma YawAdds(s: TestState, a: seq<Vec2>, b: seq<Vec2>, sensitivity: real)
    ensures NewYaw(s.cameraYaw, SumDeltas(a + b), sensitivity)
         == NewYaw(NewYaw(s.cameraYaw, SumDeltas(a), sensitivity), SumDeltas(b), sensitivity)
  {
    SumDeltasAppend(a, b);
    var x := SumDeltas(a).x;
    var y := SumDeltas(b).x;
    assert (x + y) * sensitivity == x * sensitivity + y * sensitivity;
  }

  // ---------------------------------------------------------------- projection

  /** The size of the primary window. */
  datatype WindowSize = WindowSize(width: real, height: real)

  /** The fields `apply_fov_to_camera` writes into a perspective projection. */
  datatype Perspective = Perspective(fov: real, aspectRatio: real)

  /** The aspect ratio, 1200/800 when there is no window; `None` when either side of the window is zero, where the f32 ratio is NaN, zero or infinite. */
  function AspectRatio(window: Option<WindowSize>): (r: Option<real>)
    ensures window.None? ==> r == Some(1200.0 / 800.0)
    ensures window.Some? ==> (r.Some? <==> window.value.width != 0.0 && window.value.height != 0.0)
    ensures r.Some? ==> r.value != 0.0
    ensures r.Some? && window.Some? ==> r.value * window.value.height == window.value.width
  {
    match window
    case None => Some(1200.0 / 800.0)
    case Some(w) => if w.width != 0.0 && w.height != 0.0 then Some(w.width / w.height) else None
  }

  /** The vertical angle, in radians, that shows `fovDegrees` horizontally at this aspect ratio. */
  function VerticalFov(fl: Float, fovDegrees: real, aspect: real): real
    requires aspect != 0.0
  {
    var horizontal := fovDegrees * Pi / 180.0;
    2.0 * fl.atan(fl.tan(horizontal / 2.0) / aspect)
  }

  /** `apply_fov_to_camera`: the projection written, `None` when there is none to write. */
  function ApplyFov(fl: Float, fovDegrees: real, window: Option<WindowSize>, hasProjection: bool): Option<Perspective>
  {
    var aspect := AspectRatio(window);
    if hasProjection && aspect.Some? then
      Some(Perspective(VerticalFov(fl, fovDegrees, aspect.value), aspect.value))
    else
      None
  }

  /** The vertical field of view is an angle strictly between `-Pi` and `Pi`. */
  lemma VerticalFovBounded(fl: Float, fovDegrees: real, aspect: real)
    requires Lawful(fl) && aspect != 0.0
    ensures -Pi < VerticalFov(fl, fovDegrees, aspect) < Pi
  {
    var a := fl.atan(fl.tan(fovDegrees * Pi / 180.0 / 2.0) / aspect);
    assert -Pi / 2.0 < a < Pi / 2.0;
  }

  /** Without a window the projection uses the 3:2 fallback. */
  lemma ApplyFovWithoutWindow(fl: Float, fovDegrees: real)
    ensures var p := ApplyFov(fl, fovDegrees, None, true);
      && p.Some? && p.value.aspectRatio == 1.5
      && p.value.fov == 2.0 * fl.atan(fl.tan(fovDegrees * Pi / 180.0 / 2.0) / 1.5)
  {
  }
}
