/**
  Starting, resetting and restarting a trial from the keyboard (`start_test`, `reset_test`
  and the key decisions of `game_input_system`).

  The camera entity is reduced to its translation: `None` when there is no player camera.
  A camera whose rotation has just been reset to the identity looks along `-Z`, so that is
  its forward vector. The clock is the `now` parameter.
*/
module Game {
  import opened Wrappers
  import opened Numerics
  import opened Types
  import opened Constants
  import opened Resources

  /** The launch direction of a new trial's target. */
  const LaunchDirection: Vec3 := Vec3(1.0, 0.5, 0.5)

  /**
    What starting a trial needs of the library's square root: `-Z` has length one, so
    normalising it gives `-Z` back, and the launch direction has a non-zero length.
  */
  predicate Normalizable(fl: Float) {
    Length3(fl, NegZ) == 1.0 && Length3(fl, LaunchDirection) != 0.0
  }

  lemma LawfulNormalizable(fl: Float)
    requires Lawful(fl)
    ensures Normalizable(fl)
  {
    NegZLength(fl);
    LaunchDirectionLength(fl);
  }

  lemma LaunchDirectionLength(fl: Float)
    requires Lawful(fl)
    ensures Length3(fl, LaunchDirection) > 0.0
  {
    var d := LaunchDirection;
    assert Dot3(d, d) == 1.5;
    LengthPositive(fl, d);
  }

  /** `Vec3::new(1.0, 0.5, 0.5).normalize() * TARGET_SPEED`. */
  function LaunchVelocity(fl: Float): Vec3
    requires Normalizable(fl)
  {
    Scale3(Normalize3(fl, LaunchDirection), TargetSpeed)
  }

  /** The launch velocity has the target speed and points along (2, 1, 1). */
  lemma LaunchVelocitySpeed(fl: Float)
    requires Lawful(fl)
    ensures Normalizable(fl)
    ensures var v := LaunchVelocity(fl);
      Dot3(v, v) == TargetSpeed * TargetSpeed && v.x == 2.0 * v.y && v.y == v.z && v.y > 0.0
  {
    LawfulNormalizable(fl);
    var d := LaunchDirection;
    NormalizeIsUnit(fl, d);
    DotScaleScale(Normalize3(fl, d), TargetSpeed);
    var k := 1.0 / Length3(fl, d);
    assert Normalize3(fl, d) == Vec3(k, 0.5 * k, 0.5 * k);
    assert k > 0.0;
  }

  /** `start_test` on values: the fields it assigns, in its order. */
  function Started(fl: Float, s: TestState, now: real): TestState
    requires Normalizable(fl)
  {
    s.(isRunning := true, testCompleted := false, startTime := now, data := [],
       crosshairDirection := NegZ,
       targetPosition := Scale3(Normalize3(fl, NegZ), s.targetDistance),
       targetVelocity := LaunchVelocity(fl),
       nextDirectionChange := 0.1,
       cameraYaw := 0.0, cameraPitch := 0.0)
  }

  /** `reset_test` on values. */
  function Reset(fl: Float, s: TestState): TestState
    requires Normalizable(fl)
  {
    s.(isRunning := false, testCompleted := false, startTime := 0.0,
       hits := 0, misses := 0, lastShotTime := 0.0, data := [],
       crosshairDirection := NegZ, targetPosition := Zero3,
       targetVelocity := LaunchVelocity(fl),
       nextDirectionChange := 0.1, changeInterval := 0.1,
       cameraYaw := 0.0, cameraPitch := 0.0)
  }

  /**
    What both start paths do once a camera exists: the camera position and forward vector
    are frozen and the target is put `target_distance` in front of the camera.
  */
  function Aimed(fl: Float, s: TestState, camPos: Vec3): TestState
    requires Normalizable(fl)
  {
    s.(startCamPos := camPos, startCamForward := NegZ,
       targetPosition := Ahead(fl, camPos, NegZ, s.targetDistance))
  }

  /** The point `distance` away from `origin` along the normalised `forward`. */
  function Ahead(fl: Float, origin: Vec3, forward: Vec3, distance: real): Vec3
    requires Length3(fl, forward) != 0.0
  {
    Add3(origin, Scale3(Normalize3(fl, forward), distance))
  }

  /** The restart key: reset, then start and aim when there is a camera. */
  function Restarted(fl: Float, s: TestState, now: real, camera: Option<Vec3>): TestState
    requires Normalizable(fl)
  {
    var r := Reset(fl, s);
    if camera.Some? then Aimed(fl, Started(fl, r, now), camera.value) else r
  }

  /** The start key on an idle trial: start, then aim when there is a camera. */
  function StartPressed(fl: Float, s: TestState, now: real, camera: Option<Vec3>): TestState
    requires Normalizable(fl)
  {
    var r := Started(fl, s, now);
    if camera.Some? then Aimed(fl, r, camera.value) else r
  }

  /** The trial after `game_input_system`: the restart key is handled first, then the start key. */
  function InputState(fl: Float, s: TestState, keys: Keys, st: SettingsState, now: real,
                      camera: Option<Vec3>): TestState
    requires Normalizable(fl)
  {
    var s1 := if st.keyRestart in keys.justPressed then Restarted(fl, s, now, camera) else s;
    if st.keyStart in keys.justPressed && !s1.isRunning then StartPressed(fl, s1, now, camera) else s1
  }

  /** The state transition `game_input_system` requests, if any. */
  function InputRequest(keys: Keys, st: SettingsState): Option<AppState>
  {
    if st.keySettings in keys.justPressed then Some(AppState.Settings) else None
  }

  // ---------------------------------------------------------------- the resource, in place

  /** `start_test`. */
  method StartTest(test: ReactionTest, fl: Float, now: real)
    requires Normalizable(fl)
    modifies test
    ensures test.Snapshot() == Started(fl, old(test.Snapshot()), now)
  {
    var target := Scale3(Normalize3(fl, NegZ), test.targetDistance);
    var velocity := LaunchVelocity(fl);
    StoreRun(test, true, now);
    StoreAim(test, target, velocity);
    StoreSchedule(test);
  }

  /** `reset_test`. */
  method ResetTest(test: ReactionTest, fl: Float)
    requires Normalizable(fl)
    modifies test
    ensures test.Snapshot() == Reset(fl, old(test.Snapshot()))
  {
    var velocity := LaunchVelocity(fl);
    StoreRun(test, false, 0.0);
    StoreScore(test);
    StoreAim(test, Zero3, velocity);
    StoreSchedule(test);
    test.changeInterval := 0.1;
  }

  /** The run flags, the start time and the cleared samples, as both start and reset write them. */
  method StoreRun(test: ReactionTest, running: bool, start: real)
    modifies test
    ensures test.Snapshot() == old(test.Snapshot()).(
      isRunning := running, testCompleted := false, startTime := start, data := [])
  {
    test.isRunning := running;
    test.testCompleted := false;
    test.startTime := start;
    test.data := [];
  }

  /** The cleared score of `reset_test`. */
  method StoreScore(test: ReactionTest)
    modifies test
    ensures test.Snapshot() == old(test.Snapshot()).(hits := 0, misses := 0, lastShotTime := 0.0)
  {
    test.hits := 0;
    test.misses := 0;
    test.lastShotTime := 0.0;
  }

  /** The crosshair looking along `-Z`, and the target's position and velocity. */
  method StoreAim(test: ReactionTest, target: Vec3, velocity: Vec3)
    modifies test
    ensures test.Snapshot() == old(test.Snapshot()).(
      crosshairDirection := NegZ, targetPosition := target, targetVelocity := velocity)
  {
    test.crosshairDirection := NegZ;
    test.targetPosition := target;
    test.targetVelocity := velocity;
  }

  /** The first direction change at 0.1 s and the camera angles back at zero. */
  method StoreSchedule(test: ReactionTest)
    modifies test
    ensures test.Snapshot() == old(test.Snapshot()).(
      nextDirectionChange := 0.1, cameraYaw := 0.0, cameraPitch := 0.0)
  {
    test.nextDirectionChange := 0.1;
    test.cameraYaw := 0.0;
    test.cameraPitch := 0.0;
  }

  /** The camera part of either start path in `game_input_system`. */
  method AimAtCamera(test: ReactionTest, fl: Float, camPos: Vec3)
    requires Normalizable(fl)
    modifies test
    ensures test.Snapshot() == Aimed(fl, old(test.Snapshot()), camPos)
  {
    var target := Ahead(fl, camPos, NegZ, test.targetDistance);
    test.startCamPos := camPos;
    test.startCamForward := NegZ;
    test.targetPosition := target;
  }

  /** `game_input_system`: returns the state change it requests. */
  method GameInputSystem(test: ReactionTest, fl: Float, keys: Keys, settings: Settings, now: real,
                         camera: Option<Vec3>)
    returns (next: Option<AppState>)
    requires Normalizable(fl)
    modifies test
    ensures test.Snapshot() == InputState(fl, old(test.Snapshot()), keys, settings.State(), now, camera)
    ensures next == InputRequest(keys, settings.State())
  {
    if settings.keyRestart in keys.justPressed {
      ResetTest(test, fl);
      if camera.Some? {
        StartTest(test, fl, now);
        AimAtCamera(test, fl, camera.value);
      }
    }
    if settings.keyStart in keys.justPressed && !test.isRunning {
      StartTest(test, fl, now);
      if camera.Some? {
        AimAtCamera(test, fl, camera.value);
      }
    }
    if settings.keySettings in keys.justPressed {
      next := Some(AppState.Settings);
    } else {
      next := None;
    }
  }

  // ---------------------------------------------------------------- properties

  /**
    `start_test` starts a fresh trial at `now` with the target straight ahead along `-Z`,
    keeps the score, the last shot time and the change interval, and writes nothing else.
  */
  lemma StartedSpec(fl: Float, s: TestState, now: real)
    requires Normalizable(fl)
    ensures var r := Started(fl, s, now);
      && r.isRunning && !r.testCompleted && r.startTime == now && r.data == []
      && r.nextDirectionChange == 0.1 && r.cameraYaw == 0.0 && r.cameraPitch == 0.0
      && r.crosshairDirection == NegZ
      && r.targetPosition == Vec3(0.0, 0.0, -s.targetDistance)
      && r.targetVelocity == LaunchVelocity(fl)
      && r.hits == s.hits && r.misses == s.misses
      && r.lastShotTime == s.lastShotTime && r.changeInterval == s.changeInterval
      && r == s.(isRunning := r.isRunning, testCompleted := r.testCompleted, startTime := r.startTime,
                 data := r.data, crosshairDirection := r.crosshairDirection,
                 targetPosition := r.targetPosition, targetVelocity := r.targetVelocity,
                 nextDirectionChange := r.nextDirectionChange,
                 cameraYaw := r.cameraYaw, cameraPitch := r.cameraPitch)
  {
  }

  /** `reset_test` yields an idle trial with no shot taken and the target at the origin. */
  lemma ResetIdle(fl: Float, s: TestState)
    requires Normalizable(fl)
    ensures var r := Reset(fl, s);
      && Idle(r) && r.lastShotTime == 0.0 && r.startTime == 0.0 && r.targetPosition == Zero3
      && r.nextDirectionChange == 0.1 && r.changeInterval == 0.1
  {
  }

  /** Resetting twice is resetting once. */
  lemma ResetIdempotent(fl: Float, s: TestState)
    requires Normalizable(fl)
    ensures Reset(fl, Reset(fl, s)) == Reset(fl, s)
  {
  }

  /** The start key does nothing to a running trial. */
  lemma StartKeyIgnoredWhileRunning(fl: Float, s: TestState, keys: Keys, st: SettingsState, now: real,
                                    camera: Option<Vec3>)
    requires Normalizable(fl)
    requires st.keyRestart !in keys.justPressed && s.isRunning
    ensures InputState(fl, s, keys, st, now, camera) == s
  {
  }

  /** The start key on an idle trial starts it: a fresh trial that keeps the old score. */
  lemma StartKeyStarts(fl: Float, s: TestState, keys: Keys, st: SettingsState, now: real,
                       camera: Option<Vec3>)
    requires Normalizable(fl)
    requires st.keyRestart !in keys.justPressed && st.keyStart in keys.justPressed && !s.isRunning
    ensures var r := InputState(fl, s, keys, st, now, camera);
      && r.isRunning && !r.testCompleted && r.startTime == now && r.data == []
      && r.hits == s.hits && r.misses == s.misses && r.lastShotTime == s.lastShotTime
  {
  }

  /**
    The restart key always resets. With a camera the trial is running afterwards from a
    zero score; without one it stays idle unless the start key was pressed too.
  */
  lemma RestartKeyResets(fl: Float, s: TestState, keys: Keys, st: SettingsState, now: real,
                         camera: Option<Vec3>)
    requires Normalizable(fl)
    requires st.keyRestart in keys.justPressed
    ensures var r := InputState(fl, s, keys, st, now, camera);
      && (camera.None? && st.keyStart !in keys.justPressed ==> r == Reset(fl, s))
      && (camera.None? && st.keyStart in keys.justPressed ==> r == Started(fl, Reset(fl, s), now))
      && (camera.Some? ==> r == Aimed(fl, Started(fl, Reset(fl, s), now), camera.value))
      && r.hits == 0 && r.misses == 0 && r.lastShotTime == 0.0 && r.data == []
      && (camera.Some? ==> r.isRunning && r.startTime == now)
  {
  }

  /**
    After either start path with a camera, the target sits `target_distance` in front of the
    camera along its normalised forward vector, overriding `start_test`'s placement.
  */
  lemma StartPathsAimFromCamera(fl: Float, s: TestState, keys: Keys, st: SettingsState, now: real,
                                camPos: Vec3)
    requires Normalizable(fl)
    requires st.keyRestart in keys.justPressed || (st.keyStart in keys.justPressed && !s.isRunning)
    ensures var r := InputState(fl, s, keys, st, now, Some(camPos));
      && r.isRunning && !r.testCompleted && r.data == [] && r.startTime == now
      && r.startCamPos == camPos && r.startCamForward == NegZ
      && Length3(fl, r.startCamForward) != 0.0
      && r.targetPosition == Ahead(fl, r.startCamPos, r.startCamForward, r.targetDistance)
      && r.targetPosition == Vec3(camPos.x, camPos.y, camPos.z - s.targetDistance)
  {
  }

  /** Every path of `game_input_system` keeps the frozen forward vector at `-Z`. */
  lemma InputKeepsForwardNegZ(fl: Float, s: TestState, keys: Keys, st: SettingsState, now: real,
                              camera: Option<Vec3>)
    requires Normalizable(fl) && ForwardIsNegZ(s)
    ensures ForwardIsNegZ(InputState(fl, s, keys, st, now, camera))
  {
  }

  /** The settings key requests the settings screen whatever the trial is doing, and only it does. */
  lemma SettingsKeyRequestsSettings(keys: Keys, st: SettingsState)
    ensures InputRequest(keys, st) == Some(AppState.Settings) <==> st.keySettings in keys.justPressed
    ensures InputRequest(keys, st) != Some(AppState.Game)
  {
  }
}
