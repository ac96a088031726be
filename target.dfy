/**
  The trial simulator: one fixed-time step of the moving target (shooting, steering,
  moving inside a box in front of the camera, recording a sample), the end of the trial
  and the analysis written back into the trial's state.

  Every step is specified by a function on `TestState`; the methods on `ReactionTest`
  update the fields in place and are proved to produce that function's result.
*/
module Target {
  import opened Wrappers
  import opened Numerics
  import opened Types
  import opened Constants
  import opened Resources
  import opened Analysis

  // ---------------------------------------------------------------- hit test

  /**
    `ray_sphere_intersection`: the discriminant of the quadratic for the points of the
    line `origin + t * direction` on the sphere is not negative.
  */
  function RaySphereIntersection(origin: Vec3, direction: Vec3, center: Vec3, radius: real): bool {
    var oc := Sub3(origin, center);
    var a := Dot3(direction, direction);
    var b := 2.0 * Dot3(oc, direction);
    var c := Dot3(oc, oc) - radius * radius;
    b * b - 4.0 * a * c >= 0.0
  }

  /** The test is about the whole line: reversing the direction gives the same answer. */
  lemma RayDirectionReversible(origin: Vec3, direction: Vec3, center: Vec3, radius: real)
    ensures RaySphereIntersection(origin, Neg3(direction), center, radius)
        == RaySphereIntersection(origin, direction, center, radius)
  {
    var oc := Sub3(origin, center);
    assert Dot3(Neg3(direction), Neg3(direction)) == Dot3(direction, direction);
    assert Dot3(oc, Neg3(direction)) == -Dot3(oc, direction);
    var k := 2.0 * Dot3(oc, direction);
    assert (-k) * (-k) == k * k;
  }

  /**
    For a unit direction the line hits exactly when the squared distance from the centre to
    the line, `|oc|^2 - (oc . d)^2`, is at most the squared radius.
  */
  lemma RayHitsIffNearLine(origin: Vec3, direction: Vec3, center: Vec3, radius: real)
    requires Dot3(direction, direction) == 1.0
    ensures var oc := Sub3(origin, center);
      RaySphereIntersection(origin, direction, center, radius)
      <==> Dot3(oc, oc) - Dot3(oc, direction) * Dot3(oc, direction) <= radius * radius
  {
    var oc := Sub3(origin, center);
    var p := Dot3(oc, direction);
    var b := 2.0 * p;
    var c := Dot3(oc, oc) - radius * radius;
    assert b * b == 4.0 * (p * p);
    assert 4.0 * Dot3(direction, direction) * c == 4.0 * c;
  }

  /** A ray starting inside the sphere hits it. */
  lemma RayFromInsideHits(origin: Vec3, direction: Vec3, center: Vec3, radius: real)
    requires Dot3(Sub3(origin, center), Sub3(origin, center)) <= radius * radius
    ensures RaySphereIntersection(origin, direction, center, radius)
  {
    var oc := Sub3(origin, center);
    var a := Dot3(direction, direction);
    var b := 2.0 * Dot3(oc, direction);
    var c := Dot3(oc, oc) - radius * radius;
    DotSelfNonNegative(direction);
    Square(b);
    MulMonotone(c, 0.0, a);
    assert 4.0 * a * c == 4.0 * (c * a);
  }

  // ---------------------------------------------------------------- the camera box

  /** The frozen camera basis: right, up and forward. */
  datatype Basis = Basis(r: Vec3, up: Vec3, f: Vec3)

  /** `f = forward.normalize()`, `r = f x Y` and `up = r x f`, both normalised or zero. */
  function CameraBasis(fl: Float, forward: Vec3): Basis
    requires Length3(fl, forward) != 0.0
  {
    var f := Normalize3(fl, forward);
    var r := NormalizeOrZero3(fl, Cross(f, UnitY));
    var up := NormalizeOrZero3(fl, Cross(r, f));
    Basis(r, up, f)
  }

  predicate Orthonormal(b: Basis) {
    && Dot3(b.r, b.r) == 1.0 && Dot3(b.up, b.up) == 1.0 && Dot3(b.f, b.f) == 1.0
    && Dot3(b.r, b.up) == 0.0 && Dot3(b.r, b.f) == 0.0 && Dot3(b.up, b.f) == 0.0
  }

  /** Coordinates of `rel` along the basis vectors. */
  function Local(b: Basis, rel: Vec3): Vec3 {
    Vec3(Dot3(rel, b.r), Dot3(rel, b.up), Dot3(rel, b.f))
  }

  /** `cam_pos + r * x + up * y + f * z`. */
  function Place(camPos: Vec3, b: Basis, c: Vec3): Vec3 {
    Add3(Add3(Add3(camPos, Scale3(b.r, c.x)), Scale3(b.up, c.y)), Scale3(b.f, c.z))
  }

  /** The box the target must stay in, in camera coordinates. */
  predicate InBox(c: Vec3) {
    && -TargetBoundX <= c.x <= TargetBoundX
    && -TargetBoundY <= c.y <= TargetBoundY
    && TargetBoundZMin <= c.z <= TargetBoundZMax
  }

  function ClampToBox(c: Vec3): (r: Vec3)
    ensures InBox(r)
    ensures InBox(c) ==> r == c
  {
    Vec3(
      Clamp(c.x, -TargetBoundX, TargetBoundX),
      Clamp(c.y, -TargetBoundY, TargetBoundY),
      Clamp(c.z, TargetBoundZMin, TargetBoundZMax))
  }

  lemma RotateNegZ()
    ensures Rotate(QuatIdentity, NegZ) == NegZ
  {
    RotateIdentity(NegZ);
  }

  /** The axis vectors of the identity camera are unit vectors. */
  lemma AxisUnits()
    ensures Dot3(UnitX, UnitX) == 1.0 && Dot3(UnitY, UnitY) == 1.0 && Dot3(NegZ, NegZ) == 1.0
  {
  }

  /** `-Z x Y = X` and `X x -Z = Y`. */
  lemma AxisCrosses()
    ensures Cross(NegZ, UnitY) == UnitX && Cross(UnitX, NegZ) == UnitY
  {
  }

  /** The basis of the identity camera, looking along `-Z`, is `(X, Y, -Z)`. */
  lemma NegZBasis(fl: Float)
    requires Lawful(fl)
    ensures Length3(fl, NegZ) == 1.0 && CameraBasis(fl, NegZ) == NegZCamera
  {
    AxisUnits();
    AxisCrosses();
    NormalizeUnitVector(fl, NegZ);
    NormalizeOrZeroUnitVector(fl, UnitX);
    NormalizeOrZeroUnitVector(fl, UnitY);
  }

  const NegZCamera: Basis := Basis(UnitX, UnitY, NegZ)

  lemma NegZCameraOrthonormal()
    ensures Orthonormal(NegZCamera)
  {
  }

  /** The camera basis of the frozen forward vector `-Z` is orthonormal. */
  lemma ForwardNegZOrthonormal(fl: Float, forward: Vec3)
    requires Lawful(fl) && forward == NegZ
    ensures Length3(fl, forward) != 0.0 && Orthonormal(CameraBasis(fl, forward))
  {
    NegZBasis(fl);
    NegZCameraOrthonormal();
  }

  lemma DotCombination(a: Vec3, b: Vec3, c: Vec3, x: real, y: real, z: real, d: Vec3)
    ensures Dot3(Add3(Add3(Scale3(a, x), Scale3(b, y)), Scale3(c, z)), d)
         == x * Dot3(a, d) + y * Dot3(b, d) + z * Dot3(c, d)
  {
  }

  /** In an orthonormal basis, the camera coordinates of a placed point are the coordinates it was placed at. */
  lemma LocalOfPlace(camPos: Vec3, b: Basis, c: Vec3)
    requires Orthonormal(b)
    ensures Local(b, Sub3(Place(camPos, b, c), camPos)) == c
  {
    var w := Add3(Add3(Scale3(b.r, c.x), Scale3(b.up, c.y)), Scale3(b.f, c.z));
    assert Sub3(Place(camPos, b, c), camPos) == w;
    DotCombination(b.r, b.up, b.f, c.x, c.y, c.z, b.r);
    DotCombination(b.r, b.up, b.f, c.x, c.y, c.z, b.up);
    DotCombination(b.r, b.up, b.f, c.x, c.y, c.z, b.f);
    assert Dot3(b.up, b.r) == 0.0 && Dot3(b.f, b.r) == 0.0 && Dot3(b.f, b.up) == 0.0;
  }

  // ---------------------------------------------------------------- steering

  /** The width of the range of the random turn: a full turn less twice the minimal 45 degrees. */
  const AngleRange: real := 2.0 * Pi - 2.0 * (Pi / 4.0)

  /** The heading of the velocity in the screen plane, or 0 when its planar part is nearly zero. */
  function CurrentAngle(fl: Float, v: Vec3): real {
    var planar := Vec3(v.x, v.y, 0.0);
    if Length3(fl, planar) > 0.01 then fl.atan2(planar.y, planar.x) else 0.0
  }

  /** A velocity of the target's speed in the screen plane along `angle`. */
  function Heading(fl: Float, angle: real): Vec3 {
    Scale3(Vec3(fl.cos(angle), fl.sin(angle), 0.0), TargetSpeed)
  }

  /** Mirrors a velocity that points against `n` in the plane orthogonal to `n`; keeps it otherwise. */
  function Reflect(v: Vec3, n: Vec3): Vec3 {
    var d := Dot3(v, n);
    if d < 0.0 then Sub3(v, Scale3(n, 2.0 * d)) else v
  }

  /** For a unit or zero `n`, the reflected velocity never points against `n`. */
  lemma ReflectFacesAway(v: Vec3, n: Vec3)
    requires n == Zero3 || Dot3(n, n) == 1.0
    ensures Dot3(Reflect(v, n), n) >= 0.0
  {
    var d := Dot3(v, n);
    if d < 0.0 {
      DotSubScale(v, n, 2.0 * d);
      var w := 2.0 * d * Dot3(n, n);
      assert w == 2.0 * d;
    }
  }

  lemma DotSubScale(v: Vec3, n: Vec3, k: real)
    ensures Dot3(Sub3(v, Scale3(n, k)), n) == Dot3(v, n) - k * Dot3(n, n)
  {
  }

  lemma NegUnitOrZero(n: Vec3)
    requires n == Zero3 || Dot3(n, n) == 1.0
    ensures Neg3(n) == Zero3 || Dot3(Neg3(n), Neg3(n)) == 1.0
  {
  }

  /** The direction from the candidate position back to the camera: minus the normalised offset. */
  function ToCenter(fl: Float, rel: Vec3): Vec3 {
    Neg3(NormalizeOrZero3(fl, rel))
  }

  /** Whether a step redirects the target: on the timer, or when the candidate position leaves the box. */
  predicate Redirects(s: TestState, current: real, candidate: Vec3) {
    current >= s.nextDirectionChange || !InBox(candidate)
  }

  /** The new velocity of a redirected target: a new heading, reflected on a boundary hit so that it does not move away from the camera. */
  function NewVelocity(fl: Float, velocity: Vec3, rel: Vec3, inBox: bool, offset: real): Vec3 {
    var v := Heading(fl, CurrentAngle(fl, velocity) + Pi / 4.0 + offset);
    if inBox then v else Reflect(v, ToCenter(fl, rel))
  }

  /** The redirection part of a step: a new heading and the next timer, or nothing. */
  function Steer(fl: Float, s: TestState, current: real, dt: real, camPos: Vec3, b: Basis, offset: real, interval: real): TestState {
    var rel := Sub3(Add3(s.targetPosition, Scale3(s.targetVelocity, dt)), camPos);
    if Redirects(s, current, Local(b, rel)) then
      s.(targetVelocity := NewVelocity(fl, s.targetVelocity, rel, InBox(Local(b, rel)), offset),
         changeInterval := interval,
         nextDirectionChange := current + interval,
         lastDirectionChangeTime := current)
    else
      s
  }

  /** The movement part of a step: the position advanced by the velocity, clamped into the box. */
  function Move(s: TestState, dt: real, camPos: Vec3, b: Basis): TestState {
    var rel := Sub3(Add3(s.targetPosition, Scale3(s.targetVelocity, dt)), camPos);
    s.(targetPosition := Place(camPos, b, ClampToBox(Local(b, rel))))
  }

  /** The recording part of a step: one sample with the screen coordinates of target and crosshair. */
  function Sample(s: TestState, current: real, camPos: Vec3, b: Basis): DataPoint {
    var relTarget := Sub3(s.targetPosition, camPos);
    DataPoint(
      current, s.targetPosition, s.crosshairDirection,
      Dot3(relTarget, b.r), Dot3(relTarget, b.up), camPos,
      Dot3(s.crosshairDirection, b.r), Dot3(s.crosshairDirection, b.up))
  }

  /** Whether a shot is due: a shot interval has passed since the last shot. */
  predicate ShotDue(s: TestState, current: real) {
    current - s.lastShotTime >= s.shotInterval
  }

  /** The shooting part of a step: with a camera, a due shot scores a hit or a miss. */
  function Shoot(s: TestState, current: real, camera: Option<Vec3>): TestState {
    if !ShotDue(s, current) then s
    else
      var s1 := s.(lastShotTime := current);
      match camera
      case None => s1
      case Some(origin) =>
        if RaySphereIntersection(origin, s.crosshairDirection, s.targetPosition, TargetSize)
        then s1.(hits := s.hits + 1)
        else s1.(misses := s.misses + 1)
  }

  // ---------------------------------------------------------------- analysis written back

  /** The delay statistics of the detected `changes` and the measured `delays`, stored when there is a delay. */
  function WithDelays(s: TestState, changes: seq<DirectionChange>, delays: seq<real>): TestState {
    if |delays| == 0 then s
    else
      s.(averageDelay := AverageMs(delays),
         medianDelay := MedianMs(delays),
         reactDirections := |delays|,
         countDirections := |changes|)
  }

  /** `analyze_reaction_delay`: the delay statistics, written only for 100 samples or more and at least one delay. */
  function DelayStatistics(fl: Float, s: TestState): TestState {
    if |s.data| < 100 then s
    else
      var changes := DirectionChanges(fl, s.data);
      WithDelays(s, changes, ReactionDelays(fl, s.data, changes))
  }

  /** `analyze_results`: nothing below 50 samples; otherwise the delay statistics and the angular errors. */
  function Analyze(fl: Float, s: TestState): TestState {
    if |s.data| < 50 then s
    else
      DelayStatistics(fl, s).(rmsDistance := AverageError(fl, s.data), peakAngularError := PeakError(fl, s.data))
  }

  /** `finish_test`. */
  function Finish(fl: Float, s: TestState): TestState {
    Analyze(fl, s.(isRunning := false, testCompleted := true))
  }

  // ---------------------------------------------------------------- the tick

  /** The trial time of a tick at engine time `elapsed`. */
  function TrialTime(s: TestState, elapsed: real): real {
    elapsed - s.startTime
  }

  /**
    The step of a running trial at trial time `current`: shoot, steer, move, and record one
    sample. `camera` is the camera's translation when there is a camera; `offset` and
    `interval` are the random draws used when the target is redirected.
  */
  function Advance(fl: Float, s: TestState, current: real, dt: real, camera: Option<Vec3>,
                   offset: real, interval: real): TestState
    requires Length3(fl, s.startCamForward) != 0.0
  {
    var b := CameraBasis(fl, s.startCamForward);
    var camPos := camera.GetOr(s.startCamPos);
    var s1 := Shoot(s, current, camera);
    var s2 := Steer(fl, s1, current, dt, camPos, b, offset, interval);
    var s3 := Move(s2, dt, camPos, b);
    s3.(data := s3.data + [Sample(s3, current, camPos, b)])
  }

  /**
    `update_target` at engine time `elapsed` with time step `dt`; `hasTarget` says whether
    the target entity exists. Nothing happens unless a trial is running; at the end of the
    trial time the trial is finished, once.
  */
  function Tick(fl: Float, s: TestState, elapsed: real, dt: real, camera: Option<Vec3>, hasTarget: bool,
                offset: real, interval: real): TestState
    requires Length3(fl, s.startCamForward) != 0.0
  {
    if !s.isRunning || !hasTarget then s
    else
      var current := TrialTime(s, elapsed);
      if current >= TestDuration then
        if !s.testCompleted then Finish(fl, s) else s
      else
        Advance(fl, s, current, dt, camera, offset, interval)
  }

  /** `analyze_reaction_delay`. */
  method AnalyzeReactionDelay(test: ReactionTest, fl: Float)
    modifies test
    ensures test.Snapshot() == DelayStatistics(fl, old(test.Snapshot()))
  {
    if |test.data| < 100 {
      return;
    }
    ghost var s := test.Snapshot();
    var changes := FindTargetDirectionChanges(fl, test.data);
    var delays := CalculateReactionDelays(fl, test.data, changes);
    assert DelayStatistics(fl, s) == WithDelays(s, changes, delays);
    if |delays| > 0 {
      var average := Sum(delays) / |delays| as real * 1000.0;
      var sorted := SortAscending(delays);
      var n := |sorted|;
      var median := if n % 2 == 0 then (sorted[n / 2 - 1] + sorted[n / 2]) / 2.0 else sorted[n / 2];
      assert average == AverageMs(delays) && median * 1000.0 == MedianMs(delays);
      StoreDelayStatistics(test, average, median * 1000.0, |delays|, |changes|);
    }
  }

  /** Stores the delay statistics of a trial. */
  method StoreDelayStatistics(test: ReactionTest, average: real, median: real, reacted: nat, changes: nat)
    modifies test
    ensures test.Snapshot() == old(test.Snapshot()).(
      averageDelay := average, medianDelay := median, reactDirections := reacted, countDirections := changes)
  {
    test.averageDelay := average;
    test.medianDelay := median;
    test.reactDirections := reacted;
    test.countDirections := changes;
  }

  /** `analyze_results`. */
  method AnalyzeResults(test: ReactionTest, fl: Float)
    modifies test
    ensures test.Snapshot() == Analyze(fl, old(test.Snapshot()))
  {
    if |test.data| < 50 {
      return;
    }
    AnalyzeReactionDelay(test, fl);
    test.rmsDistance := AverageError(fl, test.data);
    test.peakAngularError := PeakError(fl, test.data);
  }

  /** `finish_test`. */
  method FinishTest(test: ReactionTest, fl: Float)
    modifies test
    ensures test.Snapshot() == Finish(fl, old(test.Snapshot()))
  {
    test.isRunning := false;
    test.testCompleted := true;
    AnalyzeResults(test, fl);
  }

  /** The shooting part of `update_target`. */
  method ShootStep(test: ReactionTest, current: real, camera: Option<Vec3>)
    modifies test
    ensures test.Snapshot() == Shoot(old(test.Snapshot()), current, camera)
  {
    if current - test.lastShotTime >= test.shotInterval {
      var hits, misses := test.hits, test.misses;
      if camera.Some? {
        if RaySphereIntersection(camera.value, test.crosshairDirection, test.targetPosition, TargetSize) {
          hits := hits + 1;
        } else {
          misses := misses + 1;
        }
      }
      RecordShot(test, current, hits, misses);
    }
  }

  /** Stores the time of a shot and the updated counters. */
  method RecordShot(test: ReactionTest, current: real, hits: nat, misses: nat)
    modifies test
    ensures test.Snapshot() == old(test.Snapshot()).(lastShotTime := current, hits := hits, misses := misses)
  {
    test.lastShotTime := current;
    test.hits := hits;
    test.misses := misses;
  }

  /** The redirection part of `update_target`, in the camera basis `b`. */
  method SteerStep(test: ReactionTest, fl: Float, current: real, dt: real, camPos: Vec3, b: Basis,
                   offset: real, interval: real)
    modifies test
    ensures test.Snapshot() == Steer(fl, old(test.Snapshot()), current, dt, camPos, b, offset, interval)
  {
    var rel := Sub3(Add3(test.targetPosition, Scale3(test.targetVelocity, dt)), camPos);
    var hitBoundary := !InBox(Local(b, rel));
    if current >= test.nextDirectionChange || hitBoundary {
      var velocity := NewVelocity(fl, test.targetVelocity, rel, !hitBoundary, offset);
      Redirect(test, velocity, current, interval);
    }
  }

  /** Sets the new velocity and the timer of the next change of direction. */
  method Redirect(test: ReactionTest, velocity: Vec3, current: real, interval: real)
    modifies test
    ensures test.Snapshot() == old(test.Snapshot()).(
      targetVelocity := velocity, changeInterval := interval,
      nextDirectionChange := current + interval, lastDirectionChangeTime := current)
  {
    test.targetVelocity := velocity;
    test.changeInterval := interval;
    test.nextDirectionChange := current + test.changeInterval;
    test.lastDirectionChangeTime := current;
  }

  /** The movement part of `update_target`: advance, then clamp into the box. */
  method MoveStep(test: ReactionTest, dt: real, camPos: Vec3, b: Basis)
    modifies test
    ensures test.Snapshot() == Move(old(test.Snapshot()), dt, camPos, b)
  {
    var newPos := Add3(test.targetPosition, Scale3(test.targetVelocity, dt));
    var rel := Sub3(newPos, camPos);
    var x := Clamp(Dot3(rel, b.r), -TargetBoundX, TargetBoundX);
    var y := Clamp(Dot3(rel, b.up), -TargetBoundY, TargetBoundY);
    var z := Clamp(Dot3(rel, b.f), TargetBoundZMin, TargetBoundZMax);
    test.targetPosition := Add3(Add3(Add3(camPos, Scale3(b.r, x)), Scale3(b.up, y)), Scale3(b.f, z));
  }

  /** The recording part of `update_target`: one sample in screen coordinates. */
  method RecordStep(test: ReactionTest, current: real, camPos: Vec3, b: Basis)
    modifies test
    ensures test.Snapshot() == old(test.Snapshot()).(data := old(test.data) + [Sample(old(test.Snapshot()), current, camPos, b)])
  {
    var relTarget := Sub3(test.targetPosition, camPos);
    var point := DataPoint(
      current, test.targetPosition, test.crosshairDirection,
      Dot3(relTarget, b.r), Dot3(relTarget, b.up), camPos,
      Dot3(test.crosshairDirection, b.r), Dot3(test.crosshairDirection, b.up));
    test.data := test.data + [point];
  }

  /** `update_target`: one fixed-time step of the trial. */
  method UpdateTarget(test: ReactionTest, fl: Float, elapsed: real, dt: real, camera: Option<Vec3>, hasTarget: bool,
                      offset: real, interval: real)
    requires Length3(fl, test.startCamForward) != 0.0
    requires 0.0 <= offset < AngleRange && 0.2 <= interval < 0.5
    modifies test
    ensures test.Snapshot() == Tick(fl, old(test.Snapshot()), elapsed, dt, camera, hasTarget, offset, interval)
  {
    if !test.isRunning || !hasTarget {
      return;
    }
    var current := elapsed - test.startTime;
    if current >= TestDuration {
      if !test.testCompleted {
        FinishTest(test, fl);
      }
      return;
    }
    var b := CameraBasis(fl, test.startCamForward);
    ShootStep(test, current, camera);
    var camPos := camera.GetOr(test.startCamPos);
    SteerStep(test, fl, current, dt, camPos, b, offset, interval);
    MoveStep(test, dt, camPos, b);
    RecordStep(test, current, camPos, b);
  }

  // ---------------------------------------------------------------- properties of the step

  /** A new heading has the target's speed. */
  lemma HeadingSpeed(fl: Float, angle: real)
    requires UnitCircle(fl)
    ensures Dot3(Heading(fl, angle), Heading(fl, angle)) == TargetSpeed * TargetSpeed
  {
    var u := Vec3(fl.cos(angle), fl.sin(angle), 0.0);
    DotScaleScale(u, TargetSpeed);
    assert Dot3(u, u) == 1.0;
  }

  lemma DotSubScaleSelf(v: Vec3, n: Vec3, k: real)
    ensures Dot3(Sub3(v, Scale3(n, k)), Sub3(v, Scale3(n, k))) == Dot3(v, v) - 2.0 * k * Dot3(v, n) + k * k * Dot3(n, n)
  {
  }

  /** Reflecting in the plane orthogonal to a unit (or zero) vector keeps the speed. */
  lemma ReflectKeepsSpeed(v: Vec3, n: Vec3)
    requires n == Zero3 || Dot3(n, n) == 1.0
    ensures Dot3(Reflect(v, n), Reflect(v, n)) == Dot3(v, v)
  {
    var d := Dot3(v, n);
    if d < 0.0 {
      var k := 2.0 * d;
      DotSubScaleSelf(v, n, k);
      var w := k * k * Dot3(n, n);
      assert w == k * k;
      assert 2.0 * k * d == k * k;
    }
  }

  /**
    A redirected target moves at the target speed, and after a boundary hit its velocity has a
    non-negative component along the direction back to the camera.
  */
  lemma NewVelocityProperties(fl: Float, velocity: Vec3, rel: Vec3, inBox: bool, offset: real)
    requires Lawful(fl) && UnitCircle(fl)
    ensures var v := NewVelocity(fl, velocity, rel, inBox, offset);
      && Dot3(v, v) == TargetSpeed * TargetSpeed
      && (!inBox ==> Dot3(v, ToCenter(fl, rel)) >= 0.0)
  {
    var a := CurrentAngle(fl, velocity) + Pi / 4.0 + offset;
    HeadingSpeed(fl, a);
    if !inBox {
      ReflectedAway(fl, Heading(fl, a), rel);
    }
  }

  /** Reflecting about the direction back to the camera keeps the speed and leaves a non-negative component along that direction. */
  lemma ReflectedAway(fl: Float, v: Vec3, rel: Vec3)
    requires Lawful(fl)
    ensures var n := ToCenter(fl, rel);
      Dot3(Reflect(v, n), Reflect(v, n)) == Dot3(v, v) && Dot3(Reflect(v, n), n) >= 0.0
  {
    NormalizeOrZeroUnitOrZero(fl, rel);
    NegUnitOrZero(NormalizeOrZero3(fl, rel));
    ReflectKeepsSpeed(v, ToCenter(fl, rel));
    ReflectFacesAway(v, ToCenter(fl, rel));
  }

  /** The state of a running trial after a step, stage by stage. */
  lemma AdvanceStages(fl: Float, s: TestState, current: real, dt: real, camera: Option<Vec3>, offset: real, interval: real)
    requires Length3(fl, s.startCamForward) != 0.0
    ensures var b := CameraBasis(fl, s.startCamForward);
      var camPos := camera.GetOr(s.startCamPos);
      var s3 := Move(Steer(fl, Shoot(s, current, camera), current, dt, camPos, b, offset, interval), dt, camPos, b);
      Advance(fl, s, current, dt, camera, offset, interval) == s3.(data := s.data + [Sample(s3, current, camPos, b)])
  {
  }

  /**
    A step of a running trial before its end records exactly one sample: at the trial time,
    at the target's new position, with the crosshair direction and the camera position used.
  */
  lemma TickRecordsOneSample(fl: Float, s: TestState, elapsed: real, dt: real, camera: Option<Vec3>, hasTarget: bool,
                             offset: real, interval: real)
    requires Length3(fl, s.startCamForward) != 0.0
    requires s.isRunning && hasTarget && TrialTime(s, elapsed) < TestDuration
    ensures var r := Tick(fl, s, elapsed, dt, camera, hasTarget, offset, interval);
      && |r.data| == |s.data| + 1 && r.data[..|s.data|] == s.data
      && r.data[|s.data|].time == TrialTime(s, elapsed)
      && r.data[|s.data|].targetPos == r.targetPosition
      && r.data[|s.data|].crosshairDir == s.crosshairDirection
      && r.data[|s.data|].cameraPos == camera.GetOr(s.startCamPos)
      && r.isRunning && r.testCompleted == s.testCompleted
  {
    AdvanceStages(fl, s, TrialTime(s, elapsed), dt, camera, offset, interval);
    var r := Tick(fl, s, elapsed, dt, camera, hasTarget, offset, interval);
    assert r.data[..|s.data|] == s.data;
  }

  /**
    In an orthonormal camera basis, a step leaves the target inside the box in front of the
    camera, whatever it started from, and the recorded screen coordinates of the target lie
    within the box's bounds.
  */
  lemma AdvanceKeepsTargetInBox(fl: Float, s: TestState, current: real, dt: real, camera: Option<Vec3>,
                                offset: real, interval: real)
    requires Length3(fl, s.startCamForward) != 0.0 && Orthonormal(CameraBasis(fl, s.startCamForward))
    ensures var r := Advance(fl, s, current, dt, camera, offset, interval);
      && InBox(Local(CameraBasis(fl, s.startCamForward), Sub3(r.targetPosition, camera.GetOr(s.startCamPos))))
      && |r.data| == |s.data| + 1
      && -TargetBoundX <= r.data[|s.data|].targetX <= TargetBoundX
      && -TargetBoundY <= r.data[|s.data|].targetY <= TargetBoundY
  {
    var b := CameraBasis(fl, s.startCamForward);
    var camPos := camera.GetOr(s.startCamPos);
    var s2 := Steer(fl, Shoot(s, current, camera), current, dt, camPos, b, offset, interval);
    var c := ClampToBox(Local(b, Sub3(Add3(s2.targetPosition, Scale3(s2.targetVelocity, dt)), camPos)));
    AdvanceStages(fl, s, current, dt, camera, offset, interval);
    assert Move(s2, dt, camPos, b).targetPosition == Place(camPos, b, c);
    LocalOfPlace(camPos, b, c);
  }

  /** With the identity camera, every step of a running trial keeps the target inside the box. */
  lemma TickKeepsTargetInBox(fl: Float, s: TestState, elapsed: real, dt: real, camera: Option<Vec3>, hasTarget: bool,
                             offset: real, interval: real)
    requires Lawful(fl) && ForwardIsNegZ(s)
    requires s.isRunning && hasTarget && TrialTime(s, elapsed) < TestDuration
    ensures Length3(fl, s.startCamForward) != 0.0
    ensures var r := Tick(fl, s, elapsed, dt, camera, hasTarget, offset, interval);
      && InBox(Local(CameraBasis(fl, s.startCamForward), Sub3(r.targetPosition, camera.GetOr(s.startCamPos))))
      && |r.data| == |s.data| + 1
      && -TargetBoundX <= r.data[|s.data|].targetX <= TargetBoundX
      && -TargetBoundY <= r.data[|s.data|].targetY <= TargetBoundY
  {
    ForwardNegZOrthonormal(fl, s.startCamForward);
    AdvanceKeepsTargetInBox(fl, s, TrialTime(s, elapsed), dt, camera, offset, interval);
  }

  /**
    A step fires a shot when a shot interval has passed since the last one. With a camera,
    the shot scores exactly one hit or one miss, a hit exactly when the crosshair ray meets
    the target sphere; without a camera nothing is scored. Otherwise the shot state is kept.
  */
  lemma TickShoots(fl: Float, s: TestState, elapsed: real, dt: real, camera: Option<Vec3>, hasTarget: bool,
                   offset: real, interval: real)
    requires Length3(fl, s.startCamForward) != 0.0
    requires s.isRunning && hasTarget && TrialTime(s, elapsed) < TestDuration
    ensures var r := Tick(fl, s, elapsed, dt, camera, hasTarget, offset, interval);
      var t := TrialTime(s, elapsed);
      if ShotDue(s, t) then
        && r.lastShotTime == t
        && (camera.None? ==> r.hits == s.hits && r.misses == s.misses)
        && (camera.Some? ==>
              && r.hits + r.misses == s.hits + s.misses + 1
              && (r.hits > s.hits <==> RaySphereIntersection(camera.value, s.crosshairDirection, s.targetPosition, TargetSize)))
      else
        r.lastShotTime == s.lastShotTime && r.hits == s.hits && r.misses == s.misses
  {
    AdvanceStages(fl, s, TrialTime(s, elapsed), dt, camera, offset, interval);
  }

  /**
    A step redirects the target exactly on the timer or when the advanced position would leave
    the box. A redirected target gets `NewVelocity` of its old velocity and the angle drawn,
    which has the target speed and, after a boundary hit, a non-negative component along the
    direction back to the camera; its next change is `interval` seconds later.
    Otherwise its velocity and timer are kept.
  */
  lemma TickRedirects(fl: Float, s: TestState, elapsed: real, dt: real, camera: Option<Vec3>, hasTarget: bool,
                      offset: real, interval: real)
    requires Lawful(fl) && UnitCircle(fl) && Length3(fl, s.startCamForward) != 0.0
    requires s.isRunning && hasTarget && TrialTime(s, elapsed) < TestDuration
    ensures var r := Tick(fl, s, elapsed, dt, camera, hasTarget, offset, interval);
      var t := TrialTime(s, elapsed);
      var rel := Sub3(Add3(s.targetPosition, Scale3(s.targetVelocity, dt)), camera.GetOr(s.startCamPos));
      var local := Local(CameraBasis(fl, s.startCamForward), rel);
      if Redirects(s, t, local) then
        && r.lastDirectionChangeTime == t && r.changeInterval == interval && r.nextDirectionChange == t + interval
        && r.targetVelocity == NewVelocity(fl, s.targetVelocity, rel, InBox(local), offset)
        && Dot3(r.targetVelocity, r.targetVelocity) == TargetSpeed * TargetSpeed
        && (!InBox(local) ==> Dot3(r.targetVelocity, ToCenter(fl, rel)) >= 0.0)
      else
        && r.targetVelocity == s.targetVelocity && r.lastDirectionChangeTime == s.lastDirectionChangeTime
        && r.changeInterval == s.changeInterval && r.nextDirectionChange == s.nextDirectionChange
  {
    var t := TrialTime(s, elapsed);
    var rel := Sub3(Add3(s.targetPosition, Scale3(s.targetVelocity, dt)), camera.GetOr(s.startCamPos));
    var local := Local(CameraBasis(fl, s.startCamForward), rel);
    AdvanceStages(fl, s, t, dt, camera, offset, interval);
    NewVelocityProperties(fl, s.targetVelocity, rel, InBox(local), offset);
  }

  /**
    No step changes the frozen trial parameters, the start of the trial or the crosshair.
    A step ends the trial (not running, completed) exactly when a running trial with a target
    reaches the trial duration without having completed before.
  */
  lemma TickKeepsTrialParameters(fl: Float, s: TestState, elapsed: real, dt: real, camera: Option<Vec3>, hasTarget: bool,
                                 offset: real, interval: real)
    requires Length3(fl, s.startCamForward) != 0.0
    ensures var r := Tick(fl, s, elapsed, dt, camera, hasTarget, offset, interval);
      && r.startCamForward == s.startCamForward && r.startCamPos == s.startCamPos
      && r.startTime == s.startTime && r.shotInterval == s.shotInterval
      && r.targetDistance == s.targetDistance && r.crosshairDirection == s.crosshairDirection
      && r.cameraYaw == s.cameraYaw && r.cameraPitch == s.cameraPitch
      && var ends := s.isRunning && hasTarget && TrialTime(s, elapsed) >= TestDuration && !s.testCompleted;
      && r.isRunning == (s.isRunning && !ends)
      && r.testCompleted == (s.testCompleted || ends)
  {
    if s.isRunning && hasTarget {
      if TrialTime(s, elapsed) < TestDuration {
        AdvanceKeepsTrialParameters(fl, s, TrialTime(s, elapsed), dt, camera, offset, interval);
      } else if !s.testCompleted {
        AnalyzeChangesOnlyStatistics(fl, s.(isRunning := false, testCompleted := true));
      }
    }
  }

  /**
    A step changes nothing unless a trial runs and the target exists. At the end of the trial
    time it finishes a trial not completed before, appending no sample, and leaves a
    completed one as it is.
  */
  lemma TickOutsideTrial(fl: Float, s: TestState, elapsed: real, dt: real, camera: Option<Vec3>, hasTarget: bool,
                         offset: real, interval: real)
    requires Length3(fl, s.startCamForward) != 0.0
    ensures !s.isRunning || !hasTarget ==> Tick(fl, s, elapsed, dt, camera, hasTarget, offset, interval) == s
    ensures s.isRunning && hasTarget && TrialTime(s, elapsed) >= TestDuration ==>
      var r := Tick(fl, s, elapsed, dt, camera, hasTarget, offset, interval);
      && r == (if s.testCompleted then s else Finish(fl, s))
      && r.data == s.data
  {
    if s.isRunning && hasTarget && TrialTime(s, elapsed) >= TestDuration && !s.testCompleted {
      AnalyzeChangesOnlyStatistics(fl, s.(isRunning := false, testCompleted := true));
    }
  }

  lemma AdvanceKeepsTrialParameters(fl: Float, s: TestState, current: real, dt: real, camera: Option<Vec3>,
                                    offset: real, interval: real)
    requires Length3(fl, s.startCamForward) != 0.0
    ensures var r := Advance(fl, s, current, dt, camera, offset, interval);
      && r.startCamForward == s.startCamForward && r.startCamPos == s.startCamPos
      && r.startTime == s.startTime && r.shotInterval == s.shotInterval
      && r.targetDistance == s.targetDistance && r.crosshairDirection == s.crosshairDirection
      && r.cameraYaw == s.cameraYaw && r.cameraPitch == s.cameraPitch
      && r.isRunning == s.isRunning && r.testCompleted == s.testCompleted
  {
    AdvanceStages(fl, s, current, dt, camera, offset, interval);
  }

  /** When the samples so far are no later than the trial time, a step keeps them in time order. */
  lemma TickKeepsSamplesOrdered(fl: Float, s: TestState, elapsed: real, dt: real, camera: Option<Vec3>, hasTarget: bool,
                                offset: real, interval: real)
    requires Length3(fl, s.startCamForward) != 0.0
    requires NonDecreasing(s.data)
    requires forall i :: 0 <= i < |s.data| ==> s.data[i].time <= TrialTime(s, elapsed)
    ensures NonDecreasing(Tick(fl, s, elapsed, dt, camera, hasTarget, offset, interval).data)
  {
    if s.isRunning && hasTarget && TrialTime(s, elapsed) < TestDuration {
      TickRecordsOneSample(fl, s, elapsed, dt, camera, hasTarget, offset, interval);
    }
  }

  // ---------------------------------------------------------------- properties of the analysis

  /**
    The delay statistics are stored only for at least 100 samples and at least one measured
    delay; when stored over time-ordered samples, the mean and the median lie between 70 and
    800 milliseconds and the reacted changes are among the detected ones. Nothing else changes.
  */
  lemma DelayStatisticsStored(fl: Float, s: TestState)
    requires NonDecreasing(s.data)
    ensures var r := DelayStatistics(fl, s);
      && r.(averageDelay := s.averageDelay, medianDelay := s.medianDelay,
            reactDirections := s.reactDirections, countDirections := s.countDirections) == s
      && (|s.data| < 100 ==> r == s)
      && (|s.data| >= 100 ==>
            var changes := DirectionChanges(fl, s.data);
            var delays := ReactionDelays(fl, s.data, changes);
            && (|delays| == 0 ==> r == s)
            && (|delays| > 0 ==>
                  && 70.0 <= r.averageDelay <= 800.0 && 70.0 <= r.medianDelay <= 800.0
                  && r.reactDirections == |delays| <= |changes| == r.countDirections))
  {
    if |s.data| >= 100 {
      var changes := DirectionChanges(fl, s.data);
      var delays := ReactionDelays(fl, s.data, changes);
      if |delays| > 0 {
        DelayStatisticsBounds(fl, s.data, changes);
      }
    }
  }

  /** The analysis changes nothing but the six statistics. */
  lemma AnalyzeChangesOnlyStatistics(fl: Float, s: TestState)
    ensures Analyze(fl, s).(averageDelay := s.averageDelay, medianDelay := s.medianDelay,
                            reactDirections := s.reactDirections, countDirections := s.countDirections,
                            rmsDistance := s.rmsDistance, peakAngularError := s.peakAngularError) == s
  {
  }

  /**
    The analysis needs at least 50 samples; it then stores the average angular error, in
    [0, 180] degrees when defined, and the peak error, in [0, 180] degrees; it changes
    nothing but the six statistics.
  */
  lemma AnalyzeStored(fl: Float, s: TestState)
    requires Lawful(fl)
    ensures var r := Analyze(fl, s);
      && r.(averageDelay := s.averageDelay, medianDelay := s.medianDelay,
            reactDirections := s.reactDirections, countDirections := s.countDirections,
            rmsDistance := s.rmsDistance, peakAngularError := s.peakAngularError) == s
      && (|s.data| < 50 ==> r == s)
      && (|s.data| >= 50 ==>
            && r.rmsDistance == AverageError(fl, s.data)
            && (r.rmsDistance.Some? ==> 0.0 <= r.rmsDistance.value <= 180.0)
            && r.peakAngularError == PeakError(fl, s.data)
            && 0.0 <= r.peakAngularError <= 180.0)
  {
    AverageErrorBounds(fl, s.data);
    PeakErrorBounds(fl, s.data);
  }
}
