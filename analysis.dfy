/**
  The reaction analysis run on the samples of a finished trial: smoothed on-screen
  velocities, detection of the target's turns, the search for the player's reaction to
  each turn, the delay statistics and the angular error of the crosshair.

  Every loop of the program is a method proved equal to a recursive specification
  function; the properties of the analysis are lemmas about those functions.
*/
module Analysis {
  import opened Wrappers
  import opened Numerics
  import opened Types

  // ---------------------------------------------------------------- smoothed directions

  /** Which screen coordinates of a sample a smoothed direction follows. */
  datatype Track = TargetTrack | CrosshairTrack

  function Coord(p: DataPoint, track: Track): Vec2 {
    match track
    case TargetTrack => Vec2(p.targetX, p.targetY)
    case CrosshairTrack => Vec2(p.crosshairX, p.crosshairY)
  }

  /** The speed a step must exceed to count: 0.1 for the target, 0.05 for the crosshair. */
  function MinStepSpeed(track: Track): real {
    match track
    case TargetTrack => 0.1
    case CrosshairTrack => 0.05
  }

  /** The velocity from one sample to the next, when the time step exceeds 1 ms and the speed the track's minimum. */
  function StepVelocity(fl: Float, a: DataPoint, b: DataPoint, track: Track): Option<Vec2> {
    var dt := b.time - a.time;
    if dt > 0.001 then
      var d := Div2(Sub2(Coord(b, track), Coord(a, track)), dt);
      if Length2(fl, d) > MinStepSpeed(track) then Some(d) else None
    else
      None
  }

  /** The sum and the number of the counted step velocities from `pts[i]` to `pts[i + 1]`, `lo <= i < hi`. */
  function StepSum(fl: Float, pts: seq<DataPoint>, lo: nat, hi: nat, track: Track): (r: (Vec2, nat))
    requires lo <= hi < |pts|
    ensures r.1 <= hi - lo
    decreases hi - lo
  {
    if lo == hi then (Zero2, 0)
    else
      var prev := StepSum(fl, pts, lo, hi - 1, track);
      match StepVelocity(fl, pts[hi - 1], pts[hi], track)
      case Some(d) => (Add2(prev.0, d), prev.1 + 1)
      case None => prev
  }

  /**
    The smoothed direction of samples `s` up to `e`: the mean of the counted step velocities
    between them, or zero when the range is empty, runs past the data or has no counted step.
  */
  function SmoothedDirection(fl: Float, data: seq<DataPoint>, s: nat, e: nat, track: Track): Vec2 {
    if s >= e || e >= |data| then Zero2
    else
      var sum := StepSum(fl, data, s, e - 1, track);
      if sum.1 > 0 then Div2(sum.0, sum.1 as real) else Zero2
  }

  /** Accumulates the counted step velocities of `pts[lo..hi]`: the loop shared by the three direction helpers. */
  method AccumulateSteps(fl: Float, pts: seq<DataPoint>, lo: nat, hi: nat, track: Track) returns (total: Vec2, count: nat)
    requires lo <= hi < |pts|
    ensures (total, count) == StepSum(fl, pts, lo, hi, track)
  {
    total, count := Zero2, 0;
    var i := lo;
    while i < hi
      invariant lo <= i <= hi
      invariant (total, count) == StepSum(fl, pts, lo, i, track)
    {
      var dt := pts[i + 1].time - pts[i].time;
      if dt > 0.001 {
        var direction := Div2(Sub2(Coord(pts[i + 1], track), Coord(pts[i], track)), dt);
        if Length2(fl, direction) > MinStepSpeed(track) {
          total := Add2(total, direction);
          count := count + 1;
        }
      }
      i := i + 1;
    }
  }

  /** `calculate_smoothed_target_direction` and `calculate_smoothed_crosshair_direction`. */
  method CalculateSmoothedDirection(fl: Float, data: seq<DataPoint>, s: nat, e: nat, track: Track) returns (r: Vec2)
    ensures r == SmoothedDirection(fl, data, s, e, track)
  {
    if s >= e || e >= |data| {
      return Zero2;
    }
    var total, count := AccumulateSteps(fl, data, s, e - 1, track);
    if count > 0 {
      r := Div2(total, count as real);
    } else {
      r := Zero2;
    }
  }

  lemma {:induction false} StepSumUniform(fl: Float, pts: seq<DataPoint>, lo: nat, hi: nat, track: Track, v: Vec2)
    requires lo <= hi < |pts|
    requires forall i :: lo <= i < hi ==> StepVelocity(fl, pts[i], pts[i + 1], track) == Some(v)
    ensures StepSum(fl, pts, lo, hi, track) == (Scale2(v, (hi - lo) as real), hi - lo)
    decreases hi - lo
  {
    if lo < hi {
      StepSumUniform(fl, pts, lo, hi - 1, track, v);
      StepSumCounts(fl, pts, lo, hi, track, v);
      ScaleStep(v, (hi - 1 - lo) as real);
      assert (hi - lo) as real == (hi - 1 - lo) as real + 1.0;
    } else {
      ScaleZero(v, (hi - lo) as real);
    }
  }

  /** A counted last step adds its velocity to the sum and one to the count. */
  lemma StepSumCounts(fl: Float, pts: seq<DataPoint>, lo: nat, hi: nat, track: Track, v: Vec2)
    requires lo < hi < |pts|
    requires StepVelocity(fl, pts[hi - 1], pts[hi], track) == Some(v)
    ensures var prev := StepSum(fl, pts, lo, hi - 1, track);
      StepSum(fl, pts, lo, hi, track) == (Add2(prev.0, v), prev.1 + 1)
  {
  }

  lemma ScaleStep(v: Vec2, n: real)
    ensures Add2(Scale2(v, n), v) == Scale2(v, n + 1.0)
  {
    assert v.x * n + v.x == v.x * (n + 1.0);
    assert v.y * n + v.y == v.y * (n + 1.0);
  }

  lemma ScaleZero(v: Vec2, z: real)
    requires z == 0.0
    ensures Scale2(v, z) == Zero2
  {
  }

  lemma Unscale(v: Vec2, n: real)
    requires n != 0.0
    ensures Div2(Scale2(v, n), n) == v
  {
    assert (v.x * n) / n == v.x;
    assert (v.y * n) / n == v.y;
  }

  /** A track that moves with one counted velocity over a window is smoothed to exactly that velocity. */
  lemma UniformMotionSmoothed(fl: Float, data: seq<DataPoint>, s: nat, e: nat, track: Track, v: Vec2)
    requires s + 1 < e < |data|
    requires forall i :: s <= i < e - 1 ==> StepVelocity(fl, data[i], data[i + 1], track) == Some(v)
    ensures SmoothedDirection(fl, data, s, e, track) == v
  {
    StepSumUniform(fl, data, s, e - 1, track, v);
    var n := (e - 1 - s) as real;
    Unscale(v, n);
  }

  // ---------------------------------------------------------------- angles

  /** Radians to degrees. */
  function ToDegrees(a: real): real {
    a * 180.0 / Pi
  }

  lemma DegreesRange(a: real)
    requires 0.0 <= a <= Pi
    ensures 0.0 <= ToDegrees(a) <= 180.0
  {
    var d := a * 180.0;
    assert 0.0 <= d <= Pi * 180.0;
    DivBounds(d, Pi, 0.0, 180.0);
  }

  /** `acos` of a clamped cosine, in degrees, lies in `[0, 180]`. */
  lemma AcosDegrees(fl: Float, c: real)
    requires -1.0 <= c <= 1.0
    ensures Lawful(fl) ==> 0.0 <= ToDegrees(fl.acos(c)) <= 180.0
  {
    if Lawful(fl) {
      DegreesRange(fl.acos(c));
    }
  }

  /** The angle in degrees between two plane directions, through `acos` of the clamped dot product. */
  function AngleDegrees(fl: Float, a: Vec2, b: Vec2): (r: real)
    ensures Lawful(fl) ==> 0.0 <= r <= 180.0
  {
    var c := Clamp(Dot2(a, b), -1.0, 1.0);
    AcosDegrees(fl, c);
    ToDegrees(fl.acos(c))
  }

  // ---------------------------------------------------------------- direction changes

  /** Window size of the turn detector. */
  const TurnWindow: nat := 7

  /** The index after the last one the turn detector examines. */
  function ScanEnd(data: seq<DataPoint>): nat
    requires |data| >= TurnWindow
  {
    if |data| >= 2 * TurnWindow then |data| - TurnWindow else TurnWindow
  }

  /**
    The target's new direction when the sample at `j` is a turn: the smoothed directions of
    the seven samples before and after are both at least 0.2 long and at least 35 degrees apart.
  */
  function Turn(fl: Float, data: seq<DataPoint>, j: nat): Option<Vec2>
    requires j >= TurnWindow
  {
    var before := SmoothedDirection(fl, data, j - TurnWindow, j, TargetTrack);
    var after := SmoothedDirection(fl, data, j, j + TurnWindow, TargetTrack);
    if Length2(fl, before) < 0.2 || Length2(fl, after) < 0.2 then None
    else
      var b := Normalize2(fl, before);
      var a := Normalize2(fl, after);
      if AngleDegrees(fl, b, a) >= 35.0 then Some(a) else None
  }

  /** Some recorded change lies less than 80 ms from `t`. */
  predicate IsDuplicate(changes: seq<DirectionChange>, t: real) {
    exists k | 0 <= k < |changes| :: Abs(changes[k].time - t) < 0.08
  }

  /** The changes recorded after examining samples `TurnWindow` up to `i`. */
  function ChangesUpTo(fl: Float, data: seq<DataPoint>, i: nat): seq<DirectionChange>
    requires |data| >= TurnWindow && TurnWindow <= i <= ScanEnd(data)
    decreases i
  {
    if i == TurnWindow then []
    else
      var changes := ChangesUpTo(fl, data, i - 1);
      var j := i - 1;
      match Turn(fl, data, j)
      case Some(a) =>
        if IsDuplicate(changes, data[j].time) then changes
        else changes + [DirectionChange(data[j].time, a)]
      case None => changes
  }

  /** The result of `find_target_direction_changes`. */
  function DirectionChanges(fl: Float, data: seq<DataPoint>): seq<DirectionChange>
    requires |data| >= TurnWindow
  {
    ChangesUpTo(fl, data, ScanEnd(data))
  }

  /** `find_target_direction_changes`; the index range needs at least seven samples. */
  method FindTargetDirectionChanges(fl: Float, data: seq<DataPoint>) returns (changes: seq<DirectionChange>)
    requires |data| >= TurnWindow
    ensures changes == DirectionChanges(fl, data)
  {
    changes := [];
    var i := TurnWindow;
    while i < ScanEnd(data)
      invariant TurnWindow <= i <= ScanEnd(data)
      invariant changes == ChangesUpTo(fl, data, i)
    {
      var turn := DetectTurn(fl, data, i);
      ChangesNext(fl, data, i + 1, turn);
      if turn.Some? && !IsDuplicate(changes, data[i].time) {
        changes := changes + [DirectionChange(data[i].time, turn.value)];
      }
      i := i + 1;
    }
  }

  lemma ChangesNext(fl: Float, data: seq<DataPoint>, i: nat, turn: Option<Vec2>)
    requires |data| >= TurnWindow && TurnWindow < i <= ScanEnd(data)
    requires turn == Turn(fl, data, i - 1)
    ensures var prev := ChangesUpTo(fl, data, i - 1);
      ChangesUpTo(fl, data, i) == if turn.Some? && !IsDuplicate(prev, data[i - 1].time)
        then prev + [DirectionChange(data[i - 1].time, turn.value)] else prev
  {
  }

  /** The body of the detector's loop for sample `i`: the two smoothed directions and the angle between them. */
  method DetectTurn(fl: Float, data: seq<DataPoint>, i: nat) returns (turn: Option<Vec2>)
    requires i >= TurnWindow
    ensures turn == Turn(fl, data, i)
  {
    turn := None;
    var before := CalculateSmoothedDirection(fl, data, i - TurnWindow, i, TargetTrack);
    var after := CalculateSmoothedDirection(fl, data, i, i + TurnWindow, TargetTrack);
    if Length2(fl, before) >= 0.2 && Length2(fl, after) >= 0.2 {
      var b := Normalize2(fl, before);
      var a := Normalize2(fl, after);
      if AngleDegrees(fl, b, a) >= 35.0 {
        turn := Some(a);
      }
    }
  }

  /** One step of the turn detector either records nothing or appends one change for sample `i - 1`, far from all earlier ones. */
  lemma ChangesStep(fl: Float, data: seq<DataPoint>, i: nat)
    requires |data| >= TurnWindow && TurnWindow < i <= ScanEnd(data)
    ensures var prev := ChangesUpTo(fl, data, i - 1); var cur := ChangesUpTo(fl, data, i);
      || cur == prev
      || (&& cur == prev + [cur[|prev|]]
          && cur[|prev|].time == data[i - 1].time
          && Turn(fl, data, i - 1) == Some(cur[|prev|].targetNewDirection)
          && !IsDuplicate(prev, data[i - 1].time))
  {
  }

  /** Every recorded change carries the time of a sample at an index in `[7, len - 7)`. */
  lemma {:induction false} ChangesAtSampleTimes(fl: Float, data: seq<DataPoint>, i: nat)
    requires |data| >= TurnWindow && TurnWindow <= i <= ScanEnd(data)
    ensures var cs := ChangesUpTo(fl, data, i);
      forall k :: 0 <= k < |cs| ==> exists j | TurnWindow <= j < |data| - TurnWindow :: data[j].time == cs[k].time
    decreases i
  {
    if i > TurnWindow {
      ChangesAtSampleTimes(fl, data, i - 1);
      ChangesStep(fl, data, i);
      var prev := ChangesUpTo(fl, data, i - 1);
      var cur := ChangesUpTo(fl, data, i);
      forall k | 0 <= k < |cur|
        ensures exists j | TurnWindow <= j < |data| - TurnWindow :: data[j].time == cur[k].time
      {
        if k < |prev| {
          assert cur[k] == prev[k];
        } else {
          var j := i - 1;
          assert TurnWindow <= j < |data| - TurnWindow && data[j].time == cur[k].time;
        }
      }
    }
  }

  /** No two recorded changes are less than 80 ms apart. */
  lemma {:induction false} ChangesSpaced(fl: Float, data: seq<DataPoint>, i: nat)
    requires |data| >= TurnWindow && TurnWindow <= i <= ScanEnd(data)
    ensures var cs := ChangesUpTo(fl, data, i);
      forall a, b :: 0 <= a < b < |cs| ==> Abs(cs[a].time - cs[b].time) >= 0.08
    decreases i
  {
    if i > TurnWindow {
      ChangesSpaced(fl, data, i - 1);
      ChangesStep(fl, data, i);
      var prev := ChangesUpTo(fl, data, i - 1);
      var cur := ChangesUpTo(fl, data, i);
      forall a, b | 0 <= a < b < |cur|
        ensures Abs(cur[a].time - cur[b].time) >= 0.08
      {
        if b < |prev| {
          assert cur[a] == prev[a] && cur[b] == prev[b];
        } else {
          assert cur[a] == prev[a];
          assert !(Abs(prev[a].time - data[i - 1].time) < 0.08);
        }
      }
    }
  }

  /** The new direction recorded with each change is a unit vector. */
  lemma {:induction false} ChangesUnitDirections(fl: Float, data: seq<DataPoint>, i: nat)
    requires Lawful(fl)
    requires |data| >= TurnWindow && TurnWindow <= i <= ScanEnd(data)
    ensures var cs := ChangesUpTo(fl, data, i);
      forall k :: 0 <= k < |cs| ==> Dot2(cs[k].targetNewDirection, cs[k].targetNewDirection) == 1.0
    decreases i
  {
    if i > TurnWindow {
      ChangesUnitDirections(fl, data, i - 1);
      ChangesStep(fl, data, i);
      var prev := ChangesUpTo(fl, data, i - 1);
      var cur := ChangesUpTo(fl, data, i);
      if cur != prev {
        var j := i - 1;
        var after := SmoothedDirection(fl, data, j, j + TurnWindow, TargetTrack);
        assert Length2(fl, after) >= 0.2;
        NormalizeIsUnit2(fl, after);
        forall k | 0 <= k < |cur|
          ensures Dot2(cur[k].targetNewDirection, cur[k].targetNewDirection) == 1.0
        {
          if k < |prev| {
            assert cur[k] == prev[k];
          }
        }
      }
    }
  }

  /** Properties of `find_target_direction_changes` on a whole trial. */
  lemma DirectionChangesProperties(fl: Float, data: seq<DataPoint>)
    requires |data| >= TurnWindow
    ensures var cs := DirectionChanges(fl, data);
      && (forall k :: 0 <= k < |cs| ==>
            exists j | TurnWindow <= j < |data| - TurnWindow :: data[j].time == cs[k].time)
      && (forall a, b :: 0 <= a < b < |cs| ==> Abs(cs[a].time - cs[b].time) >= 0.08)
  {
    assert DirectionChanges(fl, data) == ChangesUpTo(fl, data, ScanEnd(data));
    ChangesAtSampleTimes(fl, data, ScanEnd(data));
    ChangesSpaced(fl, data, ScanEnd(data));
  }

  // ---------------------------------------------------------------- the player's reaction

  /** Sample times never decrease, as with samples stamped by a running clock. */
  predicate NonDecreasing(data: seq<DataPoint>) {
    forall i, j :: 0 <= i <= j < |data| ==> data[i].time <= data[j].time
  }

  /** `position(|d| d.time >= t)`, searching from index `i`. */
  function FirstAtOrAfter(data: seq<DataPoint>, t: real, i: nat): (r: Option<nat>)
    requires i <= |data|
    ensures r.Some? ==> i <= r.value < |data| && data[r.value].time >= t
    decreases |data| - i
  {
    if i == |data| then None
    else if data[i].time >= t then Some(i)
    else FirstAtOrAfter(data, t, i + 1)
  }

  /** `FirstAtOrAfter` finds the first sample at or after `t`, and finds none only when there is none. */
  lemma {:induction false} FirstAtOrAfterIsFirst(data: seq<DataPoint>, t: real, i: nat)
    requires i <= |data|
    ensures var r := FirstAtOrAfter(data, t, i);
      && (r.Some? ==> forall j :: i <= j < r.value ==> data[j].time < t)
      && (r.None? ==> forall j :: i <= j < |data| ==> data[j].time < t)
    decreases |data| - i
  {
    if i < |data| && data[i].time < t {
      FirstAtOrAfterIsFirst(data, t, i + 1);
    }
  }

  /** `rposition(|d| d.time <= t)` among the first `n` samples. */
  function LastAtOrBefore(data: seq<DataPoint>, t: real, n: nat): (r: Option<nat>)
    requires n <= |data|
    ensures r.Some? ==> r.value < n && data[r.value].time <= t
  {
    if n == 0 then None
    else if data[n - 1].time <= t then Some(n - 1)
    else LastAtOrBefore(data, t, n - 1)
  }

  /** `LastAtOrBefore` finds the last sample at or before `t`, and finds none only when there is none. */
  lemma {:induction false} LastAtOrBeforeIsLast(data: seq<DataPoint>, t: real, n: nat)
    requires n <= |data|
    ensures var r := LastAtOrBefore(data, t, n);
      && (r.Some? ==> forall j :: r.value < j < n ==> data[j].time > t)
      && (r.None? ==> forall j :: 0 <= j < n ==> data[j].time > t)
  {
    if n > 0 && data[n - 1].time > t {
      LastAtOrBeforeIsLast(data, t, n - 1);
    }
  }

  /** The samples with `lo <= time < hi`, in order. */
  function Relevant(data: seq<DataPoint>, lo: real, hi: real): (r: seq<DataPoint>)
    ensures |r| <= |data|
  {
    if |data| == 0 then []
    else
      var rest := Relevant(data[1..], lo, hi);
      if lo <= data[0].time < hi then [data[0]] + rest else rest
  }

  /** `Relevant` keeps exactly the samples of the window. */
  lemma {:induction false} RelevantExactly(data: seq<DataPoint>, lo: real, hi: real)
    ensures forall p :: p in Relevant(data, lo, hi) <==> p in data && lo <= p.time < hi
  {
    if |data| > 0 {
      RelevantExactly(data[1..], lo, hi);
      assert data == [data[0]] + data[1..];
    }
  }

  /**
    The crosshair's direction over the 150 ms before `t`: the mean counted step velocity of
    the samples in that window, absent with fewer than three samples or no counted step.
  */
  function DirectionBefore(fl: Float, data: seq<DataPoint>, t: real): (r: Option<Vec2>)
    ensures |Relevant(data, t - 0.15, t)| < 3 ==> r.None?
  {
    var pts := Relevant(data, t - 0.15, t);
    if |pts| < 3 then None
    else
      var sum := StepSum(fl, pts, 0, |pts| - 1, CrosshairTrack);
      if sum.1 > 0 then Some(Div2(sum.0, sum.1 as real)) else None
  }

  /** `calculate_crosshair_direction_before_time`. */
  method CrosshairDirectionBeforeTime(fl: Float, data: seq<DataPoint>, t: real) returns (r: Option<Vec2>)
    ensures r == DirectionBefore(fl, data, t)
  {
    var pts := Relevant(data, t - 0.15, t);
    if |pts| < 3 {
      return None;
    }
    var total, count := AccumulateSteps(fl, pts, 0, |pts| - 1, CrosshairTrack);
    if count > 0 {
      r := Some(Div2(total, count as real));
    } else {
      r := None;
    }
  }

  /**
    The crosshair reacts at sample `i`: its smoothed direction over the next three samples
    is at least 0.1 long, turns at least 25 degrees away from `pre`, and lines up with the
    target's new direction better than `pre` did, by more than 0.05.
  */
  predicate Reacts(fl: Float, data: seq<DataPoint>, change: DirectionChange, pre: Vec2, i: nat) {
    var cur := SmoothedDirection(fl, data, i, i + 3, CrosshairTrack);
    if Length2(fl, cur) < 0.1 then false
    else
      var c := Normalize2(fl, cur);
      match TryNormalize2(fl, pre)
      case None => false
      case Some(o) =>
        AngleDegrees(fl, o, c) >= 25.0
        && Dot2(c, change.targetNewDirection) > Dot2(o, change.targetNewDirection) + 0.05
  }

  /** The time of the first sample in `[i, hi)` at which the crosshair reacts. */
  function FirstReaction(fl: Float, data: seq<DataPoint>, change: DirectionChange, pre: Vec2, i: nat, hi: nat): Option<real>
    requires hi <= |data|
    decreases hi - i
  {
    if i >= hi then None
    else if Reacts(fl, data, change, pre, i) then Some(data[i].time)
    else FirstReaction(fl, data, change, pre, i + 1, hi)
  }

  /** A reaction found is the time of the first sample of the searched range at which the crosshair reacts. */
  lemma {:induction false} FirstReactionFound(fl: Float, data: seq<DataPoint>, change: DirectionChange, pre: Vec2, i: nat, hi: nat)
    returns (k: nat)
    requires hi <= |data|
    requires FirstReaction(fl, data, change, pre, i, hi).Some?
    ensures i <= k < hi && Reacts(fl, data, change, pre, k)
    ensures data[k].time == FirstReaction(fl, data, change, pre, i, hi).value
    ensures forall j :: i <= j < k ==> !Reacts(fl, data, change, pre, j)
    decreases hi - i
  {
    if Reacts(fl, data, change, pre, i) {
      k := i;
    } else {
      k := FirstReactionFound(fl, data, change, pre, i + 1, hi);
      forall j | i <= j < k
        ensures !Reacts(fl, data, change, pre, j)
      {
        if j == i {
        }
      }
    }
  }

  /** The search finds nothing exactly when no sample of the range reacts. */
  lemma {:induction false} FirstReactionNone(fl: Float, data: seq<DataPoint>, change: DirectionChange, pre: Vec2, i: nat, hi: nat)
    requires hi <= |data|
    ensures FirstReaction(fl, data, change, pre, i, hi).None? <==> forall j :: i <= j < hi ==> !Reacts(fl, data, change, pre, j)
    decreases hi - i
  {
    if i < hi {
      if Reacts(fl, data, change, pre, i) {
        assert FirstReaction(fl, data, change, pre, i, hi).Some?;
      } else {
        FirstReactionNone(fl, data, change, pre, i + 1, hi);
        assert FirstReaction(fl, data, change, pre, i, hi) == FirstReaction(fl, data, change, pre, i + 1, hi);
        if forall j :: i + 1 <= j < hi ==> !Reacts(fl, data, change, pre, j) {
          forall j | i <= j < hi
            ensures !Reacts(fl, data, change, pre, j)
          {
            if j == i {
            }
          }
        }
      }
    }
  }

  /** The result of `find_player_reaction` for a change and a search window `[from, to]`. */
  function PlayerReaction(fl: Float, data: seq<DataPoint>, change: DirectionChange, from: real, to: real): (r: Option<real>)
    ensures |Relevant(data, change.time - 0.15, change.time)| < 3 ==> r.None?
  {
    var first := FirstAtOrAfter(data, from, 0);
    var last := LastAtOrBefore(data, to, |data|);
    if first.None? || last.None? || first.value >= last.value then None
    else
      match DirectionBefore(fl, data, change.time)
      case None => None
      case Some(pre) =>
        if last.value < 3 then None
        else FirstReaction(fl, data, change, pre, first.value, last.value - 3)
  }

  /** Without a crosshair direction before the change there is no reaction. */
  lemma PlayerReactionNeedsDirection(fl: Float, data: seq<DataPoint>, change: DirectionChange, from: real, to: real)
    requires DirectionBefore(fl, data, change.time).None?
    ensures PlayerReaction(fl, data, change, from, to).None?
  {
  }

  /**
    The reaction of `find_player_reaction` is the time of the first sample, from the first one
    at or after `from` up to three before the last one at or before `to`, at which the crosshair
    reacts against its direction before the change; there is none exactly when no such sample reacts.
  */
  lemma PlayerReactionIsFirst(fl: Float, data: seq<DataPoint>, change: DirectionChange, from: real, to: real)
    requires FirstAtOrAfter(data, from, 0).Some? && LastAtOrBefore(data, to, |data|).Some?
    requires FirstAtOrAfter(data, from, 0).value < LastAtOrBefore(data, to, |data|).value
    requires LastAtOrBefore(data, to, |data|).value >= 3
    requires DirectionBefore(fl, data, change.time).Some?
    ensures var lo, hi, pre := FirstAtOrAfter(data, from, 0).value, LastAtOrBefore(data, to, |data|).value - 3,
                               DirectionBefore(fl, data, change.time).value;
      var r := PlayerReaction(fl, data, change, from, to);
      && (r.None? <==> forall j :: lo <= j < hi ==> !Reacts(fl, data, change, pre, j))
      && (r.Some? ==> exists k :: lo <= k < hi && Reacts(fl, data, change, pre, k) && data[k].time == r.value
                        && forall j :: lo <= j < k ==> !Reacts(fl, data, change, pre, j))
  {
    var lo, hi, pre := FirstAtOrAfter(data, from, 0).value, LastAtOrBefore(data, to, |data|).value - 3,
                       DirectionBefore(fl, data, change.time).value;
    var r := FirstReaction(fl, data, change, pre, lo, hi);
    assert PlayerReaction(fl, data, change, from, to) == r;
    FirstReactionNone(fl, data, change, pre, lo, hi);
    if r.Some? {
      var k := FirstReactionFound(fl, data, change, pre, lo, hi);
      assert lo <= k < hi && Reacts(fl, data, change, pre, k) && data[k].time == r.value;
    }
  }

  /** `find_player_reaction`: a scan with an early return. */
  method FindPlayerReaction(fl: Float, data: seq<DataPoint>, change: DirectionChange, from: real, to: real)
    returns (r: Option<real>)
    ensures r == PlayerReaction(fl, data, change, from, to)
  {
    var first := FirstAtOrAfter(data, from, 0);
    var last := LastAtOrBefore(data, to, |data|);
    if first.None? || last.None? || first.value >= last.value {
      return None;
    }
    var pre := CrosshairDirectionBeforeTime(fl, data, change.time);
    if pre.None? || last.value < 3 {
      return None;
    }
    var hi := last.value - 3;
    var i := first.value;
    while i < hi
      invariant first.value <= i
      invariant FirstReaction(fl, data, change, pre.value, first.value, hi)
             == FirstReaction(fl, data, change, pre.value, i, hi)
      decreases hi - i
    {
      var reacts := CheckReaction(fl, data, change, pre.value, i);
      FirstReactionStep(fl, data, change, pre.value, i, hi, reacts);
      if reacts {
        return Some(data[i].time);
      }
      i := i + 1;
    }
    r := None;
  }

  lemma FirstReactionStep(fl: Float, data: seq<DataPoint>, change: DirectionChange, pre: Vec2, i: nat, hi: nat, reacts: bool)
    requires i < hi <= |data|
    requires reacts == Reacts(fl, data, change, pre, i)
    ensures FirstReaction(fl, data, change, pre, i, hi)
      == if reacts then Some(data[i].time) else FirstReaction(fl, data, change, pre, i + 1, hi)
  {
  }

  /** The body of the reaction search for sample `i`. */
  method CheckReaction(fl: Float, data: seq<DataPoint>, change: DirectionChange, pre: Vec2, i: nat) returns (reacts: bool)
    ensures reacts == Reacts(fl, data, change, pre, i)
  {
    reacts := false;
    var cur := CalculateSmoothedDirection(fl, data, i, i + 3, CrosshairTrack);
    if Length2(fl, cur) >= 0.1 {
      var c := Normalize2(fl, cur);
      var o := TryNormalize2(fl, pre);
      if o.Some? && AngleDegrees(fl, o.value, c) >= 25.0
         && Dot2(c, change.targetNewDirection) > Dot2(o.value, change.targetNewDirection) + 0.05 {
        reacts := true;
      }
    }
  }

  predicate AllWithin(s: seq<real>, lo: real, hi: real) {
    forall k :: 0 <= k < |s| ==> lo <= s[k] <= hi
  }

  /** On samples in time order, a reaction found for the window `[from, to]` lies in it. */
  lemma ReactionInWindow(fl: Float, data: seq<DataPoint>, change: DirectionChange, from: real, to: real)
    requires NonDecreasing(data)
    requires PlayerReaction(fl, data, change, from, to).Some?
    ensures from <= PlayerReaction(fl, data, change, from, to).value <= to
  {
    var first := FirstAtOrAfter(data, from, 0).value;
    var last := LastAtOrBefore(data, to, |data|).value;
    var pre := DirectionBefore(fl, data, change.time).value;
    var k := FirstReactionFound(fl, data, change, pre, first, last - 3);
    assert data[first].time <= data[k].time <= data[last].time;
  }

  /** The delay to the player's reaction for one change, searched for from 70 ms to 800 ms after it. */
  function DelayFor(fl: Float, data: seq<DataPoint>, change: DirectionChange): Option<real> {
    match PlayerReaction(fl, data, change, change.time + 0.07, change.time + 0.8)
    case Some(t) => Some(t - change.time)
    case None => None
  }

  /** The result of `calculate_reaction_delays`: the delays of the changes that found a reaction, in order. */
  function ReactionDelays(fl: Float, data: seq<DataPoint>, changes: seq<DirectionChange>): (r: seq<real>)
    ensures |r| <= |changes|
  {
    if |changes| == 0 then []
    else
      var prev := ReactionDelays(fl, data, changes[..|changes| - 1]);
      match DelayFor(fl, data, changes[|changes| - 1])
      case Some(d) => prev + [d]
      case None => prev
  }

  lemma ReactionDelaysSnoc(fl: Float, data: seq<DataPoint>, cs: seq<DirectionChange>, c: DirectionChange, d: Option<real>)
    requires d == DelayFor(fl, data, c)
    ensures d.Some? ==> ReactionDelays(fl, data, cs + [c]) == ReactionDelays(fl, data, cs) + [d.value]
    ensures d.None? ==> ReactionDelays(fl, data, cs + [c]) == ReactionDelays(fl, data, cs)
  {
    assert (cs + [c])[..|cs|] == cs;
  }

  /** The body of the loop of `calculate_reaction_delays`: the search around one change. */
  method ReactionDelay(fl: Float, data: seq<DataPoint>, change: DirectionChange) returns (d: Option<real>)
    ensures d == DelayFor(fl, data, change)
  {
    var t := FindPlayerReaction(fl, data, change, change.time + 0.07, change.time + 0.8);
    if t.Some? {
      d := Some(t.value - change.time);
    } else {
      d := None;
    }
  }

  /** `calculate_reaction_delays`. */
  method CalculateReactionDelays(fl: Float, data: seq<DataPoint>, changes: seq<DirectionChange>) returns (delays: seq<real>)
    ensures delays == ReactionDelays(fl, data, changes)
  {
    delays := [];
    for k := 0 to |changes|
      invariant delays == ReactionDelays(fl, data, changes[..k])
    {
      var d := ReactionDelay(fl, data, changes[k]);
      ReactionDelaysSnoc(fl, data, changes[..k], changes[k], d);
      assert changes[..k + 1] == changes[..k] + [changes[k]];
      if d.Some? {
        delays := delays + [d.value];
      }
    }
    assert changes[..|changes|] == changes;
  }

  /** On samples in time order, the delay found for one change lies in `[0.07, 0.8]` seconds. */
  lemma DelayForBounded(fl: Float, data: seq<DataPoint>, c: DirectionChange)
    requires NonDecreasing(data)
    ensures DelayFor(fl, data, c).Some? ==> 0.07 <= DelayFor(fl, data, c).value <= 0.8
  {
    var r := PlayerReaction(fl, data, c, c.time + 0.07, c.time + 0.8);
    if r.Some? {
      ReactionInWindow(fl, data, c, c.time + 0.07, c.time + 0.8);
      assert DelayFor(fl, data, c) == Some(r.value - c.time);
    }
  }

  /** On samples in time order, every delay lies in `[0.07, 0.8]` seconds. */
  lemma {:induction false} DelaysBounded(fl: Float, data: seq<DataPoint>, changes: seq<DirectionChange>)
    requires NonDecreasing(data)
    ensures AllWithin(ReactionDelays(fl, data, changes), 0.07, 0.8)
  {
    if |changes| > 0 {
      var cs := changes[..|changes| - 1];
      var c := changes[|changes| - 1];
      DelaysBounded(fl, data, cs);
      assert changes == cs + [c];
      ReactionDelaysSnoc(fl, data, cs, c, DelayFor(fl, data, c));
      DelayForBounded(fl, data, c);
    }
  }

  // ---------------------------------------------------------------- delay statistics

  function Sum(s: seq<real>): real {
    if |s| == 0 then 0.0 else Sum(s[..|s| - 1]) + s[|s| - 1]
  }

  lemma {:induction false} SumBounds(s: seq<real>, lo: real, hi: real)
    requires AllWithin(s, lo, hi)
    ensures |s| as real * lo <= Sum(s) <= |s| as real * hi
  {
    if |s| > 0 {
      var p := s[..|s| - 1];
      assert AllWithin(p, lo, hi) by {
        forall k | 0 <= k < |p| ensures lo <= p[k] <= hi {
          assert p[k] == s[k];
        }
      }
      SumBounds(p, lo, hi);
      var n := |p| as real;
      var x := s[|s| - 1];
      assert lo <= x <= hi;
      assert Sum(s) == Sum(p) + x;
      assert |s| as real == n + 1.0;
      assert (n + 1.0) * lo == n * lo + lo;
      assert (n + 1.0) * hi == n * hi + hi;
    }
  }

  /** The mean of the delays in milliseconds: sum over count, times 1000. */
  function AverageMs(ds: seq<real>): real
    requires |ds| > 0
  {
    Sum(ds) / |ds| as real * 1000.0
  }

  predicate Sorted(s: seq<real>) {
    forall i, j :: 0 <= i < j < |s| ==> s[i] <= s[j]
  }

  function Insert(x: real, s: seq<real>): (r: seq<real>)
    requires Sorted(s)
    ensures Sorted(r)
    ensures multiset(r) == multiset(s) + multiset{x}
    ensures |r| == |s| + 1
  {
    if |s| == 0 then [x]
    else if x <= s[0] then [x] + s
    else
      SortedTail(s);
      var rest := Insert(x, s[1..]);
      InsertBehindHead(x, s, rest);
      [s[0]] + rest
  }

  lemma SortedTail(s: seq<real>)
    requires |s| > 0 && Sorted(s)
    ensures Sorted(s[1..])
  {
    var t := s[1..];
    forall i, j | 0 <= i < j < |t| ensures t[i] <= t[j] {
      assert t[i] == s[i + 1] && t[j] == s[j + 1];
    }
  }

  /** Putting the head of `s` back in front of the insertion into its tail keeps the order. */
  lemma InsertBehindHead(x: real, s: seq<real>, rest: seq<real>)
    requires |s| > 0 && Sorted(s) && s[0] < x
    requires Sorted(rest) && multiset(rest) == multiset(s[1..]) + multiset{x}
    ensures Sorted([s[0]] + rest)
    ensures multiset([s[0]] + rest) == multiset(s) + multiset{x}
  {
    assert s == [s[0]] + s[1..];
    forall k | 0 <= k < |rest| ensures s[0] <= rest[k] {
      assert rest[k] in multiset(rest);
      if rest[k] != x {
        assert rest[k] in multiset(s[1..]);
        var j :| 0 <= j < |s[1..]| && s[1..][j] == rest[k];
        assert s[j + 1] == rest[k];
      }
    }
    var r := [s[0]] + rest;
    forall i, j | 0 <= i < j < |r| ensures r[i] <= r[j] {
      assert r[j] == rest[j - 1];
      if i > 0 {
        assert r[i] == rest[i - 1];
      }
    }
  }

  /** `sort_by(partial_cmp)`: the delays in ascending order. */
  function SortAscending(s: seq<real>): (r: seq<real>)
    ensures Sorted(r) && multiset(r) == multiset(s) && |r| == |s|
  {
    if |s| == 0 then []
    else
      assert s == [s[0]] + s[1..];
      Insert(s[0], SortAscending(s[1..]))
  }

  /** The middle element of a sorted sequence, or the mean of the two middle ones when the count is even. */
  function Median(sorted: seq<real>): real
    requires |sorted| > 0
  {
    var n := |sorted|;
    if n % 2 == 0 then (sorted[n / 2 - 1] + sorted[n / 2]) / 2.0 else sorted[n / 2]
  }

  /** The median of the delays in milliseconds. */
  function MedianMs(ds: seq<real>): real
    requires |ds| > 0
  {
    Median(SortAscending(ds)) * 1000.0
  }

  lemma SortKeepsBounds(s: seq<real>, lo: real, hi: real)
    requires AllWithin(s, lo, hi)
    ensures AllWithin(SortAscending(s), lo, hi)
  {
    var r := SortAscending(s);
    forall k | 0 <= k < |r| ensures lo <= r[k] <= hi {
      assert r[k] in multiset(r);
      assert r[k] in multiset(s);
      var j :| 0 <= j < |s| && s[j] == r[k];
    }
  }

  /** The mean and the median of delays within `[lo, hi]` seconds lie within `[lo, hi]` after scaling to milliseconds. */
  lemma StatisticsBounds(ds: seq<real>, lo: real, hi: real)
    requires |ds| > 0 && AllWithin(ds, lo, hi)
    ensures lo * 1000.0 <= AverageMs(ds) <= hi * 1000.0
    ensures lo * 1000.0 <= MedianMs(ds) <= hi * 1000.0
  {
    SumBounds(ds, lo, hi);
    DivBounds(Sum(ds), |ds| as real, lo, hi);
    SortKeepsBounds(ds, lo, hi);
    var r := SortAscending(ds);
    var n := |r|;
    if n % 2 == 0 {
      assert lo <= r[n / 2 - 1] <= hi && lo <= r[n / 2] <= hi;
    } else {
      assert lo <= r[n / 2] <= hi;
    }
  }

  /** On samples in time order the delay statistics lie between 70 ms and 800 ms. */
  lemma DelayStatisticsBounds(fl: Float, data: seq<DataPoint>, changes: seq<DirectionChange>)
    requires NonDecreasing(data)
    requires |ReactionDelays(fl, data, changes)| > 0
    ensures var ds := ReactionDelays(fl, data, changes);
      70.0 <= AverageMs(ds) <= 800.0 && 70.0 <= MedianMs(ds) <= 800.0
  {
    DelaysBounded(fl, data, changes);
    StatisticsBounds(ReactionDelays(fl, data, changes), 0.07, 0.8);
  }

  // ---------------------------------------------------------------- angular error

  /**
    `calculate_angular_error`: the angle in degrees between two directions; `None` stands for
    the NaN produced when either vector has zero length.
  */
  function AngularError(fl: Float, u: Vec3, v: Vec3): (r: Option<real>)
    ensures r.Some? <==> Length3(fl, u) != 0.0 && Length3(fl, v) != 0.0
    ensures Lawful(fl) && r.Some? ==> 0.0 <= r.value <= 180.0
  {
    match (TryNormalize3(fl, u), TryNormalize3(fl, v))
    case (Some(a), Some(b)) =>
      var c := Clamp(Dot3(a, b), -1.0, 1.0);
      AcosDegrees(fl, c);
      Some(ToDegrees(fl.acos(c)))
    case _ => None
  }

  /** The angle between the direction to the target and the crosshair direction of one sample. */
  function PointError(fl: Float, p: DataPoint): Option<real> {
    AngularError(fl, Sub3(p.targetPos, p.cameraPos), p.crosshairDir)
  }

  /** The sum of the per-sample errors; `None` (NaN) as soon as one of them is NaN. */
  function ErrorSum(fl: Float, data: seq<DataPoint>): Option<real> {
    if |data| == 0 then Some(0.0)
    else
      match (ErrorSum(fl, data[..|data| - 1]), PointError(fl, data[|data| - 1]))
      case (Some(s), Some(e)) => Some(s + e)
      case _ => None
  }

  /** `calculate_average_angular_error_simple`: 0 for no samples. */
  function AverageError(fl: Float, data: seq<DataPoint>): (r: Option<real>)
    ensures |data| == 0 ==> r == Some(0.0)
  {
    if |data| == 0 then Some(0.0)
    else
      match ErrorSum(fl, data)
      case Some(s) => Some(s / |data| as real)
      case None => None
  }

  /**
    `calculate_peak_angular_error_simple`: a fold of `f32::max` from 0, which passes over a
    NaN error and keeps the running maximum.
  */
  function PeakError(fl: Float, data: seq<DataPoint>): real {
    if |data| == 0 then 0.0
    else
      var acc := PeakError(fl, data[..|data| - 1]);
      match PointError(fl, data[|data| - 1])
      case Some(e) => Max(acc, e)
      case None => acc
  }

  lemma {:induction false} ErrorSumBounds(fl: Float, data: seq<DataPoint>)
    requires Lawful(fl)
    ensures ErrorSum(fl, data).Some? ==> 0.0 <= ErrorSum(fl, data).value <= 180.0 * |data| as real
  {
    if |data| > 0 {
      ErrorSumBounds(fl, data[..|data| - 1]);
    }
  }

  /** The average error lies in `[0, 180]` degrees. */
  lemma AverageErrorBounds(fl: Float, data: seq<DataPoint>)
    requires Lawful(fl)
    ensures AverageError(fl, data).Some? ==> 0.0 <= AverageError(fl, data).value <= 180.0
  {
    if |data| > 0 && ErrorSum(fl, data).Some? {
      ErrorSumBounds(fl, data);
      DivBounds(ErrorSum(fl, data).value, |data| as real, 0.0, 180.0);
    }
  }

  /** The peak is at least 0 and at least every defined per-sample error, and at most 180 degrees. */
  lemma {:induction false} PeakErrorBounds(fl: Float, data: seq<DataPoint>)
    requires Lawful(fl)
    ensures 0.0 <= PeakError(fl, data) <= 180.0
    ensures forall k :: 0 <= k < |data| && PointError(fl, data[k]).Some? ==>
      PointError(fl, data[k]).value <= PeakError(fl, data)
  {
    if |data| > 0 {
      var p := data[..|data| - 1];
      PeakErrorBounds(fl, p);
      forall k | 0 <= k < |data| - 1 ensures data[k] == p[k] { }
    }
  }
}
