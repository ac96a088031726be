/**
  Real-valued stand-ins for the f32 arithmetic of the game and for the parts of
  the math library (glam and libm) that it calls.

  Transcendental functions and float parsing are not given a definition: they are
  the fields of a `Float` value that every operation needing them receives as a
  parameter, and `Lawful` states the only facts about them that the proofs use.
*/
module Numerics {
  import opened Wrappers

  /** `std::f32::consts::PI`, as a real (f32 rounding is not modelled). */
  const Pi: real := 3.1415926535897932

  /** The floating-point library: square root, inverse and direct trigonometry, and `str::parse::<f32>`. */
  datatype Float = Float(
    sqrt: real -> real,
    acos: real -> real,
    atan: real -> real,
    atan2: (real, real) -> real,
    sin: real -> real,
    cos: real -> real,
    tan: real -> real,
    parse: string -> Option<real>)

  /** The facts about the library that the model relies on. */
  ghost predicate Lawful(fl: Float) {
    && (forall x :: 0.0 <= x ==> 0.0 <= fl.sqrt(x) && fl.sqrt(x) * fl.sqrt(x) == x)
    && (forall x :: -1.0 <= x <= 1.0 ==> 0.0 <= fl.acos(x) <= Pi)
    && (forall x :: -Pi / 2.0 < fl.atan(x) < Pi / 2.0)
  }

  /** The Pythagorean identity of the library's sine and cosine. */
  ghost predicate UnitCircle(fl: Float) {
    forall x :: fl.sin(x) * fl.sin(x) + fl.cos(x) * fl.cos(x) == 1.0
  }

  function Abs(x: real): (r: real)
    ensures r >= 0.0 && (r == x || r == -x)
  {
    if x < 0.0 then -x else x
  }

  /** `f32::max` on numbers. */
  function Max(a: real, b: real): (r: real)
    ensures r >= a && r >= b && (r == a || r == b)
  {
    if a < b then b else a
  }

  /** `f32::clamp`; the bounds are constants of the program with `lo <= hi`. */
  function Clamp(x: real, lo: real, hi: real): (r: real)
    requires lo <= hi
    ensures lo <= r <= hi
    ensures lo <= x <= hi ==> r == x
    ensures x < lo ==> r == lo
    ensures x > hi ==> r == hi
  {
    if x < lo then lo else if x > hi then hi else x
  }

  /** Rounding toward zero. */
  function Trunc(q: real): (t: int)
    ensures q >= 0.0 ==> 0.0 <= q - t as real < 1.0
    ensures q < 0.0 ==> -1.0 < q - t as real <= 0.0
  {
    if q >= 0.0 then q.Floor else -((-q).Floor)
  }

  /** Whether a real is a whole number. */
  predicate IsWhole(q: real) {
    q.Floor as real == q
  }

  /** The `%` operator of f32 with divisor 360: the remainder of a division truncated toward zero. */
  function FMod360(x: real): (r: real)
    ensures -360.0 < r < 360.0
    ensures x >= 0.0 ==> r >= 0.0
    ensures x <= 0.0 ==> r <= 0.0
    ensures IsWhole((x - r) / 360.0)
    ensures 0.0 <= x < 360.0 ==> r == x
  {
    var t := Trunc(x / 360.0);
    assert (x - (x - 360.0 * t as real)) / 360.0 == t as real;
    x - 360.0 * t as real
  }

  /** `f32::rem_euclid` with divisor 360: the remainder of `%`, moved into `[0, 360)` when negative. */
  function RemEuclid360(x: real): (r: real)
    ensures 0.0 <= r < 360.0
    ensures IsWhole((x - r) / 360.0)
    ensures 0.0 <= x < 360.0 ==> r == x
  {
    var r := FMod360(x);
    var t := ((x - r) / 360.0).Floor;
    if r < 0.0 then
      assert (x - (r + 360.0)) / 360.0 == (t - 1) as real;
      r + 360.0
    else
      r
  }

  // ---------------------------------------------------------------- vectors

  datatype Vec2 = Vec2(x: real, y: real)
  datatype Vec3 = Vec3(x: real, y: real, z: real)

  const Zero2: Vec2 := Vec2(0.0, 0.0)
  const Zero3: Vec3 := Vec3(0.0, 0.0, 0.0)
  const UnitY: Vec3 := Vec3(0.0, 1.0, 0.0)
  const UnitX: Vec3 := Vec3(1.0, 0.0, 0.0)
  const NegZ: Vec3 := Vec3(0.0, 0.0, -1.0)

  function Add2(a: Vec2, b: Vec2): Vec2 { Vec2(a.x + b.x, a.y + b.y) }
  function Sub2(a: Vec2, b: Vec2): Vec2 { Vec2(a.x - b.x, a.y - b.y) }
  function Scale2(a: Vec2, k: real): Vec2 { Vec2(a.x * k, a.y * k) }
  function Div2(a: Vec2, k: real): Vec2 requires k != 0.0 { Vec2(a.x / k, a.y / k) }
  function Dot2(a: Vec2, b: Vec2): real { a.x * b.x + a.y * b.y }

  function Add3(a: Vec3, b: Vec3): Vec3 { Vec3(a.x + b.x, a.y + b.y, a.z + b.z) }
  function Sub3(a: Vec3, b: Vec3): Vec3 { Vec3(a.x - b.x, a.y - b.y, a.z - b.z) }
  function Neg3(a: Vec3): Vec3 { Vec3(-a.x, -a.y, -a.z) }
  function Scale3(a: Vec3, k: real): Vec3 { Vec3(a.x * k, a.y * k, a.z * k) }
  function Dot3(a: Vec3, b: Vec3): real { a.x * b.x + a.y * b.y + a.z * b.z }
  function Cross(a: Vec3, b: Vec3): Vec3 {
    Vec3(a.y * b.z - a.z * b.y, a.z * b.x - a.x * b.z, a.x * b.y - a.y * b.x)
  }

  function Length2(fl: Float, v: Vec2): real { fl.sqrt(Dot2(v, v)) }
  function Length3(fl: Float, v: Vec3): real { fl.sqrt(Dot3(v, v)) }

  /** `Vec2::normalize` where the length is known not to be zero. */
  function Normalize2(fl: Float, v: Vec2): Vec2
    requires Length2(fl, v) != 0.0
  {
    Scale2(v, 1.0 / Length2(fl, v))
  }

  /** `Vec2::normalize` in general: `None` stands for the all-NaN vector of a zero input. */
  function TryNormalize2(fl: Float, v: Vec2): (r: Option<Vec2>)
    ensures r.Some? <==> Length2(fl, v) != 0.0
  {
    if Length2(fl, v) != 0.0 then Some(Normalize2(fl, v)) else None
  }

  /** `Vec3::normalize` where the length is known not to be zero. */
  function Normalize3(fl: Float, v: Vec3): Vec3
    requires Length3(fl, v) != 0.0
  {
    Scale3(v, 1.0 / Length3(fl, v))
  }

  /** `Vec3::normalize_or_zero`. */
  function NormalizeOrZero3(fl: Float, v: Vec3): Vec3 {
    if Length3(fl, v) > 0.0 then Scale3(v, 1.0 / Length3(fl, v)) else Zero3
  }

  lemma Square(a: real)
    ensures a * a >= 0.0
  {
    if a < 0.0 {
      assert a * a == (-a) * (-a);
    }
  }

  lemma DotSelfNonNegative(v: Vec3)
    ensures Dot3(v, v) >= 0.0
  {
    Square(v.x);
    Square(v.y);
    Square(v.z);
  }

  lemma DotScaleScale(v: Vec3, k: real)
    ensures Dot3(Scale3(v, k), Scale3(v, k)) == (k * k) * Dot3(v, v)
  {
  }

  lemma ReciprocalSquared(s: real, d: real)
    requires s > 0.0 && s * s == d
    ensures ((1.0 / s) * (1.0 / s)) * d == 1.0
  {
    var k := 1.0 / s;
    assert s * k == 1.0;
    assert (k * k) * (s * s) == (s * k) * (s * k);
  }

  /** A vector with a positive squared length has a positive length. */
  lemma LengthPositive(fl: Float, v: Vec3)
    requires Lawful(fl) && Dot3(v, v) > 0.0
    ensures Length3(fl, v) > 0.0
  {
    var s := Length3(fl, v);
    var p := s * s;
    assert p == Dot3(v, v);
  }

  /** `Vec3::normalize` in general: `None` stands for the all-NaN vector of a zero input. */
  function TryNormalize3(fl: Float, v: Vec3): (r: Option<Vec3>)
    ensures r.Some? <==> Length3(fl, v) != 0.0
  {
    if Length3(fl, v) != 0.0 then Some(Normalize3(fl, v)) else None
  }

  /** `normalize_or_zero` yields either the zero vector or a unit vector. */
  lemma NormalizeOrZeroUnitOrZero(fl: Float, v: Vec3)
    requires Lawful(fl)
    ensures NormalizeOrZero3(fl, v) == Zero3 || Dot3(NormalizeOrZero3(fl, v), NormalizeOrZero3(fl, v)) == 1.0
  {
    var s := Length3(fl, v);
    if s > 0.0 {
      DotSelfNonNegative(v);
      DotScaleScale(v, 1.0 / s);
      ReciprocalSquared(s, Dot3(v, v));
    }
  }

  /** `normalize` of a vector with non-zero length yields a unit vector. */
  lemma NormalizeIsUnit(fl: Float, v: Vec3)
    requires Lawful(fl) && Length3(fl, v) != 0.0
    ensures Dot3(Normalize3(fl, v), Normalize3(fl, v)) == 1.0
  {
    var s := Length3(fl, v);
    DotSelfNonNegative(v);
    DotScaleScale(v, 1.0 / s);
    ReciprocalSquared(s, Dot3(v, v));
  }

  lemma DotSelfNonNegative2(v: Vec2)
    ensures Dot2(v, v) >= 0.0
  {
    Square(v.x);
    Square(v.y);
  }

  /** `normalize` of a plane vector with non-zero length yields a unit vector. */
  lemma NormalizeIsUnit2(fl: Float, v: Vec2)
    requires Lawful(fl) && Length2(fl, v) != 0.0
    ensures Dot2(Normalize2(fl, v), Normalize2(fl, v)) == 1.0
  {
    var s := Length2(fl, v);
    DotSelfNonNegative2(v);
    var k := 1.0 / s;
    assert Dot2(Scale2(v, k), Scale2(v, k)) == (k * k) * Dot2(v, v);
    ReciprocalSquared(s, Dot2(v, v));
  }

  lemma MulMonotone(a: real, b: real, c: real)
    requires 0.0 <= c && a <= b
    ensures a * c <= b * c
  {
    assert (b - a) * c >= 0.0;
  }

  lemma MulStrict(a: real, b: real, c: real)
    requires 0.0 < c && a < b
    ensures a * c < b * c
  {
    assert (b - a) * c > 0.0;
  }

  /** A quotient by a positive divisor inherits the bounds of the dividend, scaled. */
  lemma DivBounds(x: real, n: real, lo: real, hi: real)
    requires n > 0.0 && n * lo <= x <= n * hi
    ensures lo <= x / n <= hi
  {
    var q := x / n;
    assert q * n == x;
    if q < lo {
      MulStrict(q, lo, n);
    }
    if q > hi {
      MulStrict(hi, q, n);
    }
  }

  /** The square root of 1 is 1. */
  lemma SqrtOne(fl: Float)
    requires Lawful(fl)
    ensures fl.sqrt(1.0) == 1.0
  {
    var s := fl.sqrt(1.0);
    var p := s * s;
    assert s >= 0.0 && p == 1.0;
    if s < 1.0 {
      MulMonotone(s, 1.0, s);
    } else if s > 1.0 {
      MulMonotone(1.0, s, s);
    }
  }

  /** A unit vector is left alone by `normalize`. */
  lemma NormalizeUnitVector(fl: Float, v: Vec3)
    requires Lawful(fl) && Dot3(v, v) == 1.0
    ensures Length3(fl, v) == 1.0 && Normalize3(fl, v) == v
  {
    SqrtOne(fl);
  }

  /** `Vec3::NEG_Z` has length one, so `normalize` leaves it alone. */
  lemma NegZUnit(fl: Float)
    requires Lawful(fl)
    ensures Length3(fl, NegZ) == 1.0 && Normalize3(fl, NegZ) == NegZ
  {
    assert Dot3(NegZ, NegZ) == 1.0;
    NormalizeUnitVector(fl, NegZ);
  }

  lemma NegZLength(fl: Float)
    requires Lawful(fl)
    ensures Length3(fl, NegZ) == 1.0
  {
    NegZUnit(fl);
  }

  /** A unit vector is left alone by `normalize_or_zero`. */
  lemma NormalizeOrZeroUnitVector(fl: Float, v: Vec3)
    requires Lawful(fl) && Dot3(v, v) == 1.0
    ensures NormalizeOrZero3(fl, v) == v
  {
    NormalizeUnitVector(fl, v);
  }

  // ---------------------------------------------------------------- quaternions

  /** A glam quaternion, components in glam's `(x, y, z, w)` order. */
  datatype Quat = Quat(x: real, y: real, z: real, w: real)

  const QuatIdentity: Quat := Quat(0.0, 0.0, 0.0, 1.0)

  /** `Quat::from_axis_angle`. */
  function QuatFromAxisAngle(fl: Float, axis: Vec3, angle: real): Quat {
    var s := fl.sin(angle * 0.5);
    var c := fl.cos(angle * 0.5);
    Quat(axis.x * s, axis.y * s, axis.z * s, c)
  }

  /** The Hamilton product `a * b` of glam. */
  function QuatMul(a: Quat, b: Quat): Quat {
    Quat(
      a.w * b.x + a.x * b.w + a.y * b.z - a.z * b.y,
      a.w * b.y - a.x * b.z + a.y * b.w + a.z * b.x,
      a.w * b.z + a.x * b.y - a.y * b.x + a.z * b.w,
      a.w * b.w - a.x * b.x - a.y * b.y - a.z * b.z)
  }

  /** `q * v` for a vector: glam's rotation of a vector by a quaternion. */
  function Rotate(q: Quat, v: Vec3): Vec3 {
    var b := Vec3(q.x, q.y, q.z);
    var b2 := Dot3(b, b);
    Add3(Add3(Scale3(v, q.w * q.w - b2), Scale3(b, Dot3(v, b) * 2.0)), Scale3(Cross(b, v), q.w * 2.0))
  }

  lemma RotateIdentity(v: Vec3)
    ensures Rotate(QuatIdentity, v) == v
  {
    var q := QuatIdentity;
    var b := Vec3(q.x, q.y, q.z);
    assert b == Zero3;
    assert q.w * q.w - Dot3(b, b) == 1.0;
    assert Scale3(v, 1.0) == v;
    assert Scale3(b, Dot3(v, b) * 2.0) == b;
    assert Scale3(Cross(b, v), q.w * 2.0) == b;
  }
}
