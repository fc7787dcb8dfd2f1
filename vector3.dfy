/**
 * Three-component vectors of doubles (modelled over the reals) and the
 * incremental plane rotations the sampling engine applies to them.
 */
module Vector3 {

  /** A vector in device coordinates; the engine keeps one as double[3]. */
  datatype Vec3 = Vec3(x: real, y: real, z: real)

  /**
   * The java.lang.Math functions the engine calls. Their numeric values are
   * not modelled: every lemma that needs a fact about them takes that fact
   * as a hypothesis.
   */
  datatype MathLib = MathLib(
    sqrt: real -> real,
    sin: real -> real,
    cos: real -> real,
    atan2: (real, real) -> real)

  /** Math.PI as a double. */
  const Pi: real := 3.141592653589793

  const Zero: Vec3 := Vec3(0.0, 0.0, 0.0)

  function Add(a: Vec3, b: Vec3): Vec3 {
    Vec3(a.x + b.x, a.y + b.y, a.z + b.z)
  }

  /** vecdiff: the component-wise difference, which adding b back undoes. */
  function VecDiff(a: Vec3, b: Vec3): (r: Vec3)
    ensures Add(r, b) == a
    ensures r == Zero <==> a == b
  {
    Vec3(a.x - b.x, a.y - b.y, a.z - b.z)
  }

  /** Each component divided by d, as calibration averages its sum. */
  function Divided(v: Vec3, d: real): (r: Vec3)
    requires d != 0.0
    ensures r.x * d == v.x && r.y * d == v.y && r.z * d == v.z
  {
    Vec3(v.x / d, v.y / d, v.z / d)
  }

  function NormSq(v: Vec3): real {
    v.x * v.x + v.y * v.y + v.z * v.z
  }

  /** Math.sqrt(x*x + y*y + z*z), as the engine computes a vector's length. */
  function Magnitude(m: MathLib, v: Vec3): real {
    m.sqrt(NormSq(v))
  }

  /** The first three entries of a double[] (or float[]) as a vector. */
  function VecOf(s: seq<real>): Vec3
    requires |s| >= 3
  {
    Vec3(s[0], s[1], s[2])
  }

  function ToSeq(v: Vec3): (r: seq<real>)
    ensures |r| == 3 && VecOf(r) == v
  {
    [v.x, v.y, v.z]
  }

  /** sin 0 = 0 and cos 0 = 1. */
  predicate ZeroAngle(m: MathLib) {
    m.sin(0.0) == 0.0 && m.cos(0.0) == 1.0
  }

  /** sin^2 a + cos^2 a = 1. */
  predicate Pythagorean(m: MathLib, a: real) {
    m.sin(a) * m.sin(a) + m.cos(a) * m.cos(a) == 1.0
  }

  /** sin is odd and cos is even at a. */
  predicate Symmetric(m: MathLib, a: real) {
    m.sin(-a) == -m.sin(a) && m.cos(-a) == m.cos(a)
  }

  /** The rotation of the plane point (p, q) by the angle whose sine is s and cosine is c preserves its squared length. */
  lemma PlaneRotationKeepsLength(p: real, q: real, s: real, c: real)
    ensures s * s + c * c == 1.0 ==>
      (p * c - q * s) * (p * c - q * s) + (p * s + q * c) * (p * s + q * c) == p * p + q * q
  {
    if s * s + c * c == 1.0 {
      calc {
        (p * c - q * s) * (p * c - q * s) + (p * s + q * c) * (p * s + q * c);
        p * p * (c * c) - 2.0 * (p * q * (s * c)) + q * q * (s * s)
          + (p * p * (s * s) + 2.0 * (p * q * (s * c)) + q * q * (c * c));
        p * p * (s * s + c * c) + q * q * (s * s + c * c);
      }
    }
  }

  /** Rotating by a and then by -a returns the plane point (p, q), given s = sin a and c = cos a. */
  lemma PlaneRotationUndone(p: real, q: real, s: real, c: real)
    requires s * s + c * c == 1.0
    ensures (p * c - q * s) * c - (p * s + q * c) * -s == p
    ensures (p * c - q * s) * -s + (p * s + q * c) * c == q
  {
    calc {
      (p * c - q * s) * c - (p * s + q * c) * -s;
      p * (c * c) - q * (s * c) + p * (s * s) + q * (s * c);
      p * (s * s + c * c);
    }
    calc {
      (p * c - q * s) * -s + (p * s + q * c) * c;
      -(p * (s * c)) + q * (s * s) + p * (s * c) + q * (c * c);
      q * (s * s + c * c);
    }
  }

  /** rotx: rotation by angle a in the y-z plane; x is untouched. */
  function RotX(m: MathLib, v: Vec3, a: real): (r: Vec3)
    ensures r.x == v.x
    ensures Pythagorean(m, a) ==> NormSq(r) == NormSq(v)
  {
    var c, s := m.cos(a), m.sin(a);
    PlaneRotationKeepsLength(v.y, v.z, s, c);
    Vec3(v.x, v.y * c - v.z * s, v.y * s + v.z * c)
  }

  /** roty: rotation by angle a in the z-x plane; y is untouched. */
  function RotY(m: MathLib, v: Vec3, a: real): (r: Vec3)
    ensures r.y == v.y
    ensures Pythagorean(m, a) ==> NormSq(r) == NormSq(v)
  {
    var c, s := m.cos(a), m.sin(a);
    PlaneRotationKeepsLength(v.z, v.x, s, c);
    Vec3(v.z * s + v.x * c, v.y, v.z * c - v.x * s)
  }

  /** rotz: rotation by angle a in the x-y plane; z is untouched. */
  function RotZ(m: MathLib, v: Vec3, a: real): (r: Vec3)
    ensures r.z == v.z
    ensures Pythagorean(m, a) ==> NormSq(r) == NormSq(v)
  {
    var c, s := m.cos(a), m.sin(a);
    PlaneRotationKeepsLength(v.x, v.y, s, c);
    Vec3(v.x * c - v.y * s, v.x * s + v.y * c, v.z)
  }

  /** A rotation by the angle 0 is the identity about every axis. */
  lemma RotationByZeroIsIdentity(m: MathLib, v: Vec3)
    requires ZeroAngle(m)
    ensures RotX(m, v, 0.0) == v && RotY(m, v, 0.0) == v && RotZ(m, v, 0.0) == v
  {
  }

  /**
   * In exact real arithmetic, a rotation by -a undoes one by a about the same
   * axis. (The engine computes in doubles; rounding is not modelled.)
   */
  lemma {:induction false} RotXInverse(m: MathLib, v: Vec3, a: real)
    requires Pythagorean(m, a) && Symmetric(m, a)
    ensures RotX(m, RotX(m, v, a), -a) == v
  {
    PlaneRotationUndone(v.y, v.z, m.sin(a), m.cos(a));
  }

  lemma {:induction false} RotYInverse(m: MathLib, v: Vec3, a: real)
    requires Pythagorean(m, a) && Symmetric(m, a)
    ensures RotY(m, RotY(m, v, a), -a) == v
  {
    PlaneRotationUndone(v.z, v.x, m.sin(a), m.cos(a));
  }

  lemma {:induction false} RotZInverse(m: MathLib, v: Vec3, a: real)
    requires Pythagorean(m, a) && Symmetric(m, a)
    ensures RotZ(m, RotZ(m, v, a), -a) == v
  {
    PlaneRotationUndone(v.x, v.y, m.sin(a), m.cos(a));
  }

  /** rotx on a double[3], in place. */
  method RotXInPlace(m: MathLib, vec: array<real>, a: real)
    requires vec.Length == 3
    modifies vec
    ensures vec[..] == ToSeq(RotX(m, VecOf(old(vec[..])), a))
  {
    var x, y, z := vec[0], vec[1], vec[2];
    vec[1] := y * m.cos(a) - z * m.sin(a);
    vec[2] := y * m.sin(a) + z * m.cos(a);
    assert RotX(m, Vec3(x, y, z), a) == Vec3(vec[0], vec[1], vec[2]);
    assert vec[..] == ToSeq(Vec3(vec[0], vec[1], vec[2]));
  }

  /** roty on a double[3], in place. */
  method RotYInPlace(m: MathLib, vec: array<real>, a: real)
    requires vec.Length == 3
    modifies vec
    ensures vec[..] == ToSeq(RotY(m, VecOf(old(vec[..])), a))
  {
    var x, y, z := vec[0], vec[1], vec[2];
    vec[2] := z * m.cos(a) - x * m.sin(a);
    vec[0] := z * m.sin(a) + x * m.cos(a);
    assert RotY(m, Vec3(x, y, z), a) == Vec3(vec[0], vec[1], vec[2]);
    assert vec[..] == ToSeq(Vec3(vec[0], vec[1], vec[2]));
  }

  /** rotz on a double[3], in place. */
  method RotZInPlace(m: MathLib, vec: array<real>, a: real)
    requires vec.Length == 3
    modifies vec
    ensures vec[..] == ToSeq(RotZ(m, VecOf(old(vec[..])), a))
  {
    var x, y, z := vec[0], vec[1], vec[2];
    vec[0] := x * m.cos(a) - y * m.sin(a);
    vec[1] := x * m.sin(a) + y * m.cos(a);
    assert RotZ(m, Vec3(x, y, z), a) == Vec3(vec[0], vec[1], vec[2]);
    assert vec[..] == ToSeq(Vec3(vec[0], vec[1], vec[2]));
  }
}
