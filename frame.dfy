/**
 * Expressing a linear-acceleration vector in the gravity-aligned ("earth")
 * frame: a yaw rotation about z, then a pitch rotation about y, both derived
 * from the current gravity estimate.
 */
module Frame {
  import opened Vector3

  /**
   * The range Math.atan2(y, x) returns for a point off the axes: the right
   * half-plane maps into (-pi/2, pi/2), the upper-left quadrant into
   * (pi/2, pi) and the lower-left quadrant into (-pi, -pi/2).
   */
  predicate PrincipalAtan2(deg: real, y: real, x: real) {
    && (x > 0.0 ==> -Pi / 2.0 < deg < Pi / 2.0)
    && (x < 0.0 && y > 0.0 ==> Pi / 2.0 < deg < Pi)
    && (x < 0.0 && y < 0.0 ==> -Pi < deg < -Pi / 2.0)
  }

  /**
   * fixAtanDegree: the quadrant correction applied to an atan2 result. It only
   * touches angles of the two left quadrants, and it folds every angle that
   * atan2 can return for a point off the axes into the open right half
   * (-pi/2, pi/2); points of the left quadrants land in (0, pi/2).
   */
  function FixAtanDegree(deg: real, y: real, x: real): (r: real)
    ensures !(x < 0.0 && y != 0.0) ==> r == deg
    ensures x < 0.0 && y > 0.0 ==> r == Pi - deg
    ensures x < 0.0 && y < 0.0 ==> r == Pi + deg
    ensures PrincipalAtan2(deg, y, x) && (x > 0.0 || (x < 0.0 && y != 0.0)) ==> -Pi / 2.0 < r < Pi / 2.0
    ensures PrincipalAtan2(deg, y, x) && x < 0.0 && y != 0.0 ==> 0.0 < r < Pi / 2.0
  {
    var rdeg := if x < 0.0 && y > 0.0 then Pi - deg else deg;
    if x < 0.0 && y < 0.0 then Pi + deg else rdeg
  }

  /** The corrected yaw angle of a gravity vector: atan2(y, x), fixed up. */
  function YawAngle(m: MathLib, gravity: Vec3): real {
    FixAtanDegree(m.atan2(gravity.y, gravity.x), gravity.y, gravity.x)
  }

  /**
   * The corrected pitch angle: atan2(x, z) of the gravity vector after it has
   * been rotated by minus its yaw angle about z, fixed up.
   */
  function PitchAngle(m: MathLib, gravity: Vec3): real {
    var g := RotZ(m, gravity, -YawAngle(m, gravity));
    FixAtanDegree(m.atan2(g.x, g.z), g.x, g.z)
  }

  /**
   * rotateToEarth: rotate diff by minus the yaw angle about z, then by minus
   * the pitch angle about y. Neither rotation changes the vector's length when
   * sine and cosine satisfy sin^2 + cos^2 = 1 at those angles.
   */
  function RotateToEarth(m: MathLib, diff: Vec3, gravity: Vec3): (r: Vec3)
    ensures Pythagorean(m, -YawAngle(m, gravity)) && Pythagorean(m, -PitchAngle(m, gravity)) ==>
              NormSq(r) == NormSq(diff)
  {
    var dz := YawAngle(m, gravity);
    var dy := PitchAngle(m, gravity);
    RotY(m, RotZ(m, diff, -dz), -dy)
  }

  /**
   * A device lying flat (gravity along +z) needs no re-alignment: given
   * atan2(0, 0) = atan2(0, z) = 0 for z > 0, and sin 0 = 0, cos 0 = 1, the
   * earth-frame vector is diff itself.
   */
  lemma FlatDeviceKeepsDiff(m: MathLib, diff: Vec3, z: real)
    requires z > 0.0 && ZeroAngle(m)
    requires m.atan2(0.0, 0.0) == 0.0 && m.atan2(0.0, z) == 0.0
    ensures RotateToEarth(m, diff, Vec3(0.0, 0.0, z)) == diff
  {
    var g := Vec3(0.0, 0.0, z);
    assert YawAngle(m, g) == 0.0;
    RotationByZeroIsIdentity(m, g);
    assert PitchAngle(m, g) == 0.0;
    RotationByZeroIsIdentity(m, diff);
  }

  /**
   * The quadrant correction does not bring every gravity vector onto the z
   * axis. For gravity (-1, 1, 0), atan2 gives 3pi/4, the correction folds it
   * to pi/4, and the yaw rotation by -pi/4 lands gravity on +y instead of in
   * the x-z plane; the pitch rotation (atan2(0, 0) = 0) then leaves it there.
   * Here c stands for cos(pi/4) = sin(pi/4).
   */
  lemma UpperLeftGravityStaysOffAxis(m: MathLib, c: real)
    requires ZeroAngle(m) && m.atan2(1.0, -1.0) == 3.0 * Pi / 4.0 && m.atan2(0.0, 0.0) == 0.0
    requires c > 0.0 && m.cos(-(Pi / 4.0)) == c && m.sin(-(Pi / 4.0)) == -c
    ensures var g := Vec3(-1.0, 1.0, 0.0);
            YawAngle(m, g) == Pi / 4.0 && RotateToEarth(m, g, g) == Vec3(0.0, 2.0 * c, 0.0)
  {
    var g := Vec3(-1.0, 1.0, 0.0);
    assert YawAngle(m, g) == Pi / 4.0;
    assert RotZ(m, g, -YawAngle(m, g)) == Vec3(0.0, 2.0 * c, 0.0);
    assert PitchAngle(m, g) == 0.0;
    RotationByZeroIsIdentity(m, Vec3(0.0, 2.0 * c, 0.0));
  }
}
