/**
 * Frame alignment of follow.cpp: the arena ("gym") frame is rotated by a fixed
 * offset, in degrees, against the vehicle's world frame. `setDestination`
 * maps an arena position into the world frame and `setHeading` maps a compass
 * heading in the arena to a world-frame orientation quaternion.
 *
 * The source's `cos` and `sin` are kept uninterpreted: a `Trig` value carries
 * them as two arbitrary functions over the reals. The core facts need only
 * `FixesZero` (cos 0 = 1, sin 0 = 0); the norm and round-trip lemmas take the
 * unit-circle and parity identities at the one angle they use as hypotheses.
 */
module FrameAlign {

  /** The cosine and sine used by the node, as arbitrary functions. */
  datatype Trig = Trig(cos: real -> real, sin: real -> real)

  predicate FixesZero(t: Trig) {
    t.cos(0.0) == 1.0 && t.sin(0.0) == 0.0
  }

  predicate OnUnitCircle(t: Trig, a: real) {
    t.cos(a) * t.cos(a) + t.sin(a) * t.sin(a) == 1.0
  }

  /** cos is even and sin is odd at angle `a`. */
  predicate Parity(t: Trig, a: real) {
    t.cos(-a) == t.cos(a) && t.sin(-a) == -t.sin(a)
  }

  /** M_PI, as the C library defines it. */
  const PI: real := 3.14159265358979323846

  function DegToRad(deg: real): real {
    deg * (PI / 180.0)
  }

  datatype Point = Point(x: real, y: real, z: real)

  datatype Quaternion = Quaternion(w: real, x: real, y: real, z: real)

  /** The pose part of the `waypoint` setpoint. */
  datatype Pose = Pose(position: Point, orientation: Quaternion)

  /** The trigonometry in use and GYM_OFFSET, the arena's rotation in degrees. */
  datatype Frame = Frame(trig: Trig, offset: real)

  /** Rotation of the (x, y) part of `p` by `angle` radians about the vertical axis. */
  function Rotate(t: Trig, angle: real, p: Point): Point {
    Point(p.x * t.cos(angle) - p.y * t.sin(angle),
          p.x * t.sin(angle) + p.y * t.cos(angle),
          p.z)
  }

  /** The angle, in radians, by which arena positions are rotated into the world frame. */
  function PositionAngle(f: Frame): real {
    DegToRad(-f.offset)
  }

  /** `setDestination`'s conversion of an arena position into the world frame. */
  function ToWorldPosition(f: Frame, p: Point): (r: Point)
    ensures r.z == p.z
    ensures f.offset == 0.0 && FixesZero(f.trig) ==> r == p
  {
    Rotate(f.trig, PositionAngle(f), p)
  }

  /** The inverse conversion: rotate back by the offset. */
  function FromWorldPosition(f: Frame, p: Point): Point {
    Rotate(f.trig, -PositionAngle(f), p)
  }

  /** Rotating by `a` and then by `-a` gives back the original point. */
  lemma RotateRoundTrip(t: Trig, a: real, p: Point)
    requires OnUnitCircle(t, a) && Parity(t, a)
    ensures Rotate(t, -a, Rotate(t, a, p)) == p
  {
    var c, s := t.cos(a), t.sin(a);
    var q := Rotate(t, a, p);
    var r := Rotate(t, -a, q);
    assert r.x == q.x * c + q.y * s;
    assert r.y == q.y * c - q.x * s;
    calc {
      q.x * c + q.y * s;
      (p.x * c - p.y * s) * c + (p.x * s + p.y * c) * s;
      p.x * (c * c + s * s);
      p.x;
    }
    calc {
      q.y * c - q.x * s;
      (p.x * s + p.y * c) * c - (p.x * c - p.y * s) * s;
      p.y * (c * c + s * s);
      p.y;
    }
  }

  /** A rotation keeps the horizontal distance from the origin. */
  lemma RotatePreservesNorm(t: Trig, a: real, p: Point)
    requires OnUnitCircle(t, a)
    ensures var q := Rotate(t, a, p);
      q.x * q.x + q.y * q.y == p.x * p.x + p.y * p.y
  {
    var c, s := t.cos(a), t.sin(a);
    var q := Rotate(t, a, p);
    calc {
      q.x * q.x + q.y * q.y;
      (p.x * c - p.y * s) * (p.x * c - p.y * s) + (p.x * s + p.y * c) * (p.x * s + p.y * c);
      p.x * p.x * (c * c + s * s) + p.y * p.y * (c * c + s * s);
      p.x * p.x + p.y * p.y;
    }
  }

  /** Converting an arena position to the world frame and back is the identity. */
  lemma ToWorldPositionRoundTrip(f: Frame, p: Point)
    requires OnUnitCircle(f.trig, PositionAngle(f)) && Parity(f.trig, PositionAngle(f))
    ensures FromWorldPosition(f, ToWorldPosition(f, p)) == p
  {
    RotateRoundTrip(f.trig, PositionAngle(f), p);
  }

  /**
   * The general roll-pitch-yaw to quaternion formula of `setHeading`, with the
   * half angles taken as `angle * 0.5` as the source does.
   */
  function EulerToQuaternion(t: Trig, roll: real, pitch: real, yaw: real): Quaternion {
    var cy, sy := t.cos(yaw * 0.5), t.sin(yaw * 0.5);
    var cr, sr := t.cos(roll * 0.5), t.sin(roll * 0.5);
    var cp, sp := t.cos(pitch * 0.5), t.sin(pitch * 0.5);
    Quaternion(cy * cr * cp + sy * sr * sp,
               cy * sr * cp - sy * cr * sp,
               cy * cr * sp + sy * sr * cp,
               sy * cr * cp - cy * sr * sp)
  }

  /** Compass heading (clockwise from north) to mathematical yaw, folded with the offset, in degrees. */
  function YawDegrees(offset: real, heading: real): real {
    -heading + 90.0 - offset
  }

  function HeadingYaw(f: Frame, heading: real): real {
    DegToRad(YawDegrees(f.offset, heading))
  }

  /**
   * `setHeading`'s orientation for a compass heading: roll and pitch are zero,
   * so the quaternion is a pure rotation about the vertical axis.
   */
  function ToWorldOrientation(f: Frame, heading: real): (q: Quaternion)
    ensures FixesZero(f.trig) ==> q.x == 0.0 && q.y == 0.0
    ensures FixesZero(f.trig) ==>
      q.w == f.trig.cos(HeadingYaw(f, heading) * 0.5) && q.z == f.trig.sin(HeadingYaw(f, heading) * 0.5)
  {
    EulerToQuaternion(f.trig, 0.0, 0.0, HeadingYaw(f, heading))
  }

  /** The level orientation is a unit quaternion whenever its half yaw lies on the unit circle. */
  lemma ToWorldOrientationIsUnit(f: Frame, heading: real)
    requires FixesZero(f.trig) && OnUnitCircle(f.trig, HeadingYaw(f, heading) * 0.5)
    ensures var q := ToWorldOrientation(f, heading);
      q.w * q.w + q.x * q.x + q.y * q.y + q.z * q.z == 1.0
  {
    var q := ToWorldOrientation(f, heading);
    assert q.x == 0.0 && q.y == 0.0;
  }

  /** Heading 0 (north) with no offset is a yaw of 90 degrees: half angle PI / 4. */
  lemma NorthWithoutOffset(t: Trig)
    requires FixesZero(t)
    ensures ToWorldOrientation(Frame(t, 0.0), 0.0) == Quaternion(t.cos(PI / 4.0), 0.0, 0.0, t.sin(PI / 4.0))
  {
    assert HeadingYaw(Frame(t, 0.0), 0.0) * 0.5 == PI / 4.0;
  }
}
