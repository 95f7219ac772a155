/**
 * The reusable camera utility library: a small object holding the rotation
 * scale and the debug and Z-axis flags, and the camera operations built on
 * it (rotating by a quaternion or by an axis and angle, the camera frame,
 * the named view orientations and the isometric view).
 */
module CameraUtility {
  import opened Vectors
  import opened Quaternions
  import opened HostCamera

  const DefaultRotationScale: real := 0.01
  const DefaultDebug: bool := false
  const DefaultUseZAxisRotation: bool := false

  /** `rotate_camera_with_quaternion`: eye and up turned by q, no animation. */
  function QuaternionRotated(c: CamState, q: Quat, host: Host): (r: CamState)
    ensures r.pose.target == c.pose.target && !r.smooth
  {
    var p := c.pose;
    Written(Pose(Orbit(q, p.eye, p.target), p.target, TransformVector(q, p.up)), false, host)
  }

  /** A unit quaternion moves the camera rigidly: same distance, same up length. */
  lemma QuaternionRotationIsRigid(c: CamState, q: Quat, host: Host)
    requires IsUnit(q)
    ensures var r := QuaternionRotated(c, q, host);
      && NormSq(Sub(r.pose.eye, r.pose.target)) == NormSq(Sub(c.pose.eye, c.pose.target))
      && NormSq(r.pose.up) == NormSq(c.pose.up)
  {
    OrbitKeepsDistance(q, c.pose.eye, c.pose.target);
    TransformPreservesNorm(q, c.pose.up);
  }

  /** Rotating by a unit q and then by its conjugate restores the pose. */
  lemma QuaternionRotationRoundTrip(c: CamState, q: Quat, host: Host)
    requires IsUnit(q)
    ensures QuaternionRotated(QuaternionRotated(c, q, host), Conjugate(q), host).pose == c.pose
  {
    OrbitRoundTrip(q, c.pose.eye, c.pose.target);
    TransformRoundTrip(q, c.pose.up);
  }

  /** The identity quaternion leaves the pose alone. */
  lemma QuaternionRotationIdentity(c: CamState, host: Host)
    ensures QuaternionRotated(c, Identity, host).pose == c.pose
  {
    OrbitIdentity(c.pose.eye, c.pose.target);
    TransformIdentity(c.pose.up);
  }

  /** What `get_camera_vectors` returns. */
  datatype CameraVectors = CameraVectors(forward: Vec3, right: Vec3, up: Vec3)

  /**
   * Forward is the normalised target-to-eye direction; right is forward x up,
   * normalised, or world X when that cross product is shorter than 0.001.
   */
  function CameraVectorsOf(p: Pose, n: Numerics): (r: CameraVectors)
    ensures r.up == p.up
    ensures r.forward == ViewDirection(p, n)
  {
    var forward := Normalize(Sub(p.eye, p.target), n);
    var right := Cross(forward, p.up);
    if Length(right, n) < 0.001 then CameraVectors(forward, XAxis, p.up)
    else CameraVectors(forward, Normalize(right, n), p.up)
  }

  /**
   * The right vector is always a unit vector, and unless it is the world-X
   * fallback it is perpendicular to both forward and up.
   */
  lemma CameraVectorsFrame(p: Pose, n: Numerics)
    requires SqrtSound(n)
    ensures var r := CameraVectorsOf(p, n);
      && NormSq(r.right) == 1.0
      && (r.right == XAxis || (Dot(r.right, r.forward) == 0.0 && Dot(r.right, r.up) == 0.0))
  {
    var forward := Normalize(Sub(p.eye, p.target), n);
    var cross := Cross(forward, p.up);
    if !(Length(cross, n) < 0.001) {
      NormalizeIsUnit(cross, n);
      CrossPerpendicular(forward, p.up);
      ScaledPerpendicular(1.0 / Length(cross, n), cross, forward);
      ScaledPerpendicular(1.0 / Length(cross, n), cross, p.up);
    }
  }

  lemma ScaledPerpendicular(k: real, a: Vec3, b: Vec3)
    requires Dot(a, b) == 0.0
    ensures Dot(Scale(k, a), b) == 0.0
  {
    assert Dot(Scale(k, a), b) == k * Dot(a, b);
  }

  /**
   * `set_viewcube_orientation`: the host moves to the named orientation. The
   * smooth flag is set on a camera copy that is never assigned back, so it
   * stays as it was.
   */
  function Oriented(c: CamState, o: Orientation, host: Host): (r: CamState)
    ensures r.orientation == o && r.smooth == c.smooth
  {
    CamState(host.oriented(o, c.pose), o, c.smooth)
  }

  /** `rotate_camera`: eye and up turned about an axis, with the given smooth flag. */
  function AxisRotated(c: CamState, axis: Vec3, degrees: real, smooth: bool, host: Host, n: Numerics): (r: CamState)
    ensures r.smooth == smooth
  {
    Written(QuaternionRotated(c, FromAxisAngle(axis, Radians(degrees), n), host).pose, smooth, host)
  }

  /** A zero angle leaves the pose unchanged. */
  lemma AxisRotationZero(c: CamState, axis: Vec3, smooth: bool, host: Host, n: Numerics)
    requires TrigSound(n)
    ensures AxisRotated(c, axis, 0.0, smooth, host, n).pose == c.pose
  {
    assert Radians(0.0) == 0.0;
    FromAxisAngleZero(axis, n);
    QuaternionRotationIdentity(c, host);
  }

  /** Turning by an angle and back about the same unit axis restores the pose. */
  lemma AxisRotationRoundTrip(c: CamState, axis: Vec3, degrees: real, smooth: bool, host: Host, n: Numerics)
    requires TrigSound(n) && NormSq(axis) == 1.0
    ensures AxisRotated(AxisRotated(c, axis, degrees, smooth, host, n), axis, -degrees, smooth, host, n).pose == c.pose
  {
    var q := FromAxisAngle(axis, Radians(degrees), n);
    FromAxisAngleIsUnit(axis, Radians(degrees), n);
    assert Radians(-degrees) == -Radians(degrees);
    FromAxisAngleNegated(axis, Radians(degrees), n);
    QuaternionRotationRoundTrip(c, q, host);
  }

  class CameraUtility {
    var rotationScale: real
    var debug: bool
    var useZAxisRotation: bool

    constructor (rotationScale: real, debug: bool, useZAxisRotation: bool)
      ensures this.rotationScale == rotationScale && this.debug == debug
      ensures this.useZAxisRotation == useZAxisRotation
    {
      this.rotationScale := rotationScale;
      this.debug := debug;
      this.useZAxisRotation := useZAxisRotation;
    }

    /** `set_rotation_scale`: stores the value as given; nothing else changes. */
    method SetRotationScale(value: real)
      modifies this
      ensures rotationScale == value
      ensures debug == old(debug) && useZAxisRotation == old(useZAxisRotation)
    {
      rotationScale := value;
    }

    /** `rotate_camera_with_quaternion`. */
    method RotateCameraWithQuaternion(cam: Camera, q: Quat, host: Host)
      modifies cam
      ensures cam.State() == QuaternionRotated(old(cam.State()), q, host)
    {
      var newEye := Orbit(q, cam.eye, cam.target);
      var rotatedUp := TransformVector(q, cam.up);
      cam.Assign(Written(Pose(newEye, cam.target, rotatedUp), false, host));
    }

    /** `get_camera_vectors`. */
    method GetCameraVectors(cam: Camera, n: Numerics) returns (v: CameraVectors)
      ensures v == CameraVectorsOf(cam.State().pose, n)
    {
      var forward := Normalize(Sub(cam.eye, cam.target), n);
      var right := Cross(forward, cam.up);
      if Length(right, n) < 0.001 {
        right := XAxis;
      } else {
        right := Normalize(right, n);
      }
      v := CameraVectors(forward, right, cam.up);
    }

    /** `set_viewcube_orientation`. */
    method SetViewcubeOrientation(cam: Camera, o: Orientation, host: Host)
      modifies cam
      ensures cam.State() == Oriented(old(cam.State()), o, host)
    {
      cam.Assign(CamState(host.oriented(o, cam.State().pose), o, cam.smooth));
    }

    /** `set_isometric_view`: eye (10, -10, 10) looking at the origin, Z up, animated. */
    method SetIsometricView(cam: Camera, host: Host)
      modifies cam
      ensures cam.State() == Written(IsoPose, true, host)
    {
      cam.Assign(Written(IsoPose, true, host));
    }

    /** `rotate_camera`. */
    method RotateCamera(cam: Camera, axis: Vec3, degrees: real, smooth: bool, host: Host, n: Numerics)
      modifies cam
      ensures cam.State() == AxisRotated(old(cam.State()), axis, degrees, smooth, host, n)
    {
      var q := FromAxisAngle(axis, Radians(degrees), n);
      var newEye := Orbit(q, cam.eye, cam.target);
      var rotatedUp := TransformVector(q, cam.up);
      cam.Assign(Written(Pose(newEye, cam.target, rotatedUp), smooth, host));
    }
  }
}
