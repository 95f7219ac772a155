/**
 * The screen rotations of the camera utility library: horizontal, vertical
 * and axial turns of the camera, the nearest-face snap, and "smart" turns
 * that snap first when the host reports an arbitrary orientation.
 */
module CameraRotations {
  import opened Vectors
  import opened Quaternions
  import opened HostCamera
  import opened ViewCube
  import opened CameraUtility
  import CameraController

  /**
   * `_is_on_viewcube_face`: any orientation the host reports other than
   * arbitrary, so the isometric orientations count as well.
   */
  predicate OnViewcubeFace(c: CamState) {
    c.orientation != Arbitrary
  }

  /** An isometric orientation counts as being on a face. */
  lemma IsometricCountsAsFace(c: CamState)
    requires c.orientation in {IsoTopLeft, IsoTopRight, IsoBottomLeft, IsoBottomRight}
    ensures OnViewcubeFace(c)
  {
  }

  /** `move_to_nearest_viewcube_face`: the utility's orientation for the nearest face. */
  function NearestOriented(c: CamState, host: Host, n: Numerics): (r: CamState)
    ensures OnViewcubeFace(r) && r.smooth == c.smooth
  {
    Oriented(c, Faces[NearestIndex(ViewDirection(c.pose, n))].0, host)
  }

  /**
   * `rotate_screen_horizontal`: the eye turns about the normalised up vector
   * by minus the angle; target and up stay.
   */
  function HorizontalRotated(c: CamState, degrees: real, host: Host, n: Numerics): (r: CamState)
    ensures r.pose.target == c.pose.target && r.pose.up == c.pose.up && r.smooth
  {
    var q := FromAxisAngle(Normalize(c.pose.up, n), Radians(-degrees), n);
    Written(Pose(Orbit(q, c.pose.eye, c.pose.target), c.pose.target, c.pose.up), true, host)
  }

  /** With an up vector of nonzero length the horizontal turn keeps the eye's distance. */
  lemma HorizontalKeepsDistance(c: CamState, degrees: real, host: Host, n: Numerics)
    requires TrigSound(n) && SqrtSound(n) && Length(c.pose.up, n) != 0.0
    ensures NormSq(Sub(HorizontalRotated(c, degrees, host, n).pose.eye, c.pose.target))
         == NormSq(Sub(c.pose.eye, c.pose.target))
  {
    var axis := Normalize(c.pose.up, n);
    NormalizeIsUnit(c.pose.up, n);
    FromAxisAngleIsUnit(axis, Radians(-degrees), n);
    OrbitKeepsDistance(FromAxisAngle(axis, Radians(-degrees), n), c.pose.eye, c.pose.target);
  }

  /** Turning right and then left by the same angle restores the pose. */
  lemma HorizontalRoundTrip(c: CamState, degrees: real, host: Host, n: Numerics)
    requires TrigSound(n) && SqrtSound(n) && Length(c.pose.up, n) != 0.0
    ensures HorizontalRotated(HorizontalRotated(c, degrees, host, n), -degrees, host, n).pose == c.pose
  {
    var axis := Normalize(c.pose.up, n);
    var q := FromAxisAngle(axis, Radians(-degrees), n);
    NormalizeIsUnit(c.pose.up, n);
    FromAxisAngleIsUnit(axis, Radians(-degrees), n);
    assert Radians(-(-degrees)) == -Radians(-degrees);
    FromAxisAngleNegated(axis, Radians(-degrees), n);
    OrbitRoundTrip(q, c.pose.eye, c.pose.target);
  }

  /**
   * For a unit up vector the library's horizontal turn is the controller's
   * screen rotation by the opposite angle: "right" turns opposite ways in
   * the two.
   */
  lemma HorizontalIsOppositeScreenRotation(c: CamState, degrees: real, host: Host, n: Numerics)
    requires SqrtSound(n) && NormSq(c.pose.up) == 1.0
    ensures HorizontalRotated(c, degrees, host, n) == CameraController.ScreenRotated(c, -degrees, host, n)
  {
    NormalizeUnit(c.pose.up, n);
  }

  /**
   * `rotate_screen_vertical`: eye and normalised up turn about
   * normalize(view x up) by the angle.
   */
  function VerticalAxisOf(p: Pose, n: Numerics): Vec3 {
    Normalize(Cross(Normalize(Sub(p.target, p.eye), n), Normalize(p.up, n)), n)
  }

  function VerticalRotated(c: CamState, degrees: real, host: Host, n: Numerics): (r: CamState)
    ensures r.pose.target == c.pose.target && r.smooth
  {
    var q := FromAxisAngle(VerticalAxisOf(c.pose, n), Radians(degrees), n);
    var p := c.pose;
    Written(Pose(Orbit(q, p.eye, p.target), p.target, TransformVector(q, Normalize(p.up, n))), true, host)
  }

  /**
   * Unless view and up are parallel, the vertical turn keeps the eye's
   * distance and leaves a unit up vector.
   */
  lemma VerticalIsRigid(c: CamState, degrees: real, host: Host, n: Numerics)
    requires TrigSound(n) && SqrtSound(n)
    requires Length(c.pose.up, n) != 0.0
    requires Length(Cross(Normalize(Sub(c.pose.target, c.pose.eye), n), Normalize(c.pose.up, n)), n) != 0.0
    ensures var r := VerticalRotated(c, degrees, host, n);
      && NormSq(Sub(r.pose.eye, c.pose.target)) == NormSq(Sub(c.pose.eye, c.pose.target))
      && NormSq(r.pose.up) == 1.0
  {
    var axis := VerticalAxisOf(c.pose, n);
    NormalizeIsUnit(Cross(Normalize(Sub(c.pose.target, c.pose.eye), n), Normalize(c.pose.up, n)), n);
    FromAxisAngleIsUnit(axis, Radians(degrees), n);
    var q := FromAxisAngle(axis, Radians(degrees), n);
    OrbitKeepsDistance(q, c.pose.eye, c.pose.target);
    NormalizeIsUnit(c.pose.up, n);
    TransformPreservesNorm(q, Normalize(c.pose.up, n));
  }

  /** `rotate_screen_axial`: up turns about the view direction; the eye stays. */
  function AxialRotated(c: CamState, degrees: real, host: Host, n: Numerics): (r: CamState)
    ensures r.pose.eye == c.pose.eye && r.pose.target == c.pose.target && r.smooth
  {
    var q := FromAxisAngle(ViewDirection(c.pose, n), Radians(degrees), n);
    Written(Pose(c.pose.eye, c.pose.target, TransformVector(q, c.pose.up)), true, host)
  }

  /** Turning clockwise and back by the same angle restores the pose. */
  lemma AxialRoundTrip(c: CamState, degrees: real, host: Host, n: Numerics)
    requires TrigSound(n) && SqrtSound(n) && Length(Sub(c.pose.eye, c.pose.target), n) != 0.0
    ensures AxialRotated(AxialRotated(c, degrees, host, n), -degrees, host, n).pose == c.pose
  {
    var axis := ViewDirection(c.pose, n);
    var q := FromAxisAngle(axis, Radians(degrees), n);
    NormalizeIsUnit(Sub(c.pose.eye, c.pose.target), n);
    FromAxisAngleIsUnit(axis, Radians(degrees), n);
    assert Radians(-degrees) == -Radians(degrees);
    FromAxisAngleNegated(axis, Radians(degrees), n);
    TransformRoundTrip(q, c.pose.up);
  }

  /** The camera a smart turn starts from: as it is on a face, snapped otherwise. */
  function SmartStart(c: CamState, host: Host, n: Numerics): (r: CamState)
    ensures OnViewcubeFace(r)
    ensures OnViewcubeFace(c) ==> r == c
  {
    if OnViewcubeFace(c) then c else NearestOriented(c, host, n)
  }

  datatype Turn = Horizontal | Vertical | Axial

  function Turned(t: Turn, c: CamState, degrees: real, host: Host, n: Numerics): CamState {
    match t
    case Horizontal => HorizontalRotated(c, degrees, host, n)
    case Vertical => VerticalRotated(c, degrees, host, n)
    case Axial => AxialRotated(c, degrees, host, n)
  }

  /** `smart_rotate_horizontal`/`vertical`/`axial`. */
  function SmartTurned(t: Turn, c: CamState, degrees: real, host: Host, n: Numerics): CamState {
    Turned(t, SmartStart(c, host, n), degrees, host, n)
  }

  /**
   * From any orientation other than arbitrary a smart turn is the plain
   * turn; from an arbitrary one it is the plain turn from the nearest face.
   */
  lemma SmartTurnCases(t: Turn, c: CamState, degrees: real, host: Host, n: Numerics)
    ensures c.orientation != Arbitrary ==> SmartTurned(t, c, degrees, host, n) == Turned(t, c, degrees, host, n)
    ensures c.orientation == Arbitrary ==>
      SmartTurned(t, c, degrees, host, n) == Turned(t, NearestOriented(c, host, n), degrees, host, n)
  {
  }

  class CameraRotations {
    const cameraUtil: CameraUtility

    constructor (cameraUtil: CameraUtility)
      ensures this.cameraUtil == cameraUtil
    {
      this.cameraUtil := cameraUtil;
    }

    /** `_is_on_viewcube_face`. */
    method IsOnViewcubeFace(cam: Camera) returns (on: bool)
      ensures on == OnViewcubeFace(cam.State())
    {
      on := cam.orientation != Arbitrary;
    }

    /** `move_to_nearest_viewcube_face`. */
    method MoveToNearestViewcubeFace(cam: Camera, host: Host, n: Numerics)
      modifies cam
      ensures cam.State() == NearestOriented(old(cam.State()), host, n)
    {
      var viewDirection := Normalize(Sub(cam.eye, cam.target), n);
      var nearest, best := NearestFace(viewDirection);
      cameraUtil.SetViewcubeOrientation(cam, nearest, host);
    }

    /** `rotate_screen_horizontal`. */
    method RotateScreenHorizontal(cam: Camera, degrees: real, host: Host, n: Numerics)
      modifies cam
      ensures cam.State() == HorizontalRotated(old(cam.State()), degrees, host, n)
    {
      var upVector := Normalize(cam.up, n);
      var q := FromAxisAngle(upVector, Radians(-degrees), n);
      var newEye := Orbit(q, cam.eye, cam.target);
      cam.Assign(Written(Pose(newEye, cam.target, cam.up), true, host));
    }

    /** `rotate_screen_vertical`. */
    method RotateScreenVertical(cam: Camera, degrees: real, host: Host, n: Numerics)
      modifies cam
      ensures cam.State() == VerticalRotated(old(cam.State()), degrees, host, n)
    {
      var eyeToTarget := Normalize(Sub(cam.target, cam.eye), n);
      var upVector := Normalize(cam.up, n);
      var rightVector := Normalize(Cross(eyeToTarget, upVector), n);
      var q := FromAxisAngle(rightVector, Radians(degrees), n);
      var newEye := Orbit(q, cam.eye, cam.target);
      var rotatedUp := TransformVector(q, upVector);
      cam.Assign(Written(Pose(newEye, cam.target, rotatedUp), true, host));
    }

    /** `rotate_screen_axial`. */
    method RotateScreenAxial(cam: Camera, degrees: real, host: Host, n: Numerics)
      modifies cam
      ensures cam.State() == AxialRotated(old(cam.State()), degrees, host, n)
    {
      var viewDirection := Normalize(Sub(cam.eye, cam.target), n);
      var q := FromAxisAngle(viewDirection, Radians(degrees), n);
      var rotatedUp := TransformVector(q, cam.up);
      cam.Assign(Written(Pose(cam.eye, cam.target, rotatedUp), true, host));
    }

    /** The three smart turns. */
    method SmartRotate(cam: Camera, t: Turn, degrees: real, host: Host, n: Numerics)
      modifies cam
      ensures cam.State() == SmartTurned(t, old(cam.State()), degrees, host, n)
    {
      var onFace := IsOnViewcubeFace(cam);
      if !onFace {
        MoveToNearestViewcubeFace(cam, host, n);
      }
      match t
      case Horizontal => RotateScreenHorizontal(cam, degrees, host, n);
      case Vertical => RotateScreenVertical(cam, degrees, host, n);
      case Axial => RotateScreenAxial(cam, degrees, host, n);
    }
  }
}
