/**
 * The joystick camera controller: the per-frame orbit driven by the stick
 * (branch selection between the singular, Z-axis and standard modes, input
 * scaling, the up-vector updates and the safety clamps), the ViewCube snaps,
 * the quarter-turn screen rotations and their "smart" variants, and the
 * dispatch from a function id to one of these.
 *
 * Each operation is a method on the camera, proved against a function on
 * `CamState` values; the properties are lemmas about those functions.
 */
module CameraController {
  import opened Vectors
  import opened Quaternions
  import opened HostCamera
  import opened ViewCube
  import opened Optional

  datatype Branch = Singular | ZAxisMode | Standard

  /** What `update_camera_position` reads from the configuration. */
  datatype ControllerSettings = ControllerSettings(useZAxisRotation: bool, deadZone: real)

  /** Below this on both axes the stick counts as centred. */
  const IdleThreshold: real := 0.001
  const SingularityThreshold: real := 0.8
  /** Largest absolute eye coordinate the controller will write. */
  const CoordinateLimit: real := 1000.0

  // ---------------------------------------------------------------------
  // Per-frame orbit
  // ---------------------------------------------------------------------

  /** `v * abs(v) * rotation_scale`, with the halved rotation scale. */
  function ScaleInput(v: real, rotationScale: real): real {
    v * Abs(v) * (rotationScale * 0.5)
  }

  /** With a positive scale, input scaling keeps the sign and maps 0 to 0. */
  lemma ScaleInputSign(v: real, rotationScale: real)
    requires 0.0 < rotationScale
    ensures v == 0.0 ==> ScaleInput(v, rotationScale) == 0.0
    ensures v > 0.0 ==> ScaleInput(v, rotationScale) > 0.0
    ensures v < 0.0 ==> ScaleInput(v, rotationScale) < 0.0
  {
    var k := rotationScale * 0.5;
    assert 0.0 < k;
    if v > 0.0 {
      assert v * Abs(v) > 0.0;
    } else if v < 0.0 {
      assert v * Abs(v) < 0.0;
    }
  }

  /** Input scaling is odd: opposite stick positions turn by opposite angles. */
  lemma ScaleInputOdd(v: real, rotationScale: real)
    ensures ScaleInput(-v, rotationScale) == -ScaleInput(v, rotationScale)
  {
  }

  /**
   * The right vector tried when forward x up is almost zero: forward crossed
   * with the world axis least aligned with it, and, if that is almost zero
   * too, world X (or world Y when up is close to X).
   */
  function AlternateRight(forward: Vec3, up: Vec3, n: Numerics): Vec3 {
    var xd, yd, zd := Abs(Dot(forward, XAxis)), Abs(Dot(forward, YAxis)), Abs(Dot(forward, ZAxis));
    var r :=
      if xd < yd && xd < zd then Cross(forward, XAxis)
      else if yd < zd then Cross(forward, YAxis)
      else Cross(forward, ZAxis);
    if Length(r, n) < 0.01 then (if Abs(up.x) < 0.9 then XAxis else YAxis) else r
  }

  /** The viewing frame of a pose: forward, right, and |forward x up| before any fallback. */
  datatype Frame = Frame(forward: Vec3, right: Vec3, rightLength: real)

  function ViewFrame(p: Pose, n: Numerics): Frame {
    var forward := Normalize(Sub(p.eye, p.target), n);
    var cross := Cross(forward, p.up);
    var rightLength := Length(cross, n);
    var right := if rightLength < 0.01 then AlternateRight(forward, p.up, n) else cross;
    Frame(forward, Normalize(right, n), rightLength)
  }

  /**
   * Near a ViewCube corner or edge: forward or up more than 80% parallel to
   * a world axis, or forward x up shorter than 0.05.
   */
  predicate IsSingular(f: Frame, up: Vec3) {
    || Abs(Dot(f.forward, XAxis)) > SingularityThreshold
    || Abs(Dot(f.forward, YAxis)) > SingularityThreshold
    || Abs(Dot(f.forward, ZAxis)) > SingularityThreshold
    || Abs(Dot(up, XAxis)) > SingularityThreshold
    || Abs(Dot(up, YAxis)) > SingularityThreshold
    || Abs(Dot(up, ZAxis)) > SingularityThreshold
    || f.rightLength < 0.05
  }

  function Classify(f: Frame, up: Vec3, useZAxisRotation: bool): Branch {
    if IsSingular(f, up) then Singular
    else if useZAxisRotation then ZAxisMode
    else Standard
  }

  /** Whenever the alternate right vector is computed, the frame is singular. */
  lemma FallbackIsSingular(p: Pose, useZAxisRotation: bool, n: Numerics)
    ensures ViewFrame(p, n).rightLength < 0.01 ==>
      Classify(ViewFrame(p, n), p.up, useZAxisRotation) == Singular
  {
  }

  /**
   * In Z-axis mode forward is never within 0.95 of world Z: such a pose is
   * already singular, so the mode's pole sub-branch never runs.
   */
  lemma ZModePoleBranchUnreachable(f: Frame, up: Vec3)
    requires Classify(f, up, true) == ZAxisMode
    ensures !(Abs(Dot(f.forward, ZAxis)) > 0.95)
  {
  }

  /**
   * The Z-axis mode's horizontal angle, `z_direction * -sx` with a
   * direction of +1 when up points upwards and -1 when it points down.
   */
  function ZAxisAngle(up: Vec3, sx: real): real {
    if Dot(up, ZAxis) >= 0.0 then -sx else sx
  }

  /** `(q_vertical, q_horizontal)` for a branch, from the scaled inputs. */
  function Rotations(b: Branch, f: Frame, up: Vec3, sx: real, sy: real, n: Numerics): (Quat, Quat) {
    match b
    case Singular =>
      (FromAxisAngle(XAxis, sy * 0.1, n), FromAxisAngle(ZAxis, -(sx * 0.1), n))
    case ZAxisMode =>
      if Abs(Dot(f.forward, ZAxis)) > 0.95 then
        (FromAxisAngle(f.right, sy, n), FromAxisAngle(up, -sx, n))
      else
        (FromAxisAngle(f.right, sy, n), FromAxisAngle(ZAxis, ZAxisAngle(up, sx), n))
    case Standard =>
      (FromAxisAngle(f.right, sy, n), FromAxisAngle(up, -sx, n))
  }

  /** Near a singularity, up moves only 5% of the way to its rotated value. */
  function StabilisedUp(up: Vec3, q: Quat, n: Numerics): Vec3 {
    Normalize(Add(Scale(1.0 - 0.05, up), Scale(0.05, TransformVector(q, up))), n)
  }

  /**
   * The Z-axis mode roll correction: away from the Z pole, when up is more
   * than twice the dead zone away from the level up vector, blend 30% of
   * the way to it.
   */
  function RollCorrected(up: Vec3, newEye: Vec3, target: Vec3, deadZone: real, n: Numerics): Vec3 {
    var view := Normalize(Sub(target, newEye), n);
    if Abs(Dot(view, ZAxis)) > 0.95 then up
    else
      var idealRight := Cross(view, ZAxis);
      if !(Length(idealRight, n) > 0.1) then up
      else
        var ir := Normalize(idealRight, n);
        var iu0 := Normalize(Cross(ir, view), n);
        var iu := if Dot(view, ZAxis) < -0.9 then Scale(-1.0, iu0) else iu0;
        if Abs(1.0 - Dot(up, iu)) > deadZone * 2.0 then
          Normalize(Add(Scale(1.0 - 0.3, up), Scale(0.3, iu)), n)
        else up
  }

  /** The roll correction changes nothing looking along the Z axis. */
  lemma RollCorrectionSkipsPole(up: Vec3, newEye: Vec3, target: Vec3, deadZone: real, n: Numerics)
    requires Abs(Dot(Normalize(Sub(target, newEye), n), ZAxis)) > 0.95
    ensures RollCorrected(up, newEye, target, deadZone, n) == up
  {
  }

  predicate RollGuard(x: real, y: real, s: ControllerSettings) {
    s.useZAxisRotation && (Abs(x) > 0.01 || Abs(y) > 0.01)
  }

  /** `q_horizontal * q_vertical` for one frame of stick input. */
  function OrbitRotation(p: Pose, x: real, y: real, rotationScale: real, useZAxisRotation: bool, n: Numerics): Quat {
    var f := ViewFrame(p, n);
    var qs := Rotations(Classify(f, p.up, useZAxisRotation), f, p.up,
                        ScaleInput(x, rotationScale), ScaleInput(y, rotationScale), n);
    Mul(qs.1, qs.0)
  }

  /** The eye and up vector one frame would write. */
  datatype Plan = Plan(eye: Vec3, up: Vec3)

  function PlannedMove(p: Pose, x: real, y: real, rotationScale: real, s: ControllerSettings, n: Numerics): Plan {
    var q := OrbitRotation(p, x, y, rotationScale, s.useZAxisRotation, n);
    var newEye := Orbit(q, p.eye, p.target);
    var up1 := if IsSingular(ViewFrame(p, n), p.up) then StabilisedUp(p.up, q, n) else TransformVector(q, p.up);
    var up2 := if RollGuard(x, y, s) then RollCorrected(up1, newEye, p.target, s.deadZone, n) else up1;
    Plan(newEye, up2)
  }

  predicate Idle(x: real, y: real) {
    Abs(x) < IdleThreshold && Abs(y) < IdleThreshold
  }

  /** The safety clamps: an extreme coordinate, or x and z both changing sign. */
  predicate SkipWrite(eye: Vec3, newEye: Vec3) {
    || Abs(newEye.x) > CoordinateLimit
    || Abs(newEye.y) > CoordinateLimit
    || Abs(newEye.z) > CoordinateLimit
    || (eye.x * newEye.x < 0.0 && eye.z * newEye.z < 0.0)
  }

  /** `update_camera_position` on the camera as a value. */
  function Updated(c: CamState, x: real, y: real, rotationScale: real, s: ControllerSettings,
                   host: Host, n: Numerics): CamState
  {
    if Idle(x, y) then c
    else
      var plan := PlannedMove(c.pose, x, y, rotationScale, s, n);
      if SkipWrite(c.pose.eye, plan.eye) then c
      else Written(Pose(plan.eye, c.pose.target, plan.up), false, host)
  }

  /**
   * A frame either leaves the camera alone or writes an eye within the
   * coordinate limit, keeps the target and turns smooth transitions off.
   */
  lemma UpdatedIsClamped(c: CamState, x: real, y: real, rotationScale: real, s: ControllerSettings,
                         host: Host, n: Numerics)
    ensures var r := Updated(c, x, y, rotationScale, s, host, n);
      || r == c
      || (&& r.pose.target == c.pose.target && !r.smooth
          && Abs(r.pose.eye.x) <= CoordinateLimit && Abs(r.pose.eye.y) <= CoordinateLimit
          && Abs(r.pose.eye.z) <= CoordinateLimit
          && !(c.pose.eye.x * r.pose.eye.x < 0.0 && c.pose.eye.z * r.pose.eye.z < 0.0))
  {
  }

  /** Outside the singular fallback the right vector is a unit vector. */
  lemma FrameRightIsUnit(p: Pose, n: Numerics)
    requires SqrtSound(n)
    requires !IsSingular(ViewFrame(p, n), p.up)
    ensures NormSq(ViewFrame(p, n).right) == 1.0
  {
    var forward := Normalize(Sub(p.eye, p.target), n);
    var cross := Cross(forward, p.up);
    assert Length(cross, n) >= 0.05;
    NormalizeIsUnit(cross, n);
  }

  lemma AxesAreUnit()
    ensures NormSq(XAxis) == 1.0 && NormSq(YAxis) == 1.0 && NormSq(ZAxis) == 1.0
  {
  }

  /** A unit axis gives a unit quaternion for every angle. */
  lemma AxisAngleAlwaysUnit(axis: Vec3, n: Numerics)
    requires TrigSound(n) && NormSq(axis) == 1.0
    ensures forall t :: IsUnit(FromAxisAngle(axis, t, n))
  {
    forall t
      ensures IsUnit(FromAxisAngle(axis, t, n))
    {
      FromAxisAngleIsUnit(axis, t, n);
    }
  }

  lemma SingularRotationsAreUnit(f: Frame, up: Vec3, sx: real, sy: real, n: Numerics)
    requires TrigSound(n)
    ensures var qs := Rotations(Singular, f, up, sx, sy, n); IsUnit(qs.0) && IsUnit(qs.1)
  {
    AxesAreUnit();
    AxisAngleAlwaysUnit(XAxis, n);
    AxisAngleAlwaysUnit(ZAxis, n);
  }

  lemma ZModeRotationsAreUnit(f: Frame, up: Vec3, sx: real, sy: real, n: Numerics)
    requires TrigSound(n) && NormSq(f.right) == 1.0 && !(Abs(Dot(f.forward, ZAxis)) > 0.95)
    ensures var qs := Rotations(ZAxisMode, f, up, sx, sy, n); IsUnit(qs.0) && IsUnit(qs.1)
  {
    AxesAreUnit();
    AxisAngleAlwaysUnit(f.right, n);
    AxisAngleAlwaysUnit(ZAxis, n);
    ZModeRotations(f, up, sx, sy, n);
  }

  lemma ZModeRotations(f: Frame, up: Vec3, sx: real, sy: real, n: Numerics)
    requires !(Abs(Dot(f.forward, ZAxis)) > 0.95)
    ensures Rotations(ZAxisMode, f, up, sx, sy, n)
         == (FromAxisAngle(f.right, sy, n), FromAxisAngle(ZAxis, ZAxisAngle(up, sx), n))
  {
  }

  lemma StandardRotationsAreUnit(f: Frame, up: Vec3, sx: real, sy: real, n: Numerics)
    requires TrigSound(n) && NormSq(f.right) == 1.0 && NormSq(up) == 1.0
    ensures var qs := Rotations(Standard, f, up, sx, sy, n); IsUnit(qs.0) && IsUnit(qs.1)
  {
    AxisAngleAlwaysUnit(f.right, n);
    AxisAngleAlwaysUnit(up, n);
  }

  /** Every branch turns by unit quaternions, given unit axes. */
  lemma RotationsAreUnit(b: Branch, f: Frame, up: Vec3, sx: real, sy: real, n: Numerics)
    requires TrigSound(n)
    requires b != Singular ==> NormSq(f.right) == 1.0
    requires b == Standard ==> NormSq(up) == 1.0
    requires b == ZAxisMode ==> !(Abs(Dot(f.forward, ZAxis)) > 0.95)
    ensures var qs := Rotations(b, f, up, sx, sy, n); IsUnit(qs.0) && IsUnit(qs.1)
  {
    match b
    case Singular => SingularRotationsAreUnit(f, up, sx, sy, n);
    case ZAxisMode => ZModeRotationsAreUnit(f, up, sx, sy, n);
    case Standard => StandardRotationsAreUnit(f, up, sx, sy, n);
  }

  /**
   * The frame's rotation is a unit quaternion in the singular and Z-axis
   * modes, and in the standard mode whenever up is a unit vector.
   */
  lemma OrbitRotationIsUnit(p: Pose, x: real, y: real, rotationScale: real, useZAxisRotation: bool, n: Numerics)
    requires TrigSound(n) && SqrtSound(n)
    requires Classify(ViewFrame(p, n), p.up, useZAxisRotation) == Standard ==> NormSq(p.up) == 1.0
    ensures IsUnit(OrbitRotation(p, x, y, rotationScale, useZAxisRotation, n))
  {
    var f := ViewFrame(p, n);
    var b := Classify(f, p.up, useZAxisRotation);
    var sx, sy := ScaleInput(x, rotationScale), ScaleInput(y, rotationScale);
    if b != Singular {
      FrameRightIsUnit(p, n);
    }
    RotationsAreUnit(b, f, p.up, sx, sy, n);
    var qs := Rotations(b, f, p.up, sx, sy, n);
    MulUnit(qs.1, qs.0);
  }

  /** Hence the orbit keeps the eye's distance from the target. */
  lemma PlannedMoveKeepsDistance(p: Pose, x: real, y: real, rotationScale: real, s: ControllerSettings, n: Numerics)
    requires TrigSound(n) && SqrtSound(n)
    requires Classify(ViewFrame(p, n), p.up, s.useZAxisRotation) == Standard ==> NormSq(p.up) == 1.0
    ensures NormSq(Sub(PlannedMove(p, x, y, rotationScale, s, n).eye, p.target)) == NormSq(Sub(p.eye, p.target))
  {
    var q := OrbitRotation(p, x, y, rotationScale, s.useZAxisRotation, n);
    OrbitRotationIsUnit(p, x, y, rotationScale, s.useZAxisRotation, n);
    OrbitKeepsDistance(q, p.eye, p.target);
    assert PlannedMove(p, x, y, rotationScale, s, n).eye == Orbit(q, p.eye, p.target);
  }

  // ---------------------------------------------------------------------
  // ViewCube snaps and screen rotations
  // ---------------------------------------------------------------------

  /** `_set_viewcube_orientation`: the host's pose for `o`, fitted, animated. */
  function Snapped(c: CamState, o: Orientation, host: Host): (r: CamState)
    ensures r.orientation == o && r.smooth
  {
    CamState(host.fitted(host.oriented(o, c.pose)), o, true)
  }

  /** `_move_to_nearest_viewcube_face`. */
  function NearestSnapped(c: CamState, host: Host, n: Numerics): CamState {
    Snapped(c, Faces[NearestIndex(ViewDirection(c.pose, n))].0, host)
  }

  /** After a snap to the nearest face the camera reports a face orientation. */
  lemma NearestSnappedIsFace(c: CamState, host: Host, n: Numerics)
    ensures NearestSnapped(c, host, n).orientation in {Front, Back, Left, Right, Top, Bottom}
  {
    var k := NearestIndex(ViewDirection(c.pose, n));
    assert Faces[k].0 in {Front, Back, Left, Right, Top, Bottom};
  }

  /** A camera already looking at a face snaps to that face. */
  lemma SnapKeepsFace(c: CamState, j: nat, host: Host, n: Numerics)
    requires SqrtSound(n)
    requires j < |Faces| && FaceDot(ViewDirection(c.pose, n), j) > FaceTolerance
    ensures NearestSnapped(c, host, n) == Snapped(c, Faces[j].0, host)
  {
    NormalizeNormSq(Sub(c.pose.eye, c.pose.target), n);
    OnFaceIsNearest(ViewDirection(c.pose, n), j);
  }

  /** `_rotate_screen_by_angle`: the eye turns about up; target and up stay. */
  function ScreenRotated(c: CamState, degrees: real, host: Host, n: Numerics): (r: CamState)
    ensures r.pose.target == c.pose.target && r.pose.up == c.pose.up && r.smooth
  {
    var q := FromAxisAngle(c.pose.up, Radians(degrees), n);
    Written(Pose(Orbit(q, c.pose.eye, c.pose.target), c.pose.target, c.pose.up), true, host)
  }

  /** With a unit up vector the screen rotation keeps the eye's distance. */
  lemma ScreenRotationKeepsDistance(c: CamState, degrees: real, host: Host, n: Numerics)
    requires TrigSound(n) && NormSq(c.pose.up) == 1.0
    ensures NormSq(Sub(ScreenRotated(c, degrees, host, n).pose.eye, c.pose.target))
         == NormSq(Sub(c.pose.eye, c.pose.target))
  {
    FromAxisAngleIsUnit(c.pose.up, Radians(degrees), n);
    OrbitKeepsDistance(FromAxisAngle(c.pose.up, Radians(degrees), n), c.pose.eye, c.pose.target);
  }

  /** Rotating the screen right and then left restores the pose. */
  lemma ScreenRightThenLeft(c: CamState, host: Host, n: Numerics)
    requires TrigSound(n) && NormSq(c.pose.up) == 1.0
    ensures ScreenRotated(ScreenRotated(c, 90.0, host, n), -90.0, host, n).pose == c.pose
  {
    var q := FromAxisAngle(c.pose.up, Radians(90.0), n);
    FromAxisAngleIsUnit(c.pose.up, Radians(90.0), n);
    assert Radians(-90.0) == -Radians(90.0);
    FromAxisAngleNegated(c.pose.up, Radians(90.0), n);
    OrbitRoundTrip(q, c.pose.eye, c.pose.target);
  }

  /**
   * The axis of `_rotate_screen_vertical_by_angle` and whether the view is
   * within 0.95 of the Z axis. Near the pole the axis is perpendicular to
   * the horizontal part of up (world X when that part is short); elsewhere
   * it is view x up (world X when that is almost zero).
   */
  function VerticalAxis(p: Pose, n: Numerics): (Vec3, bool) {
    var view := Normalize(Sub(p.target, p.eye), n);
    var nearPole := Abs(Dot(view, ZAxis)) > 0.95;
    if nearPole then
      var flatUp := Vec3(p.up.x, p.up.y, 0.0);
      if Length(flatUp, n) > 0.1 then
        var h := Normalize(flatUp, n);
        (Normalize(Vec3(-h.y, h.x, 0.0), n), true)
      else (XAxis, true)
    else
      var r := Cross(view, p.up);
      if Length(r, n) < 0.01 then (XAxis, false) else (Normalize(r, n), false)
  }

  lemma LengthOfUnit(v: Vec3, n: Numerics)
    requires SqrtSound(n) && NormSq(v) == 1.0
    ensures Length(v, n) != 0.0
  {
    assert n.sqrt(1.0) * n.sqrt(1.0) == 1.0;
  }

  /** The vertical rotation axis is always a unit vector. */
  lemma VerticalAxisIsUnit(p: Pose, n: Numerics)
    requires SqrtSound(n)
    ensures NormSq(VerticalAxis(p, n).0) == 1.0
  {
    var view := Normalize(Sub(p.target, p.eye), n);
    if Abs(Dot(view, ZAxis)) > 0.95 {
      var flatUp := Vec3(p.up.x, p.up.y, 0.0);
      if Length(flatUp, n) > 0.1 {
        var h := Normalize(flatUp, n);
        NormalizeIsUnit(flatUp, n);
        var k := 1.0 / Length(flatUp, n);
        assert h == Vec3(k * p.up.x, k * p.up.y, k * 0.0);
        var perp := Vec3(-h.y, h.x, 0.0);
        PerpendicularNormSq(h);
        LengthOfUnit(perp, n);
        NormalizeIsUnit(perp, n);
      }
    } else {
      var r := Cross(view, p.up);
      if !(Length(r, n) < 0.01) {
        NormalizeIsUnit(r, n);
      }
    }
  }

  lemma PerpendicularNormSq(h: Vec3)
    requires h.z == 0.0 && NormSq(h) == 1.0
    ensures NormSq(Vec3(-h.y, h.x, 0.0)) == 1.0
  {
  }

  /**
   * The levelling rule: away from the pole, an up vector tilted less than
   * 0.7 out of the horizontal plane loses its z part and is renormalised;
   * if almost nothing is left, the original up is kept instead.
   */
  function Relevelled(rotatedUp: Vec3, originalUp: Vec3, nearPole: bool, n: Numerics): Vec3 {
    if !nearPole && Abs(rotatedUp.z) < 0.7 then
      var flat := Vec3(rotatedUp.x, rotatedUp.y, 0.0);
      if Length(flat, n) > 0.01 then Normalize(flat, n) else originalUp
    else rotatedUp
  }

  /** A levelled up vector is a horizontal unit vector, or the original up. */
  lemma RelevelledIsLevel(rotatedUp: Vec3, originalUp: Vec3, nearPole: bool, n: Numerics)
    requires SqrtSound(n)
    requires !nearPole && Abs(rotatedUp.z) < 0.7
    ensures var u := Relevelled(rotatedUp, originalUp, nearPole, n);
      u == originalUp || (u.z == 0.0 && NormSq(u) == 1.0)
  {
    var flat := Vec3(rotatedUp.x, rotatedUp.y, 0.0);
    if Length(flat, n) > 0.01 {
      NormalizeIsUnit(flat, n);
    }
  }

  /** `_rotate_screen_vertical_by_angle`: eye and up turn about the screen's horizontal axis. */
  function ScreenRotatedVertically(c: CamState, degrees: real, host: Host, n: Numerics): (r: CamState)
    ensures r.pose.target == c.pose.target && r.smooth
  {
    var (right, nearPole) := VerticalAxis(c.pose, n);
    var q := FromAxisAngle(right, Radians(degrees), n);
    var newEye := Orbit(q, c.pose.eye, c.pose.target);
    var rotatedUp := TransformVector(q, c.pose.up);
    Written(Pose(newEye, c.pose.target, Relevelled(rotatedUp, c.pose.up, nearPole, n)), true, host)
  }

  /** The vertical screen rotation keeps the eye's distance from the target. */
  lemma VerticalRotationKeepsDistance(c: CamState, degrees: real, host: Host, n: Numerics)
    requires TrigSound(n) && SqrtSound(n)
    ensures NormSq(Sub(ScreenRotatedVertically(c, degrees, host, n).pose.eye, c.pose.target))
         == NormSq(Sub(c.pose.eye, c.pose.target))
  {
    var right := VerticalAxis(c.pose, n).0;
    VerticalAxisIsUnit(c.pose, n);
    FromAxisAngleIsUnit(right, Radians(degrees), n);
    OrbitKeepsDistance(FromAxisAngle(right, Radians(degrees), n), c.pose.eye, c.pose.target);
  }

  /** `_is_on_viewcube_face` with its default tolerance. */
  predicate OnViewcubeFace(c: CamState, n: Numerics) {
    OnFace(ViewDirection(c.pose, n), FaceTolerance)
  }

  /** The camera a smart rotation turns: as it is on a face, snapped otherwise. */
  function SmartStart(c: CamState, host: Host, n: Numerics): CamState {
    if OnViewcubeFace(c, n) then c else NearestSnapped(c, host, n)
  }

  /** `smart_rotate_right`/`left`: snap if off a face, then turn by the same angle. */
  function SmartRotated(c: CamState, degrees: real, host: Host, n: Numerics): CamState {
    ScreenRotated(SmartStart(c, host, n), degrees, host, n)
  }

  /** `smart_rotate_up`/`down`. */
  function SmartRotatedVertically(c: CamState, degrees: real, host: Host, n: Numerics): CamState {
    ScreenRotatedVertically(SmartStart(c, host, n), degrees, host, n)
  }

  /**
   * On a face a smart rotation is the plain rotation; off a face it turns
   * from the nearest face's pose.
   */
  lemma SmartRotationSequence(c: CamState, degrees: real, host: Host, n: Numerics)
    ensures OnViewcubeFace(c, n) ==>
      && SmartRotated(c, degrees, host, n) == ScreenRotated(c, degrees, host, n)
      && SmartRotatedVertically(c, degrees, host, n) == ScreenRotatedVertically(c, degrees, host, n)
    ensures !OnViewcubeFace(c, n) ==>
      && SmartRotated(c, degrees, host, n) == ScreenRotated(NearestSnapped(c, host, n), degrees, host, n)
      && SmartRotatedVertically(c, degrees, host, n) == ScreenRotatedVertically(NearestSnapped(c, host, n), degrees, host, n)
  {
  }

  // ---------------------------------------------------------------------
  // Dispatch
  // ---------------------------------------------------------------------

  /** What a function id asks the controller to do. */
  datatype Action =
    | Home
    | Fit
    | FaceView(face: Orientation)
    | Isometric
    | NearestFaceView
    | ScreenTurn(degrees: real)
    | SmartScreenTurn(degrees: real)
    | VerticalTurn(degrees: real)
    | SmartVerticalTurn(degrees: real)

  /** The function ids `execute_button_function` acts on. */
  const HandledFunctions: set<string> := {
    "home_view", "fit_view",
    "viewcube_front", "viewcube_back", "viewcube_left", "viewcube_right", "viewcube_top", "viewcube_bottom",
    "iso_view", "nearest_viewcube",
    "rotate_screen_right", "rotate_screen_left", "smart_rotate_right", "smart_rotate_left",
    "rotate_screen_up", "rotate_screen_down", "smart_rotate_up", "smart_rotate_down"}

  /** The chain of id tests in `execute_button_function`; other ids are only logged. */
  function ActionOf(name: string): (r: Option<Action>)
    ensures r.Some? <==> name in HandledFunctions
  {
    match name
    case "home_view" => Some(Home)
    case "fit_view" => Some(Fit)
    case "viewcube_front" => Some(FaceView(Front))
    case "viewcube_back" => Some(FaceView(Back))
    case "viewcube_left" => Some(FaceView(Left))
    case "viewcube_right" => Some(FaceView(Right))
    case "viewcube_top" => Some(FaceView(Top))
    case "viewcube_bottom" => Some(FaceView(Bottom))
    case "iso_view" => Some(Isometric)
    case "nearest_viewcube" => Some(NearestFaceView)
    case "rotate_screen_right" => Some(ScreenTurn(90.0))
    case "rotate_screen_left" => Some(ScreenTurn(-90.0))
    case "smart_rotate_right" => Some(SmartScreenTurn(90.0))
    case "smart_rotate_left" => Some(SmartScreenTurn(-90.0))
    case "rotate_screen_up" => Some(VerticalTurn(90.0))
    case "rotate_screen_down" => Some(VerticalTurn(-90.0))
    case "smart_rotate_up" => Some(SmartVerticalTurn(90.0))
    case "smart_rotate_down" => Some(SmartVerticalTurn(-90.0))
    case _ => None
  }

  /** Every quarter turn the dispatch asks for has a counterpart undoing its angle. */
  lemma OppositeIdsOppositeAngles()
    ensures ActionOf("rotate_screen_left") == Some(ScreenTurn(-ActionOf("rotate_screen_right").value.degrees))
    ensures ActionOf("rotate_screen_down") == Some(VerticalTurn(-ActionOf("rotate_screen_up").value.degrees))
    ensures ActionOf("smart_rotate_left") == Some(SmartScreenTurn(-ActionOf("smart_rotate_right").value.degrees))
    ensures ActionOf("smart_rotate_down") == Some(SmartVerticalTurn(-ActionOf("smart_rotate_up").value.degrees))
  {
  }

  function Performed(a: Action, c: CamState, host: Host, n: Numerics): CamState {
    match a
    case Home =>
      var p := host.home(c.pose);
      CamState(p, host.orientationOf(p), c.smooth)
    case Fit => CamState(host.fitted(c.pose), c.orientation, c.smooth)
    case FaceView(o) => Snapped(c, o, host)
    case Isometric => Written(IsoPose, true, host)
    case NearestFaceView => NearestSnapped(c, host, n)
    case ScreenTurn(d) => ScreenRotated(c, d, host, n)
    case SmartScreenTurn(d) => SmartRotated(c, d, host, n)
    case VerticalTurn(d) => ScreenRotatedVertically(c, d, host, n)
    case SmartVerticalTurn(d) => SmartRotatedVertically(c, d, host, n)
  }

  /** The camera after `execute_button_function(name)`. */
  function Executed(name: string, c: CamState, host: Host, n: Numerics): (r: CamState)
    ensures name !in HandledFunctions ==> r == c
  {
    match ActionOf(name)
    case None => c
    case Some(a) => Performed(a, c, host, n)
  }

  /** Each face button leaves the camera on that face, animated. */
  lemma FaceButtonsReachFace(c: CamState, host: Host, n: Numerics)
    ensures Executed("viewcube_front", c, host, n).orientation == Front
    ensures Executed("viewcube_back", c, host, n).orientation == Back
    ensures Executed("viewcube_left", c, host, n).orientation == Left
    ensures Executed("viewcube_right", c, host, n).orientation == Right
    ensures Executed("viewcube_top", c, host, n).orientation == Top
    ensures Executed("viewcube_bottom", c, host, n).orientation == Bottom
    ensures Executed("viewcube_top", c, host, n).smooth
  {
  }

  // ---------------------------------------------------------------------
  // Helpers of the per-frame update
  // ---------------------------------------------------------------------

  /** Forward, right (with the fallback) and the unfixed right length. */
  method ComputeFrame(p: Pose, n: Numerics) returns (f: Frame)
    ensures f == ViewFrame(p, n)
  {
    var forward := Normalize(Sub(p.eye, p.target), n);
    var right := Cross(forward, p.up);
    var rightLength := Length(right, n);
    if rightLength < 0.01 {
      right := AlternateRight(forward, p.up, n);
    }
    right := Normalize(right, n);
    f := Frame(forward, right, rightLength);
  }

  /** The branch choice and its two rotations. */
  method ComputeRotations(f: Frame, up: Vec3, sx: real, sy: real, useZAxisRotation: bool, n: Numerics)
    returns (qv: Quat, qh: Quat)
    ensures (qv, qh) == Rotations(Classify(f, up, useZAxisRotation), f, up, sx, sy, n)
  {
    if IsSingular(f, up) {
      qv := FromAxisAngle(XAxis, sy * 0.1, n);
      qh := FromAxisAngle(ZAxis, -(sx * 0.1), n);
    } else if useZAxisRotation {
      if Abs(Dot(f.forward, ZAxis)) > 0.95 {
        qv := FromAxisAngle(f.right, sy, n);
        qh := FromAxisAngle(up, -sx, n);
      } else {
        qv := FromAxisAngle(f.right, sy, n);
        qh := FromAxisAngle(ZAxis, ZAxisAngle(up, sx), n);
      }
    } else {
      qv := FromAxisAngle(f.right, sy, n);
      qh := FromAxisAngle(up, -sx, n);
    }
  }

  /** The orbit and the new up vector of one frame. */
  method ComputeMove(p: Pose, x: real, y: real, rotationScale: real, s: ControllerSettings, n: Numerics)
    returns (newEye: Vec3, rotatedUp: Vec3)
    ensures Plan(newEye, rotatedUp) == PlannedMove(p, x, y, rotationScale, s, n)
  {
    var sx := ScaleInput(x, rotationScale);
    var sy := ScaleInput(y, rotationScale);
    var f := ComputeFrame(p, n);
    var qv, qh := ComputeRotations(f, p.up, sx, sy, s.useZAxisRotation, n);
    var q := Mul(qh, qv);
    assert q == OrbitRotation(p, x, y, rotationScale, s.useZAxisRotation, n);
    newEye := Orbit(q, p.eye, p.target);
    if IsSingular(f, p.up) {
      rotatedUp := StabilisedUp(p.up, q, n);
    } else {
      rotatedUp := TransformVector(q, p.up);
    }
    if RollGuard(x, y, s) {
      rotatedUp := RollCorrected(rotatedUp, newEye, p.target, s.deadZone, n);
    }
  }

  class CameraController {
    /** The class-wide rotation scale. */
    var rotationScale: real

    constructor (rotationScale: real)
      ensures this.rotationScale == rotationScale
    {
      this.rotationScale := rotationScale;
    }

    /** `set_rotation_scale`: stores the value as given. */
    method SetRotationScale(value: real)
      modifies this
      ensures rotationScale == value
    {
      rotationScale := value;
    }

    /** One frame of stick-driven orbit (`update_camera_position`). */
    method UpdateCameraPosition(cam: Camera, x: real, y: real, s: ControllerSettings, host: Host, n: Numerics)
      modifies cam
      ensures cam.State() == Updated(old(cam.State()), x, y, rotationScale, s, host, n)
    {
      if Abs(x) < IdleThreshold && Abs(y) < IdleThreshold {
        return;
      }
      var eye, target := cam.eye, cam.target;
      var newEye, rotatedUp := ComputeMove(cam.State().pose, x, y, rotationScale, s, n);
      if Abs(newEye.x) > CoordinateLimit || Abs(newEye.y) > CoordinateLimit || Abs(newEye.z) > CoordinateLimit {
        return;
      }
      if eye.x * newEye.x < 0.0 && eye.z * newEye.z < 0.0 {
        return;
      }
      cam.Assign(Written(Pose(newEye, target, rotatedUp), false, host));
    }

    /** `_set_viewcube_orientation`. */
    method SetViewcubeOrientation(cam: Camera, o: Orientation, host: Host)
      modifies cam
      ensures cam.State() == Snapped(old(cam.State()), o, host)
    {
      var oriented := host.oriented(o, cam.State().pose);
      cam.Assign(CamState(host.fitted(oriented), o, true));
    }

    /** `_move_to_nearest_viewcube_face`. */
    method MoveToNearestViewcubeFace(cam: Camera, host: Host, n: Numerics)
      modifies cam
      ensures cam.State() == NearestSnapped(old(cam.State()), host, n)
    {
      var viewDirection := Normalize(Sub(cam.eye, cam.target), n);
      var nearest, best := NearestFace(viewDirection);
      SetViewcubeOrientation(cam, nearest, host);
    }

    /** `_is_on_viewcube_face` with the default tolerance. */
    method IsOnViewcubeFace(cam: Camera, n: Numerics) returns (on: bool)
      ensures on == OnViewcubeFace(cam.State(), n)
    {
      var viewDirection := Normalize(Sub(cam.eye, cam.target), n);
      on := IsOnFace(viewDirection, FaceTolerance);
    }

    /** `_rotate_screen_by_angle`. */
    method RotateScreenByAngle(cam: Camera, degrees: real, host: Host, n: Numerics)
      modifies cam
      ensures cam.State() == ScreenRotated(old(cam.State()), degrees, host, n)
    {
      var q := FromAxisAngle(cam.up, Radians(degrees), n);
      var newEye := Orbit(q, cam.eye, cam.target);
      cam.Assign(Written(Pose(newEye, cam.target, cam.up), true, host));
    }

    /** `_rotate_screen_vertical_by_angle`. */
    method RotateScreenVerticalByAngle(cam: Camera, degrees: real, host: Host, n: Numerics)
      modifies cam
      ensures cam.State() == ScreenRotatedVertically(old(cam.State()), degrees, host, n)
    {
      var (right, nearPole) := VerticalAxis(cam.State().pose, n);
      var q := FromAxisAngle(right, Radians(degrees), n);
      var newEye := Orbit(q, cam.eye, cam.target);
      var rotatedUp := TransformVector(q, cam.up);
      if !nearPole {
        if Abs(rotatedUp.z) < 0.7 {
          rotatedUp := Vec3(rotatedUp.x, rotatedUp.y, 0.0);
          if Length(rotatedUp, n) > 0.01 {
            rotatedUp := Normalize(rotatedUp, n);
          } else {
            rotatedUp := cam.up;
          }
        }
      }
      cam.Assign(Written(Pose(newEye, cam.target, rotatedUp), true, host));
    }

    /** The smart rotations: snap when off a face, then the plain rotation. */
    method SmartRotate(cam: Camera, degrees: real, vertical: bool, host: Host, n: Numerics)
      modifies cam
      ensures !vertical ==> cam.State() == SmartRotated(old(cam.State()), degrees, host, n)
      ensures vertical ==> cam.State() == SmartRotatedVertically(old(cam.State()), degrees, host, n)
    {
      var on := IsOnViewcubeFace(cam, n);
      if !on {
        MoveToNearestViewcubeFace(cam, host, n);
      }
      if vertical {
        RotateScreenVerticalByAngle(cam, degrees, host, n);
      } else {
        RotateScreenByAngle(cam, degrees, host, n);
      }
    }

    /** One branch of `execute_button_function`. */
    method Perform(cam: Camera, a: Action, host: Host, n: Numerics)
      modifies cam
      ensures cam.State() == Performed(a, old(cam.State()), host, n)
    {
      match a
      case Home =>
        var p := host.home(cam.State().pose);
        cam.Assign(CamState(p, host.orientationOf(p), cam.smooth));
      case Fit =>
        cam.Assign(CamState(host.fitted(cam.State().pose), cam.orientation, cam.smooth));
      case FaceView(o) => SetViewcubeOrientation(cam, o, host);
      case Isometric => cam.Assign(Written(IsoPose, true, host));
      case NearestFaceView => MoveToNearestViewcubeFace(cam, host, n);
      case ScreenTurn(d) => RotateScreenByAngle(cam, d, host, n);
      case SmartScreenTurn(d) => SmartRotate(cam, d, false, host, n);
      case VerticalTurn(d) => RotateScreenVerticalByAngle(cam, d, host, n);
      case SmartVerticalTurn(d) => SmartRotate(cam, d, true, host, n);
    }

    /** `execute_button_function`. */
    method ExecuteButtonFunction(cam: Camera, name: string, host: Host, n: Numerics)
      modifies cam
      ensures cam.State() == Executed(name, old(cam.State()), host, n)
    {
      var action := ActionOf(name);
      if action.Some? {
        Perform(cam, action.value, host, n);
      }
    }
  }
}
