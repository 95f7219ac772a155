/**
 * The host application's camera as the add-in sees it: eye, target and up
 * vector, the view orientation the host reports, and whether the next change
 * is animated. What the host computes on its own (the pose for a named view
 * orientation, fitting the model into view, the home view, and the
 * orientation it reports after a pose is set) is passed in as a `Host` value.
 */
module HostCamera {
  import opened Vectors
  import opened Quaternions

  datatype Orientation =
    | Arbitrary | Front | Back | Left | Right | Top | Bottom
    | IsoTopLeft | IsoTopRight | IsoBottomLeft | IsoBottomRight

  datatype Pose = Pose(eye: Vec3, target: Vec3, up: Vec3)

  /** The camera as a value: pose, reported orientation, smooth-transition flag. */
  datatype CamState = CamState(pose: Pose, orientation: Orientation, smooth: bool)

  /** Host behaviour the add-in relies on but does not compute. */
  datatype Host = Host(
    oriented: (Orientation, Pose) -> Pose,
    fitted: Pose -> Pose,
    home: Pose -> Pose,
    orientationOf: Pose -> Orientation)

  /** The camera after the add-in assigns a pose it computed itself. */
  function Written(p: Pose, smooth: bool, host: Host): CamState {
    CamState(p, host.orientationOf(p), smooth)
  }

  /** The direction from the target to the eye, normalised. */
  function ViewDirection(p: Pose, n: Numerics): Vec3 {
    Normalize(Sub(p.eye, p.target), n)
  }

  /** The pose both isometric view commands write. */
  const IsoPose := Pose(Vec3(10.0, -10.0, 10.0), Vec3(0.0, 0.0, 0.0), ZAxis)

  /** `target + q(eye - target)`: the eye turned about the target by q. */
  function Orbit(q: Quat, eye: Vec3, target: Vec3): Vec3 {
    Add(target, TransformVector(q, Sub(eye, target)))
  }

  /** A unit quaternion moves the eye on a sphere about the target. */
  lemma OrbitKeepsDistance(q: Quat, eye: Vec3, target: Vec3)
    requires IsUnit(q)
    ensures NormSq(Sub(Orbit(q, eye, target), target)) == NormSq(Sub(eye, target))
  {
    assert Sub(Orbit(q, eye, target), target) == TransformVector(q, Sub(eye, target));
    TransformPreservesNorm(q, Sub(eye, target));
  }

  /** Turning by a unit q and then by its conjugate returns the eye. */
  lemma OrbitRoundTrip(q: Quat, eye: Vec3, target: Vec3)
    requires IsUnit(q)
    ensures Orbit(Conjugate(q), Orbit(q, eye, target), target) == eye
  {
    var e := Orbit(q, eye, target);
    assert Sub(e, target) == TransformVector(q, Sub(eye, target));
    TransformRoundTrip(q, Sub(eye, target));
  }

  /** The identity rotation leaves the eye where it is. */
  lemma OrbitIdentity(eye: Vec3, target: Vec3)
    ensures Orbit(Identity, eye, target) == eye
  {
    var d := Sub(eye, target);
    TransformIdentity(d);
    AddSub(target, eye);
  }

  lemma AddSub(target: Vec3, eye: Vec3)
    ensures Add(target, Sub(eye, target)) == eye
  {
  }

  class Camera {
    var eye: Vec3
    var target: Vec3
    var up: Vec3
    var orientation: Orientation
    var smooth: bool

    function State(): CamState
      reads this
    {
      CamState(Pose(eye, target, up), orientation, smooth)
    }

    constructor (s: CamState)
      ensures State() == s
    {
      eye, target, up := s.pose.eye, s.pose.target, s.pose.up;
      orientation, smooth := s.orientation, s.smooth;
    }

    /** `viewport.camera = camera`: the host takes over the whole camera. */
    method Assign(s: CamState)
      modifies this
      ensures State() == s
    {
      eye, target, up := s.pose.eye, s.pose.target, s.pose.up;
      orientation, smooth := s.orientation, s.smooth;
    }
  }
}
