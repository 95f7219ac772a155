/**
 * Quaternion algebra used for every camera rotation of the add-in. Both copies
 * of the quaternion class in the add-in (the top-level one, used by the
 * joystick camera controller, and the one in the camera utility library) are
 * formula-for-formula the same, so this one module models both.
 */
module Quaternions {
  import opened Vectors

  /** A quaternion w + xi + yj + zk. */
  datatype Quat = Quat(w: real, x: real, y: real, z: real)

  const Identity := Quat(1.0, 0.0, 0.0, 0.0)

  /** `from_axis_angle`: cos of the half angle, and the axis scaled by its sine. */
  function FromAxisAngle(axis: Vec3, angle: real, n: Numerics): Quat {
    var half := angle / 2.0;
    var s := n.sin(half);
    Quat(n.cos(half), axis.x * s, axis.y * s, axis.z * s)
  }

  /** The Hamilton product `self * other`. */
  function Mul(a: Quat, b: Quat): Quat {
    Quat(a.w * b.w - a.x * b.x - a.y * b.y - a.z * b.z,
         a.w * b.x + a.x * b.w + a.y * b.z - a.z * b.y,
         a.w * b.y - a.x * b.z + a.y * b.w + a.z * b.x,
         a.w * b.z + a.x * b.y - a.y * b.x + a.z * b.w)
  }

  function Conjugate(q: Quat): Quat { Quat(q.w, -q.x, -q.y, -q.z) }

  /** The pure quaternion (0, v) that `transform_vector` builds from a vector. */
  function Pure(v: Vec3): Quat { Quat(0.0, v.x, v.y, v.z) }

  function VectorPart(q: Quat): Vec3 { Vec3(q.x, q.y, q.z) }

  function QNormSq(q: Quat): real { q.w * q.w + q.x * q.x + q.y * q.y + q.z * q.z }

  predicate IsUnit(q: Quat) { QNormSq(q) == 1.0 }

  /** The full product `self * q_vector * q_conjugate`, evaluated left to right. */
  function Sandwich(q: Quat, v: Vec3): Quat { Mul(Mul(q, Pure(v)), Conjugate(q)) }

  /** `transform_vector`: the vector part of q (0, v) q*. */
  function TransformVector(q: Quat, v: Vec3): Vec3 { VectorPart(Sandwich(q, v)) }

  /**
   * The textbook rotation formula for q (0, v) q*, valid for every q: the
   * reference against which `transform_vector` and `to_matrix3d` are checked.
   */
  function Rotated(q: Quat, v: Vec3): Vec3 {
    Vec3((q.w * q.w + q.x * q.x - q.y * q.y - q.z * q.z) * v.x + 2.0 * (q.x * q.y - q.w * q.z) * v.y + 2.0 * (q.x * q.z + q.w * q.y) * v.z,
         2.0 * (q.x * q.y + q.w * q.z) * v.x + (q.w * q.w - q.x * q.x + q.y * q.y - q.z * q.z) * v.y + 2.0 * (q.y * q.z - q.w * q.x) * v.z,
         2.0 * (q.x * q.z - q.w * q.y) * v.x + 2.0 * (q.y * q.z + q.w * q.x) * v.y + (q.w * q.w - q.x * q.x - q.y * q.y + q.z * q.z) * v.z)
  }

  /** The same rotation as a row-major 4x4 matrix, valid for every q. */
  function RotationMatrix(q: Quat): seq<real> {
    var w, x, y, z := q.w, q.x, q.y, q.z;
    [w * w + x * x - y * y - z * z, 2.0 * (x * y - w * z), 2.0 * (x * z + w * y), 0.0,
     2.0 * (x * y + w * z), w * w - x * x + y * y - z * z, 2.0 * (y * z - w * x), 0.0,
     2.0 * (x * z - w * y), 2.0 * (y * z + w * x), w * w - x * x - y * y + z * z, 0.0,
     0.0, 0.0, 0.0, 1.0]
  }

  /** `to_matrix3d`: a row-major 4x4 matrix as a flat list of 16 entries. */
  function ToMatrix3d(q: Quat): seq<real> {
    var xx, yy, zz := q.x * q.x, q.y * q.y, q.z * q.z;
    var xy, xz, yz := q.x * q.y, q.x * q.z, q.y * q.z;
    var wx, wy, wz := q.w * q.x, q.w * q.y, q.w * q.z;
    [1.0 - 2.0 * (yy + zz), 2.0 * (xy - wz), 2.0 * (xz + wy), 0.0,
     2.0 * (xy + wz), 1.0 - 2.0 * (xx + zz), 2.0 * (yz - wx), 0.0,
     2.0 * (xz - wy), 2.0 * (yz + wx), 1.0 - 2.0 * (xx + yy), 0.0,
     0.0, 0.0, 0.0, 1.0]
  }

  /** The upper 3x3 block of a row-major 4x4 matrix applied to a column vector. */
  function ApplyMatrix3(m: seq<real>, v: Vec3): Vec3
    requires |m| == 16
  {
    Vec3(m[0] * v.x + m[1] * v.y + m[2] * v.z,
         m[4] * v.x + m[5] * v.y + m[6] * v.z,
         m[8] * v.x + m[9] * v.y + m[10] * v.z)
  }

  // ---------------------------------------------------------------------------
  // Construction from axis and angle

  /** A zero angle gives the identity rotation, whatever the axis. */
  lemma FromAxisAngleZero(axis: Vec3, n: Numerics)
    requires TrigSound(n)
    ensures FromAxisAngle(axis, 0.0, n) == Identity
  {
  }

  /** With a unit axis the result is a unit quaternion. */
  lemma FromAxisAngleIsUnit(axis: Vec3, angle: real, n: Numerics)
    requires TrigSound(n)
    requires NormSq(axis) == 1.0
    ensures IsUnit(FromAxisAngle(axis, angle, n))
  {
    var c, s := n.cos(angle / 2.0), n.sin(angle / 2.0);
    assert c * c + s * s == 1.0;
    var q := FromAxisAngle(axis, angle, n);
    calc {
      QNormSq(q);
      c * c + axis.x * s * (axis.x * s) + axis.y * s * (axis.y * s) + axis.z * s * (axis.z * s);
      c * c + s * s * NormSq(axis);
    }
  }

  // ---------------------------------------------------------------------------
  // The Hamilton product

  /** Turning by the opposite angle is the conjugate rotation. */
  lemma FromAxisAngleNegated(axis: Vec3, angle: real, n: Numerics)
    requires TrigSound(n)
    ensures FromAxisAngle(axis, -angle, n) == Conjugate(FromAxisAngle(axis, angle, n))
  {
    var half := angle / 2.0;
    assert -angle / 2.0 == -half;
    assert n.sin(-half) == -n.sin(half);
    assert n.cos(-half) == n.cos(half);
  }

  lemma MulIdentity(q: Quat)
    ensures Mul(Identity, q) == q && Mul(q, Identity) == q
  {
  }

  /** The product is associative, so `q * v * q*` means the same whichever pair is formed first. */
  lemma MulAssoc(a: Quat, b: Quat, c: Quat)
    ensures Mul(Mul(a, b), c) == Mul(a, Mul(b, c))
  {
    ExpandLeftW(a, b, c);
    ExpandRightW(a, b, c);
    AssociativeFormW(a, b, c);
    ExpandLeftX(a, b, c);
    ExpandRightX(a, b, c);
    AssociativeFormX(a, b, c);
    ExpandLeftY(a, b, c);
    ExpandRightY(a, b, c);
    AssociativeFormY(a, b, c);
    ExpandLeftZ(a, b, c);
    ExpandRightZ(a, b, c);
    AssociativeFormZ(a, b, c);
  }

  /** The norm is multiplicative (Euler's four-square identity). */
  lemma MulNormSq(a: Quat, b: Quat)
    ensures QNormSq(Mul(a, b)) == QNormSq(a) * QNormSq(b)
  {
    ExpandNormSq(a, b);
    FourSquares(a, b);
  }

  /** The product of two unit quaternions is a unit quaternion. */
  lemma MulUnit(a: Quat, b: Quat)
    requires IsUnit(a) && IsUnit(b)
    ensures IsUnit(Mul(a, b))
  {
    MulNormSq(a, b);
  }

  /** q* q and q q* are the real quaternion |q|^2. */
  lemma ConjugateMul(q: Quat)
    ensures Mul(Conjugate(q), q) == Quat(QNormSq(q), 0.0, 0.0, 0.0)
    ensures Mul(q, Conjugate(q)) == Quat(QNormSq(q), 0.0, 0.0, 0.0)
  {
  }

  // ---------------------------------------------------------------------------
  // Rotating a vector

  /**
   * The scalar part of q (0, v) q* is always zero, so `transform_vector`
   * loses nothing by keeping only the vector part; that vector part is the
   * textbook rotation formula.
   */
  lemma SandwichIsPure(q: Quat, v: Vec3)
    ensures Sandwich(q, v) == Pure(TransformVector(q, v))
    ensures TransformVector(q, v) == Rotated(q, v)
  {
    SandwichW(q, v);
    SandwichX(q, v);
    SandwichY(q, v);
    SandwichZ(q, v);
  }

  lemma SandwichW(q: Quat, v: Vec3)
    ensures Sandwich(q, v).w == 0.0
  {
    var p, c := Pure(v), Conjugate(q);
    ExpandLeftW(q, p, c);
    SandwichFormW(q, p, c);
  }

  lemma SandwichX(q: Quat, v: Vec3)
    ensures Sandwich(q, v).x == Rotated(q, v).x
  {
    var p, c := Pure(v), Conjugate(q);
    ExpandLeftX(q, p, c);
    SandwichFormX(q, p, c);
  }

  lemma SandwichY(q: Quat, v: Vec3)
    ensures Sandwich(q, v).y == Rotated(q, v).y
  {
    var p, c := Pure(v), Conjugate(q);
    ExpandLeftY(q, p, c);
    SandwichFormY(q, p, c);
  }

  lemma SandwichZ(q: Quat, v: Vec3)
    ensures Sandwich(q, v).z == Rotated(q, v).z
  {
    var p, c := Pure(v), Conjugate(q);
    ExpandLeftZ(q, p, c);
    SandwichFormZ(q, p, c);
  }

  /** Rotating by the identity changes nothing. */
  lemma TransformIdentity(v: Vec3)
    ensures TransformVector(Identity, v) == v
  {
    MulIdentity(Pure(v));
  }

  /** A unit quaternion preserves the squared length of the vector it rotates. */
  lemma TransformPreservesNorm(q: Quat, v: Vec3)
    requires IsUnit(q)
    ensures NormSq(TransformVector(q, v)) == NormSq(v)
  {
    var p, c := Pure(v), Conjugate(q);
    MulNormSq(q, p);
    MulNormSq(Mul(q, p), c);
    assert QNormSq(c) == 1.0;
    assert QNormSq(Mul(q, p)) == QNormSq(p);
    SandwichIsPure(q, v);
  }

  /** Rotating by q and then by its conjugate gives back the vector, for a unit q. */
  lemma TransformRoundTrip(q: Quat, v: Vec3)
    requires IsUnit(q)
    ensures TransformVector(Conjugate(q), TransformVector(q, v)) == v
  {
    var p, c := Pure(v), Conjugate(q);
    var s := Sandwich(q, v);
    SandwichIsPure(q, v);
    assert Conjugate(c) == q;
    ConjugateMul(q);
    calc {
      Sandwich(c, TransformVector(q, v));
      Mul(Mul(c, s), q);
      { MulAssoc(c, Mul(q, p), c); }
      Mul(Mul(Mul(c, Mul(q, p)), c), q);
      { MulAssoc(c, q, p); }
      Mul(Mul(Mul(Mul(c, q), p), c), q);
      { MulIdentity(p); }
      Mul(Mul(p, c), q);
      { MulAssoc(p, c, q); }
      Mul(p, Mul(c, q));
      { MulIdentity(p); }
      p;
    }
  }

  // ---------------------------------------------------------------------------
  // The matrix form

  /** The last row and the last column of `to_matrix3d` are those of a pure rotation. */
  lemma MatrixIsAffineRotation(q: Quat)
    ensures |ToMatrix3d(q)| == 16
    ensures ToMatrix3d(q)[3] == 0.0 && ToMatrix3d(q)[7] == 0.0 && ToMatrix3d(q)[11] == 0.0
    ensures ToMatrix3d(q)[12..] == [0.0, 0.0, 0.0, 1.0]
  {
  }

  /** For a unit q the upper 3x3 block of `to_matrix3d` rotates exactly as `transform_vector` does. */
  lemma MatrixAgreesWithTransform(q: Quat, v: Vec3)
    requires IsUnit(q)
    ensures ApplyMatrix3(ToMatrix3d(q), v) == TransformVector(q, v)
  {
    SandwichIsPure(q, v);
    UnitMatrix(q);
    ApplyRotationMatrix(q, v);
  }

  /** For a unit q, `to_matrix3d` is the general rotation matrix: only |q| = 1 was used to simplify the diagonal. */
  lemma UnitMatrix(q: Quat)
    requires IsUnit(q)
    ensures ToMatrix3d(q) == RotationMatrix(q)
  {
  }

  lemma ApplyRotationMatrix(q: Quat, v: Vec3)
    ensures ApplyMatrix3(RotationMatrix(q), v) == Rotated(q, v)
  {
  }

  // ---------------------------------------------------------------------------
  // Polynomial expansions used by the proofs above. Each Expand lemma unfolds a
  // nested product; each Form lemma is a polynomial identity on the components.

  lemma ExpandLeftW(a: Quat, b: Quat, c: Quat)
    ensures Mul(Mul(a, b), c).w
         == (a.w * b.w - a.x * b.x - a.y * b.y - a.z * b.z) * c.w - (a.w * b.x + a.x * b.w + a.y * b.z - a.z * b.y) * c.x
          - (a.w * b.y - a.x * b.z + a.y * b.w + a.z * b.x) * c.y - (a.w * b.z + a.x * b.y - a.y * b.x + a.z * b.w) * c.z
  {
  }

  lemma ExpandLeftX(a: Quat, b: Quat, c: Quat)
    ensures Mul(Mul(a, b), c).x
         == (a.w * b.w - a.x * b.x - a.y * b.y - a.z * b.z) * c.x + (a.w * b.x + a.x * b.w + a.y * b.z - a.z * b.y) * c.w
          + (a.w * b.y - a.x * b.z + a.y * b.w + a.z * b.x) * c.z - (a.w * b.z + a.x * b.y - a.y * b.x + a.z * b.w) * c.y
  {
  }

  lemma ExpandLeftY(a: Quat, b: Quat, c: Quat)
    ensures Mul(Mul(a, b), c).y
         == (a.w * b.w - a.x * b.x - a.y * b.y - a.z * b.z) * c.y - (a.w * b.x + a.x * b.w + a.y * b.z - a.z * b.y) * c.z
          + (a.w * b.y - a.x * b.z + a.y * b.w + a.z * b.x) * c.w + (a.w * b.z + a.x * b.y - a.y * b.x + a.z * b.w) * c.x
  {
  }

  lemma ExpandLeftZ(a: Quat, b: Quat, c: Quat)
    ensures Mul(Mul(a, b), c).z
         == (a.w * b.w - a.x * b.x - a.y * b.y - a.z * b.z) * c.z + (a.w * b.x + a.x * b.w + a.y * b.z - a.z * b.y) * c.y
          - (a.w * b.y - a.x * b.z + a.y * b.w + a.z * b.x) * c.x + (a.w * b.z + a.x * b.y - a.y * b.x + a.z * b.w) * c.w
  {
  }

  lemma ExpandRightW(a: Quat, b: Quat, c: Quat)
    ensures Mul(a, Mul(b, c)).w
         == a.w * (b.w * c.w - b.x * c.x - b.y * c.y - b.z * c.z) - a.x * (b.w * c.x + b.x * c.w + b.y * c.z - b.z * c.y)
          - a.y * (b.w * c.y - b.x * c.z + b.y * c.w + b.z * c.x) - a.z * (b.w * c.z + b.x * c.y - b.y * c.x + b.z * c.w)
  {
  }

  lemma ExpandRightX(a: Quat, b: Quat, c: Quat)
    ensures Mul(a, Mul(b, c)).x
         == a.w * (b.w * c.x + b.x * c.w + b.y * c.z - b.z * c.y) + a.x * (b.w * c.w - b.x * c.x - b.y * c.y - b.z * c.z)
          + a.y * (b.w * c.z + b.x * c.y - b.y * c.x + b.z * c.w) - a.z * (b.w * c.y - b.x * c.z + b.y * c.w + b.z * c.x)
  {
  }

  lemma ExpandRightY(a: Quat, b: Quat, c: Quat)
    ensures Mul(a, Mul(b, c)).y
         == a.w * (b.w * c.y - b.x * c.z + b.y * c.w + b.z * c.x) - a.x * (b.w * c.z + b.x * c.y - b.y * c.x + b.z * c.w)
          + a.y * (b.w * c.w - b.x * c.x - b.y * c.y - b.z * c.z) + a.z * (b.w * c.x + b.x * c.w + b.y * c.z - b.z * c.y)
  {
  }

  lemma ExpandRightZ(a: Quat, b: Quat, c: Quat)
    ensures Mul(a, Mul(b, c)).z
         == a.w * (b.w * c.z + b.x * c.y - b.y * c.x + b.z * c.w) + a.x * (b.w * c.y - b.x * c.z + b.y * c.w + b.z * c.x)
          - a.y * (b.w * c.x + b.x * c.w + b.y * c.z - b.z * c.y) + a.z * (b.w * c.w - b.x * c.x - b.y * c.y - b.z * c.z)
  {
  }

  lemma AssociativeFormW(a: Quat, b: Quat, c: Quat)
    ensures (a.w * b.w - a.x * b.x - a.y * b.y - a.z * b.z) * c.w - (a.w * b.x + a.x * b.w + a.y * b.z - a.z * b.y) * c.x
            - (a.w * b.y - a.x * b.z + a.y * b.w + a.z * b.x) * c.y - (a.w * b.z + a.x * b.y - a.y * b.x + a.z * b.w) * c.z
         == a.w * (b.w * c.w - b.x * c.x - b.y * c.y - b.z * c.z) - a.x * (b.w * c.x + b.x * c.w + b.y * c.z - b.z * c.y)
            - a.y * (b.w * c.y - b.x * c.z + b.y * c.w + b.z * c.x) - a.z * (b.w * c.z + b.x * c.y - b.y * c.x + b.z * c.w)
  {
  }

  lemma AssociativeFormX(a: Quat, b: Quat, c: Quat)
    ensures (a.w * b.w - a.x * b.x - a.y * b.y - a.z * b.z) * c.x + (a.w * b.x + a.x * b.w + a.y * b.z - a.z * b.y) * c.w
            + (a.w * b.y - a.x * b.z + a.y * b.w + a.z * b.x) * c.z - (a.w * b.z + a.x * b.y - a.y * b.x + a.z * b.w) * c.y
         == a.w * (b.w * c.x + b.x * c.w + b.y * c.z - b.z * c.y) + a.x * (b.w * c.w - b.x * c.x - b.y * c.y - b.z * c.z)
            + a.y * (b.w * c.z + b.x * c.y - b.y * c.x + b.z * c.w) - a.z * (b.w * c.y - b.x * c.z + b.y * c.w + b.z * c.x)
  {
  }

  lemma AssociativeFormY(a: Quat, b: Quat, c: Quat)
    ensures (a.w * b.w - a.x * b.x - a.y * b.y - a.z * b.z) * c.y - (a.w * b.x + a.x * b.w + a.y * b.z - a.z * b.y) * c.z
            + (a.w * b.y - a.x * b.z + a.y * b.w + a.z * b.x) * c.w + (a.w * b.z + a.x * b.y - a.y * b.x + a.z * b.w) * c.x
         == a.w * (b.w * c.y - b.x * c.z + b.y * c.w + b.z * c.x) - a.x * (b.w * c.z + b.x * c.y - b.y * c.x + b.z * c.w)
            + a.y * (b.w * c.w - b.x * c.x - b.y * c.y - b.z * c.z) + a.z * (b.w * c.x + b.x * c.w + b.y * c.z - b.z * c.y)
  {
  }

  lemma AssociativeFormZ(a: Quat, b: Quat, c: Quat)
    ensures (a.w * b.w - a.x * b.x - a.y * b.y - a.z * b.z) * c.z + (a.w * b.x + a.x * b.w + a.y * b.z - a.z * b.y) * c.y
            - (a.w * b.y - a.x * b.z + a.y * b.w + a.z * b.x) * c.x + (a.w * b.z + a.x * b.y - a.y * b.x + a.z * b.w) * c.w
         == a.w * (b.w * c.z + b.x * c.y - b.y * c.x + b.z * c.w) + a.x * (b.w * c.y - b.x * c.z + b.y * c.w + b.z * c.x)
            - a.y * (b.w * c.x + b.x * c.w + b.y * c.z - b.z * c.y) + a.z * (b.w * c.w - b.x * c.x - b.y * c.y - b.z * c.z)
  {
  }

  lemma SandwichFormW(a: Quat, b: Quat, c: Quat)
    requires b.w == 0.0 && c == Conjugate(a)
    ensures (a.w * b.w - a.x * b.x - a.y * b.y - a.z * b.z) * c.w - (a.w * b.x + a.x * b.w + a.y * b.z - a.z * b.y) * c.x
            - (a.w * b.y - a.x * b.z + a.y * b.w + a.z * b.x) * c.y - (a.w * b.z + a.x * b.y - a.y * b.x + a.z * b.w) * c.z == 0.0
  {
  }

  lemma SandwichFormX(a: Quat, b: Quat, c: Quat)
    requires b.w == 0.0 && c == Conjugate(a)
    ensures (a.w * b.w - a.x * b.x - a.y * b.y - a.z * b.z) * c.x + (a.w * b.x + a.x * b.w + a.y * b.z - a.z * b.y) * c.w
            + (a.w * b.y - a.x * b.z + a.y * b.w + a.z * b.x) * c.z - (a.w * b.z + a.x * b.y - a.y * b.x + a.z * b.w) * c.y
         == (a.w * a.w + a.x * a.x - a.y * a.y - a.z * a.z) * b.x + 2.0 * (a.x * a.y - a.w * a.z) * b.y + 2.0 * (a.x * a.z + a.w * a.y) * b.z
  {
  }

  lemma SandwichFormY(a: Quat, b: Quat, c: Quat)
    requires b.w == 0.0 && c == Conjugate(a)
    ensures (a.w * b.w - a.x * b.x - a.y * b.y - a.z * b.z) * c.y - (a.w * b.x + a.x * b.w + a.y * b.z - a.z * b.y) * c.z
            + (a.w * b.y - a.x * b.z + a.y * b.w + a.z * b.x) * c.w + (a.w * b.z + a.x * b.y - a.y * b.x + a.z * b.w) * c.x
         == 2.0 * (a.x * a.y + a.w * a.z) * b.x + (a.w * a.w - a.x * a.x + a.y * a.y - a.z * a.z) * b.y + 2.0 * (a.y * a.z - a.w * a.x) * b.z
  {
  }

  lemma SandwichFormZ(a: Quat, b: Quat, c: Quat)
    requires b.w == 0.0 && c == Conjugate(a)
    ensures (a.w * b.w - a.x * b.x - a.y * b.y - a.z * b.z) * c.z + (a.w * b.x + a.x * b.w + a.y * b.z - a.z * b.y) * c.y
            - (a.w * b.y - a.x * b.z + a.y * b.w + a.z * b.x) * c.x + (a.w * b.z + a.x * b.y - a.y * b.x + a.z * b.w) * c.w
         == 2.0 * (a.x * a.z - a.w * a.y) * b.x + 2.0 * (a.y * a.z + a.w * a.x) * b.y + (a.w * a.w - a.x * a.x - a.y * a.y + a.z * a.z) * b.z
  {
  }

  lemma ExpandNormSq(a: Quat, b: Quat)
    ensures QNormSq(Mul(a, b))
         == (a.w * b.w - a.x * b.x - a.y * b.y - a.z * b.z) * (a.w * b.w - a.x * b.x - a.y * b.y - a.z * b.z)
          + (a.w * b.x + a.x * b.w + a.y * b.z - a.z * b.y) * (a.w * b.x + a.x * b.w + a.y * b.z - a.z * b.y)
          + (a.w * b.y - a.x * b.z + a.y * b.w + a.z * b.x) * (a.w * b.y - a.x * b.z + a.y * b.w + a.z * b.x)
          + (a.w * b.z + a.x * b.y - a.y * b.x + a.z * b.w) * (a.w * b.z + a.x * b.y - a.y * b.x + a.z * b.w)
  {
  }

  lemma FourSquares(a: Quat, b: Quat)
    ensures (a.w * b.w - a.x * b.x - a.y * b.y - a.z * b.z) * (a.w * b.w - a.x * b.x - a.y * b.y - a.z * b.z)
          + (a.w * b.x + a.x * b.w + a.y * b.z - a.z * b.y) * (a.w * b.x + a.x * b.w + a.y * b.z - a.z * b.y)
          + (a.w * b.y - a.x * b.z + a.y * b.w + a.z * b.x) * (a.w * b.y - a.x * b.z + a.y * b.w + a.z * b.x)
          + (a.w * b.z + a.x * b.y - a.y * b.x + a.z * b.w) * (a.w * b.z + a.x * b.y - a.y * b.x + a.z * b.w)
         == QNormSq(a) * QNormSq(b)
  {
  }
}
