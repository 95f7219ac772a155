/**
 * Three-component vectors and points over the reals (the host's Vector3D and
 * Point3D), and the numeric primitives the add-in borrows from Python's math
 * module. Square root, sine, cosine and power are not definable over the
 * reals here, so the caller supplies them in a `Numerics` value; the ghost
 * predicates below state the few facts the proofs rely on.
 */
module Vectors {

  datatype Vec3 = Vec3(x: real, y: real, z: real)

  const Zero := Vec3(0.0, 0.0, 0.0)
  const XAxis := Vec3(1.0, 0.0, 0.0)
  const YAxis := Vec3(0.0, 1.0, 0.0)
  const ZAxis := Vec3(0.0, 0.0, 1.0)

  /** The double closest to pi, the value of `math.pi`. */
  const PI: real := 3.141592653589793

  function Abs(r: real): real { if r < 0.0 then -r else r }

  function Add(a: Vec3, b: Vec3): Vec3 { Vec3(a.x + b.x, a.y + b.y, a.z + b.z) }

  /** `Sub(p, q)` is the host's `q.vectorTo(p)`. */
  function Sub(a: Vec3, b: Vec3): Vec3 { Vec3(a.x - b.x, a.y - b.y, a.z - b.z) }

  function Scale(k: real, a: Vec3): Vec3 { Vec3(k * a.x, k * a.y, k * a.z) }

  function Dot(a: Vec3, b: Vec3): real { a.x * b.x + a.y * b.y + a.z * b.z }

  function Cross(a: Vec3, b: Vec3): Vec3 {
    Vec3(a.y * b.z - a.z * b.y, a.z * b.x - a.x * b.z, a.x * b.y - a.y * b.x)
  }

  function NormSq(a: Vec3): real { Dot(a, a) }

  /** `math.radians`. */
  function Radians(degrees: real): real { degrees * PI / 180.0 }

  /** The numeric primitives of the host language, supplied by the caller. */
  datatype Numerics = Numerics(
    sqrt: real -> real,
    sin: real -> real,
    cos: real -> real,
    pow: (real, real) -> real)

  ghost predicate SqrtSound(n: Numerics) {
    forall r :: 0.0 <= r ==> 0.0 <= n.sqrt(r) && n.sqrt(r) * n.sqrt(r) == r
  }

  ghost predicate TrigSound(n: Numerics) {
    && n.sin(0.0) == 0.0
    && n.cos(0.0) == 1.0
    && (forall t :: n.sin(t) * n.sin(t) + n.cos(t) * n.cos(t) == 1.0)
    && (forall t :: n.sin(-t) == -n.sin(t))
    && (forall t :: n.cos(-t) == n.cos(t))
  }

  /** `b ** 1 == b`, and a power of a positive base is positive. */
  ghost predicate PowSound(n: Numerics) {
    && (forall b :: 0.0 <= b ==> n.pow(b, 1.0) == b)
    && (forall b, e :: 0.0 < b ==> 0.0 < n.pow(b, e))
  }

  /** The host's `Vector3D.length`. */
  function Length(a: Vec3, n: Numerics): real { n.sqrt(NormSq(a)) }

  /**
   * The host's in-place `Vector3D.normalize()`: divides by the length, and
   * leaves a zero-length vector as it is.
   */
  function Normalize(a: Vec3, n: Numerics): Vec3 {
    var len := Length(a, n);
    if len == 0.0 then a else Scale(1.0 / len, a)
  }

  /** Normalising a vector of nonzero length gives a unit vector. */
  lemma NormalizeIsUnit(a: Vec3, n: Numerics)
    requires SqrtSound(n)
    requires Length(a, n) != 0.0
    ensures NormSq(Normalize(a, n)) == 1.0
  {
    assert 0.0 <= NormSq(a);
    var len := Length(a, n);
    var k := 1.0 / len;
    assert len * len == NormSq(a);
    assert k * k * (len * len) == 1.0;
    calc {
      NormSq(Scale(k, a));
      k * a.x * (k * a.x) + k * a.y * (k * a.y) + k * a.z * (k * a.z);
      k * k * NormSq(a);
    }
  }

  /**
   * A normalised vector has squared length 1, or is the zero vector left as
   * it was.
   */
  lemma NormalizeNormSq(a: Vec3, n: Numerics)
    requires SqrtSound(n)
    ensures NormSq(Normalize(a, n)) == 1.0 || (Normalize(a, n) == a && NormSq(a) == 0.0)
  {
    var len := Length(a, n);
    if len == 0.0 {
      assert len * len == NormSq(a);
    } else {
      NormalizeIsUnit(a, n);
    }
  }

  /** Normalising a unit vector changes nothing. */
  lemma NormalizeUnit(a: Vec3, n: Numerics)
    requires SqrtSound(n) && NormSq(a) == 1.0
    ensures Length(a, n) == 1.0 && Normalize(a, n) == a
  {
    var s := n.sqrt(1.0);
    assert 0.0 <= s && s * s == 1.0;
    assert (s - 1.0) * (s + 1.0) == 0.0;
    assert 0.0 < s + 1.0;
    assert s - 1.0 == 0.0;
  }

  /** A cross product is perpendicular to both of its factors. */
  lemma CrossPerpendicular(a: Vec3, b: Vec3)
    ensures Dot(Cross(a, b), a) == 0.0 && Dot(Cross(a, b), b) == 0.0
  {
  }
}
