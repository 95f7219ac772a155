/**
 * The six ViewCube faces as view directions (the direction from the target
 * to the eye when the camera looks at that face), the nearest-face search
 * with its tie-break, and the "is the camera on a face" test. Both the
 * joystick camera controller and the camera rotation library list the faces
 * in the same order: front, back, left, right, top, bottom.
 */
module ViewCube {
  import opened Vectors
  import opened HostCamera

  const Faces: seq<(Orientation, Vec3)> := [
    (Front, Vec3(0.0, -1.0, 0.0)),
    (Back, Vec3(0.0, 1.0, 0.0)),
    (Left, Vec3(-1.0, 0.0, 0.0)),
    (Right, Vec3(1.0, 0.0, 0.0)),
    (Top, Vec3(0.0, 0.0, 1.0)),
    (Bottom, Vec3(0.0, 0.0, -1.0))]

  /** The default `tolerance` of the controller's on-face test. */
  const FaceTolerance: real := 0.9

  function FaceDot(d: Vec3, i: nat): real
    requires i < |Faces|
  {
    Dot(d, Faces[i].1)
  }

  function Max(a: real, b: real): real { if a < b then b else a }

  function MaxDot(d: Vec3): real {
    Max(Max(Max(FaceDot(d, 0), FaceDot(d, 1)), Max(FaceDot(d, 2), FaceDot(d, 3))),
        Max(FaceDot(d, 4), FaceDot(d, 5)))
  }

  /**
   * Face k is the one the strict-`>` scan picks: no face has a larger dot
   * product, and every earlier face has a strictly smaller one.
   */
  predicate IsNearest(d: Vec3, k: nat) {
    && k < |Faces|
    && (forall j :: 0 <= j < |Faces| ==> FaceDot(d, j) <= FaceDot(d, k))
    && (forall j :: 0 <= j < k ==> FaceDot(d, j) < FaceDot(d, k))
  }

  /** The nearest face: the first face whose dot product is the largest. */
  function NearestIndex(d: Vec3): (k: nat)
    ensures IsNearest(d, k)
  {
    var m := MaxDot(d);
    if FaceDot(d, 0) == m then 0
    else if FaceDot(d, 1) == m then 1
    else if FaceDot(d, 2) == m then 2
    else if FaceDot(d, 3) == m then 3
    else if FaceDot(d, 4) == m then 4
    else 5
  }

  /** At most one face satisfies the tie-break rule. */
  lemma NearestUnique(d: Vec3, k: nat)
    requires IsNearest(d, k)
    ensures k == NearestIndex(d)
  {
    var m := NearestIndex(d);
    assert FaceDot(d, m) <= FaceDot(d, k) && FaceDot(d, k) <= FaceDot(d, m);
  }

  /**
   * The loop of `_move_to_nearest_viewcube_face`: a running maximum that
   * starts at -2 with the front face as default and is replaced only on a
   * strictly larger dot product.
   */
  method NearestFace(d: Vec3) returns (face: Orientation, best: real)
    ensures face == Faces[NearestIndex(d)].0
    ensures best == FaceDot(d, NearestIndex(d))
  {
    best := -2.0;
    face := Front;
    ghost var k := 0;
    var i := 0;
    while i < |Faces|
      invariant 0 <= i <= |Faces| && 0 <= k < |Faces|
      invariant face == Faces[k].0
      invariant forall j :: 0 <= j < i ==> FaceDot(d, j) <= best
      invariant (best == -2.0 && k == 0) || (k < i && best == FaceDot(d, k) && forall j :: 0 <= j < k ==> FaceDot(d, j) < best)
    {
      var dot := Dot(d, Faces[i].1);
      if dot > best {
        best := dot;
        face := Faces[i].0;
        k := i;
      }
      i := i + 1;
    }
    assert Faces[0].1 == Vec3(0.0, -1.0, 0.0) && Faces[1].1 == Vec3(0.0, 1.0, 0.0);
    assert FaceDot(d, 0) == -d.y && FaceDot(d, 1) == d.y;
    assert IsNearest(d, k);
    NearestUnique(d, k);
  }

  /** Some face direction is within the tolerance of the view direction. */
  predicate OnFace(d: Vec3, tolerance: real) {
    exists j :: 0 <= j < |Faces| && FaceDot(d, j) > tolerance
  }

  /**
   * The loop of the controller's `_is_on_viewcube_face`: true as soon as one
   * face's dot product exceeds the tolerance.
   */
  method IsOnFace(d: Vec3, tolerance: real) returns (on: bool)
    ensures on <==> OnFace(d, tolerance)
  {
    var i := 0;
    while i < |Faces|
      invariant 0 <= i <= |Faces|
      invariant forall j :: 0 <= j < i ==> FaceDot(d, j) <= tolerance
    {
      if Dot(d, Faces[i].1) > tolerance {
        assert FaceDot(d, i) > tolerance;
        return true;
      }
      i := i + 1;
    }
    return false;
  }

  lemma SquareAbove(d: Vec3)
    ensures Abs(d.x) > 0.9 ==> d.x * d.x > 0.81
    ensures Abs(d.y) > 0.9 ==> d.y * d.y > 0.81
    ensures Abs(d.z) > 0.9 ==> d.z * d.z > 0.81
    ensures d.x * d.x >= 0.0 && d.y * d.y >= 0.0 && d.z * d.z >= 0.0
  {
  }

  /** For a direction of length at most 1, at most one face is within tolerance. */
  lemma AtMostOneFace(d: Vec3, i: nat, j: nat)
    requires NormSq(d) <= 1.0
    requires i < |Faces| && j < |Faces| && i != j
    ensures !(FaceDot(d, i) > FaceTolerance && FaceDot(d, j) > FaceTolerance)
  {
    SquareAbove(d);
  }

  /** A camera on a face (for the controller's test) snaps back to that same face. */
  lemma OnFaceIsNearest(d: Vec3, j: nat)
    requires NormSq(d) <= 1.0
    requires j < |Faces| && FaceDot(d, j) > FaceTolerance
    ensures NearestIndex(d) == j
  {
    forall i | 0 <= i < |Faces| && i != j
      ensures FaceDot(d, i) < FaceDot(d, j)
    {
      AtMostOneFace(d, i, j);
    }
    assert IsNearest(d, j);
    NearestUnique(d, j);
  }
}
