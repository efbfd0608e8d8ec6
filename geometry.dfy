// Sensor geometry of the event display: the bounding box of the sensor positions, the
// classification of a sensor onto one of the six faces of that box, and the face-local
// frame and projection used to draw each face.
module Geometry {
  import opened Wrappers

  datatype Vec3 = Vec3(x: real, y: real, z: real)

  /** The six faces, in the order of the enum and of the classification chain. */
  datatype Face = ZP | ZM | XP | XM | YP | YM

  /** The enum value of each face. */
  function FaceIndex(f: Face): (i: nat)
    ensures i < 6
  {
    match f
    case ZP => 0
    case ZM => 1
    case XP => 2
    case XM => 3
    case YP => 4
    case YM => 5
  }

  function FaceAt(i: nat): (f: Face)
    requires i < 6
    ensures FaceIndex(f) == i
  {
    if i == 0 then ZP else if i == 1 then ZM else if i == 2 then XP
    else if i == 3 then XM else if i == 4 then YP else YM
  }

  /** The axis-aligned box [xmin, xmax] x [ymin, ymax] x [zmin, zmax]. */
  datatype Bounds = Bounds(xmin: real, xmax: real, ymin: real, ymax: real, zmin: real, zmax: real)

  predicate Inside(v: Vec3, b: Bounds) {
    b.xmin <= v.x <= b.xmax && b.ymin <= v.y <= b.ymax && b.zmin <= v.z <= b.zmax
  }

  // ---------------------------------------------------------------------------
  // Bounding box

  function Min(a: real, b: real): real {
    if b < a then b else a
  }

  function Max(a: real, b: real): real {
    if a < b then b else a
  }

  /** The box of a single point. */
  function PointBox(v: Vec3): Bounds {
    Bounds(v.x, v.x, v.y, v.y, v.z, v.z)
  }

  /** The box widened to take in v, axis by axis with min and max. */
  function Extend(b: Bounds, v: Vec3): Bounds {
    Bounds(Min(b.xmin, v.x), Max(b.xmax, v.x), Min(b.ymin, v.y), Max(b.ymax, v.y),
           Min(b.zmin, v.z), Max(b.zmax, v.z))
  }

  /** The running bounding box of a non-empty list: the first point's box, then extended by each next one. */
  function BoxOf(ps: seq<Vec3>): Bounds
    requires |ps| > 0
    decreases |ps|
  {
    if |ps| == 1 then PointBox(ps[0]) else Extend(BoxOf(ps[..|ps| - 1]), ps[|ps| - 1])
  }

  /** Every point lies inside the running box. */
  lemma {:induction false} BoxOfContains(ps: seq<Vec3>)
    requires |ps| > 0
    ensures forall i :: 0 <= i < |ps| ==> Inside(ps[i], BoxOf(ps))
    decreases |ps|
  {
    if |ps| > 1 {
      var n := |ps| - 1;
      BoxOfContains(ps[..n]);
      forall i | 0 <= i < n
        ensures Inside(ps[i], BoxOf(ps))
      {
        assert ps[i] == ps[..n][i];
      }
    }
  }

  /** Each of the six bounds is attained by some point, so the box is the smallest one containing them. */
  lemma {:induction false} BoxOfTight(ps: seq<Vec3>)
    requires |ps| > 0
    ensures var b := BoxOf(ps);
      && (exists i :: 0 <= i < |ps| && ps[i].x == b.xmin)
      && (exists i :: 0 <= i < |ps| && ps[i].x == b.xmax)
      && (exists i :: 0 <= i < |ps| && ps[i].y == b.ymin)
      && (exists i :: 0 <= i < |ps| && ps[i].y == b.ymax)
      && (exists i :: 0 <= i < |ps| && ps[i].z == b.zmin)
      && (exists i :: 0 <= i < |ps| && ps[i].z == b.zmax)
    decreases |ps|
  {
    if |ps| == 1 {
      assert ps[0].x == BoxOf(ps).xmin;
    } else {
      var n := |ps| - 1;
      var b0 := BoxOf(ps[..n]);
      var b := BoxOf(ps);
      BoxOfTight(ps[..n]);
      var i1 :| 0 <= i1 < n && ps[..n][i1].x == b0.xmin;
      var i2 :| 0 <= i2 < n && ps[..n][i2].x == b0.xmax;
      var i3 :| 0 <= i3 < n && ps[..n][i3].y == b0.ymin;
      var i4 :| 0 <= i4 < n && ps[..n][i4].y == b0.ymax;
      var i5 :| 0 <= i5 < n && ps[..n][i5].z == b0.zmin;
      var i6 :| 0 <= i6 < n && ps[..n][i6].z == b0.zmax;
      assert ps[if b.xmin == ps[n].x then n else i1].x == b.xmin;
      assert ps[if b.xmax == ps[n].x then n else i2].x == b.xmax;
      assert ps[if b.ymin == ps[n].y then n else i3].y == b.ymin;
      assert ps[if b.ymax == ps[n].y then n else i4].y == b.ymax;
      assert ps[if b.zmin == ps[n].z then n else i5].z == b.zmin;
      assert ps[if b.zmax == ps[n].z then n else i6].z == b.zmax;
    }
  }

  // ---------------------------------------------------------------------------
  // Face classification

  function Abs(a: real): real {
    if a < 0.0 then -a else a
  }

  /** `std::max(1e-3 * (hi - lo), 1e-6)`. */
  function Tolerance(lo: real, hi: real): (tol: real)
    ensures tol >= 0.000001 && tol >= 0.001 * (hi - lo)
    ensures tol == 0.001 * (hi - lo) || tol == 0.000001
  {
    if 0.001 * (hi - lo) < 0.000001 then 0.000001 else 0.001 * (hi - lo)
  }

  /** `fabs(a - target) <= tol`. */
  predicate Near(a: real, target: real, tol: real) {
    Abs(a - target) <= tol
  }

  /** The test that puts a sensor onto face f, on its own. */
  predicate OnFace(v: Vec3, b: Bounds, f: Face) {
    match f
    case ZP => Near(v.z, b.zmax, Tolerance(b.zmin, b.zmax))
    case ZM => Near(v.z, b.zmin, Tolerance(b.zmin, b.zmax))
    case XP => Near(v.x, b.xmax, Tolerance(b.xmin, b.xmax))
    case XM => Near(v.x, b.xmin, Tolerance(b.xmin, b.xmax))
    case YP => Near(v.y, b.ymax, Tolerance(b.ymin, b.ymax))
    case YM => Near(v.y, b.ymin, Tolerance(b.ymin, b.ymax))
  }

  /** The if / else-if chain of the classifier: the first face whose test matches, if any. */
  function Classify(v: Vec3, b: Bounds): Option<Face> {
    var tx := Tolerance(b.xmin, b.xmax);
    var ty := Tolerance(b.ymin, b.ymax);
    var tz := Tolerance(b.zmin, b.zmax);
    if Near(v.z, b.zmax, tz) then Some(ZP)
    else if Near(v.z, b.zmin, tz) then Some(ZM)
    else if Near(v.x, b.xmax, tx) then Some(XP)
    else if Near(v.x, b.xmin, tx) then Some(XM)
    else if Near(v.y, b.ymax, ty) then Some(YP)
    else if Near(v.y, b.ymin, ty) then Some(YM)
    else None
  }

  /** A sensor lands on face f exactly when f's test matches and no earlier face's test does;
      it lands on no face exactly when no test matches. */
  lemma ClassifyFirstMatch(v: Vec3, b: Bounds, f: Face)
    ensures Classify(v, b) == Some(f) <==>
      OnFace(v, b, f) && forall g: Face :: FaceIndex(g) < FaceIndex(f) ==> !OnFace(v, b, g)
    ensures Classify(v, b) == None <==> forall g: Face :: !OnFace(v, b, g)
  {
    if Classify(v, b) == None {
      forall g: Face
        ensures !OnFace(v, b, g)
      {
      }
    } else {
      var h := Classify(v, b).value;
      assert OnFace(v, b, h);
    }
    if OnFace(v, b, f) && forall g: Face :: FaceIndex(g) < FaceIndex(f) ==> !OnFace(v, b, g) {
      assert !OnFace(v, b, FaceAt(0)) || f == ZP;
      assert FaceIndex(f) <= 1 || !OnFace(v, b, ZM);
      assert FaceIndex(f) <= 2 || !OnFace(v, b, XP);
      assert FaceIndex(f) <= 3 || !OnFace(v, b, XM);
      assert FaceIndex(f) <= 4 || !OnFace(v, b, YP);
    }
  }

  /** A sensor on the top plane, in particular one at the maximum of all three axes, lands on +Z. */
  lemma TopCornerIsZP(v: Vec3, b: Bounds)
    requires v.z == b.zmax
    ensures Classify(v, b) == Some(ZP)
  {
  }

  /** A sensor strictly inside the box by more than the tolerance on every axis lands on no face. */
  lemma InteriorIsUnassigned(v: Vec3, b: Bounds)
    requires b.xmin + Tolerance(b.xmin, b.xmax) < v.x < b.xmax - Tolerance(b.xmin, b.xmax)
    requires b.ymin + Tolerance(b.ymin, b.ymax) < v.y < b.ymax - Tolerance(b.ymin, b.ymax)
    requires b.zmin + Tolerance(b.zmin, b.zmax) < v.z < b.zmax - Tolerance(b.zmin, b.zmax)
    ensures Classify(v, b) == None
  {
  }

  // ---------------------------------------------------------------------------
  // Face frames

  /** The histogram frame of a face: bins and range on each face-local axis. */
  datatype Frame = Frame(nbx: int, axmin: real, axmax: real, nby: int, aymin: real, aymax: real)

  /** Y faces span (x, z) with 56 x 50 bins, X faces (y, z) with 194 x 50, Z faces (y, x) with 194 x 56. */
  function FrameOf(f: Face, b: Bounds): Frame {
    if f == YP || f == YM then Frame(56, b.xmin, b.xmax, 50, b.zmin, b.zmax)
    else if f == XP || f == XM then Frame(194, b.ymin, b.ymax, 50, b.zmin, b.zmax)
    else Frame(194, b.ymin, b.ymax, 56, b.xmin, b.xmax)
  }

  /** The face-local coordinates of a sensor: Z faces (y, x), X faces (y, z), Y faces (x, z). */
  function Project(f: Face, v: Vec3): (real, real) {
    if f == ZP || f == ZM then (v.y, v.x)
    else if f == XP || f == XM then (v.y, v.z)
    else (v.x, v.z)
  }

  /** Each face projects onto the same axis pair its frame spans, so a sensor inside the box
      is drawn inside the frame of every face. */
  lemma ProjectionInFrame(f: Face, v: Vec3, b: Bounds)
    requires Inside(v, b)
    ensures var fr := FrameOf(f, b); var p := Project(f, v);
      fr.axmin <= p.0 <= fr.axmax && fr.aymin <= p.1 <= fr.aymax
  {
  }
}
