/**
 * Surfaces of the geometry model: the factory that turns a surface designator
 * (kind word and parameter list) into one of six analytic variants, the
 * per-variant coincidence test, and the construction of the replace map that
 * de-duplicates coincident surfaces.
 *
 * A surface is an object whose equality and hash are its identity, so it is a
 * Dafny class: two surfaces built from the same parameters are still different
 * surfaces. Vectors and matrices are the numpy arrays of the source, as
 * sequences of reals.
 */
module Surfaces {
  import opened Wrappers
  import opened Text

  type Vector = seq<real>

  datatype Axis = X | Y | Z

  /** EX, EY, EZ. */
  function AxisVector(a: Axis): (v: Vector)
    ensures |v| == 3
  {
    match a
    case X => [1.0, 0.0, 0.0]
    case Y => [0.0, 1.0, 0.0]
    case Z => [0.0, 0.0, 1.0]
  }

  function Scale(v: Vector, x: real): (r: Vector)
    ensures |r| == |v|
  {
    seq(|v|, i requires 0 <= i < |v| => v[i] * x)
  }

  function Abs(x: real): (r: real)
    ensures r >= 0.0 && (r == x || r == -x)
  {
    if x < 0.0 then -x else x
  }

  function Max(x: real, y: real): real
  {
    if x < y then y else x
  }

  /** `int(x)`: truncation toward zero. */
  function Trunc(x: real): int
  {
    if x >= 0.0 then x.Floor else -((-x).Floor)
  }

  /**
   * The six analytic variants with their parameterisation. The cone keeps
   * the square of its half-angle tangent, as the geometry primitive does.
   */
  datatype Shape =
    | Plane(normal: Vector, offset: real)
    | Sphere(center: Vector, radius: real)
    | Cylinder(point: Vector, axis: Vector, radius: real)
    | Cone(apex: Vector, axis: Vector, t2: real, sheet: int)
    | GQuadratic(m: seq<seq<real>>, v: Vector, k: real)
    | Torus(center: Vector, axis: Vector, majorRadius: real, a: real, b: real)

  /**
   * The exceptions the factory can raise: a parameter or kind index out of
   * range, a wrong number of values to unpack or an invalid argument, the
   * local `axis` read before it was bound, a division by zero, and a form
   * that is not implemented.
   */
  datatype Error = IndexError | ValueError | UnboundAxis | ZeroDivision | NotImplemented

  /** What the factory gives back: a surface, Python's None, or an exception. */
  datatype Created = Made(shape: Shape) | NoSurface | Raised(error: Error)

  /** The axis named by the last letter of an upper-cased kind word. */
  function AxisOf(kind: string): (a: Option<Axis>)
    requires kind != []
    ensures a.Some? <==> kind[|kind| - 1] in "XYZ"
  {
    match kind[|kind| - 1]
    case 'X' => Some(X)
    case 'Y' => Some(Y)
    case 'Z' => Some(Z)
    case _ => None
  }

  /**
   * The point on the axis of a `C/X`, `C/Y` or `C/Z` cylinder, computed as the
   * source does from the complement `A = 1 - axis` of the axis vector.
   */
  function OffAxisPoint(a: Axis, p0: real, p1: real): (r: Vector)
    ensures r == match a
                 case X => [0.0, p0, p1]
                 case Y => [p0, 0.0, p1]
                 case Z => [p0, p1, 0.0]
  {
    var e := AxisVector(a);
    var ax, az := 1.0 - e[0], 1.0 - e[2];
    var r := [p0 * ax, p0 * (1.0 - ax) + p1 * (1.0 - az), p1 * az];
    match a
    case X => assert ax == 0.0 && az == 1.0 && r[0] == 0.0 && r[1] == p0 && r[2] == p1; r
    case Y => assert ax == 1.0 && az == 1.0 && r[0] == p0 && r[1] == 0.0 && r[2] == p1; r
    case Z => assert ax == 1.0 && az == 0.0 && r[0] == p0 && r[1] == p1 && r[2] == 0.0; r
  }

  /** The quadric `A x^2 + ... + k` of a `GQ` card as a symmetric matrix, a vector and a constant. */
  function GqShape(p: seq<real>): Shape
    requires |p| == 10
  {
    GQuadratic([[p[0], 0.5 * p[3], 0.5 * p[5]],
                [0.5 * p[3], p[1], 0.5 * p[4]],
                [0.5 * p[5], 0.5 * p[4], p[2]]],
               [p[6], p[7], p[8]], p[9])
  }

  /** The `SQ` card `A(x-x0)^2 + ... + 2D(x-x0) + ... + G` expanded into quadric form. */
  function SqShape(p: seq<real>): Shape
    requires |p| == 10
  {
    var a, b, c, d, e, f, g, x0, y0, z0 := p[0], p[1], p[2], p[3], p[4], p[5], p[6], p[7], p[8], p[9];
    GQuadratic([[a, 0.0, 0.0], [0.0, b, 0.0], [0.0, 0.0, c]],
               [2.0 * (d - a * x0), 2.0 * (e - b * y0), 2.0 * (f - c * z0)],
               a * x0 * x0 + b * y0 * y0 + c * z0 * z0 - 2.0 * (d * x0 + e * y0 + f * z0) + g)
  }

  /** The ten `GQ` coefficients A..K the card printer writes for a quadric. */
  function GqCoefficients(m: seq<seq<real>>, v: Vector, k: real): seq<real>
    requires |m| == 3 && |m[0]| == 3 && |m[1]| == 3 && |m[2]| == 3 && |v| == 3
  {
    [m[0][0], m[1][1], m[2][2], m[0][1] + m[1][0], m[1][2] + m[2][1], m[0][2] + m[2][0],
     v[0], v[1], v[2], k]
  }

  /** `P`, `PX`, `PY`, `PZ`. */
  function PlaneShape(kind: string, axis: Option<Axis>, params: seq<real>): Created
  {
    if |kind| == 2 then
      if axis.None? then Raised(UnboundAxis)
      else if params == [] then Raised(IndexError)
      else Made(Plane(AxisVector(axis.value), -params[0]))
    else if |params| < 4 then Raised(IndexError)
    else Made(Plane(params[..3], -params[3]))
  }

  /** `S`, `SO`, `SX`, `SY`, `SZ`. */
  function SphereShape(kind: string, axis: Option<Axis>, params: seq<real>): Created
  {
    if kind == "S" then
      if params == [] then Raised(IndexError) else Made(Sphere(Prefix3(params), params[|params| - 1]))
    else if kind == "SO" then
      if params == [] then Raised(IndexError) else Made(Sphere([0.0, 0.0, 0.0], params[|params| - 1]))
    else if axis.None? then Raised(UnboundAxis)
    else if params == [] then Raised(IndexError)
    else Made(Sphere(Scale(AxisVector(axis.value), params[0]), params[|params| - 1]))
  }

  /** `params[:3]`. */
  function Prefix3(params: seq<real>): (r: seq<real>)
    ensures r <= params && |r| <= 3
  {
    if |params| <= 3 then params else params[..3]
  }

  /** `CX`, `CY`, `CZ`, `C/X`, `C/Y`, `C/Z`. */
  function CylinderShape(kind: string, axis: Option<Axis>, params: seq<real>): Created
    requires |kind| >= 1 && kind[0] == 'C'
    requires axis.Some? ==> kind[|kind| - 1] != 'C'
  {
    if axis.None? then Raised(UnboundAxis)
    else
      match OffsetPoint(kind, axis.value, params)
      case Err(e) => Raised(e)
      case Ok(r0) =>
        if params == [] then Raised(IndexError)
        else Made(Cylinder(r0, AxisVector(axis.value), params[|params| - 1]))
  }

  /** The axis point of a cylinder: off the origin only for the `C/` forms. */
  function OffsetPoint(kind: string, axis: Axis, params: seq<real>): Result<Vector, Error>
    requires |kind| >= 2
  {
    if kind[1] == '/' then
      if |params| < 2 then Err(IndexError) else Ok(OffAxisPoint(axis, params[0], params[1]))
    else Ok([0.0, 0.0, 0.0])
  }

  /** The sheet of a cone card: 0 for an even number of parameters, else the last one. */
  function ConeSheet(params: seq<real>): int
    requires params != []
  {
    if |params| % 2 == 0 then 0 else Trunc(params[|params| - 1])
  }

  /** `KX`, `KY`, `KZ`, `K/X`, `K/Y`, `K/Z`. */
  function ConeShape(kind: string, axis: Option<Axis>, params: seq<real>): Created
    requires |kind| >= 1 && kind[0] == 'K'
  {
    if |kind| == 1 then Raised(IndexError)
    else if kind[1] == '/' then
      if |params| < 4 then Raised(IndexError)
      else if axis.None? then Raised(UnboundAxis)
      else Made(Cone(Prefix3(params), AxisVector(axis.value), params[3], ConeSheet(params)))
    else if params == [] then Raised(IndexError)
    else if axis.None? then Raised(UnboundAxis)
    else if |params| < 2 then Raised(IndexError)
    else Made(Cone(Scale(AxisVector(axis.value), params[0]), AxisVector(axis.value), params[1], ConeSheet(params)))
  }

  /** `TX`, `TY`, `TZ`. */
  function TorusShape(axis: Option<Axis>, params: seq<real>): Created
  {
    if |params| != 6 then Raised(ValueError)
    else if axis.None? then Raised(UnboundAxis)
    else Made(Torus(params[..3], AxisVector(axis.value), params[3], params[4], params[5]))
  }

  /** `|x - y| < resolution * max(|x|, |y|)`: the relative closeness test of the source. */
  predicate Close(x: real, y: real, resolution: real)
  {
    Abs(y - x) < resolution * Max(Abs(x), Abs(y))
  }

  function Sign(x: real): int
  {
    if x > 0.0 then 1 else if x < 0.0 then -1 else 0
  }

  /**
   * The cone through the two points `(h1, r1)` and `(h2, r2)` once neither the
   * heights nor the radii are close: its apex height, squared tangent and
   * sheet, in the order the source computes them.
   */
  function ConeByPointsAsWritten(axis: Option<Axis>, h1: real, r1: real, h2: real, r2: real): Created
  {
    if r1 * r2 < 0.0 then Raised(ValueError)
    else if Abs(r1) == Abs(r2) then Raised(ZeroDivision)
    else
      var h0 := (Abs(r1) * h2 - Abs(r2) * h1) / (Abs(r1) - Abs(r2));
      if h1 == h2 then Raised(ZeroDivision)
      else
        var ta := Abs((r1 - r2) / (h1 - h2));
        if h1 == h0 then Raised(ZeroDivision)
        else if axis.None? then Raised(UnboundAxis)
        else Made(Cone(Scale(AxisVector(axis.value), h0), AxisVector(axis.value), ta * ta, Sign(h1 - h0)))
  }

  /**
   * The axisymmetric surface given by points, exactly as written: one point
   * (two parameters) is a plane; two points are a plane, a cylinder or a cone;
   * three points are not implemented; any other count gives None.
   */
  function ByPointsAsWritten(axis: Option<Axis>, params: seq<real>, resolution: real): Created
  {
    if |params| == 2 then
      if axis.None? then Raised(UnboundAxis) else Made(Plane(AxisVector(axis.value), -params[0]))
    else if |params| == 4 then
      var h1, r1, h2, r2 := params[0], params[1], params[2], params[3];
      if Close(h1, h2, resolution) then
        if axis.None? then Raised(UnboundAxis) else Made(Plane(AxisVector(axis.value), -0.5 * (h1 + h2)))
      else if Close(r1, r2, resolution) then
        if axis.None? then Raised(UnboundAxis)
        else Made(Cylinder([0.0, 0.0, 0.0], AxisVector(axis.value), 0.5 * (Abs(r1) + Abs(r2))))
      else ConeByPointsAsWritten(axis, h1, r1, h2, r2)
    else if |params| == 6 then Raised(NotImplemented)
    else NoSurface
  }

  /**
   * The cone by two points with the sheet taken from the second point when the
   * first point is the apex (`r1 == 0`), where the source divides by zero.
   */
  function ConeByPoints(axis: Option<Axis>, h1: real, r1: real, h2: real, r2: real): Created
  {
    if r1 * r2 < 0.0 then Raised(ValueError)
    else if Abs(r1) == Abs(r2) then Raised(ZeroDivision)
    else
      var h0 := (Abs(r1) * h2 - Abs(r2) * h1) / (Abs(r1) - Abs(r2));
      if h1 == h2 then Raised(ZeroDivision)
      else
        var ta := Abs((r1 - r2) / (h1 - h2));
        var side := if h1 != h0 then h1 - h0 else h2 - h0;
        if axis.None? then Raised(UnboundAxis)
        else Made(Cone(Scale(AxisVector(axis.value), h0), AxisVector(axis.value), ta * ta, Sign(side)))
  }

  /**
   * The axisymmetric surface given by points with two points at exactly the
   * same height always giving a plane (the source's strict test against a
   * zero tolerance misses heights that are both 0) and an apex at the first
   * point accepted.
   */
  function ByPoints(axis: Option<Axis>, params: seq<real>, resolution: real): Created
  {
    if |params| == 2 then
      if axis.None? then Raised(UnboundAxis) else Made(Plane(AxisVector(axis.value), -params[0]))
    else if |params| == 4 then
      var h1, r1, h2, r2 := params[0], params[1], params[2], params[3];
      if h1 == h2 || Close(h1, h2, resolution) then
        if axis.None? then Raised(UnboundAxis) else Made(Plane(AxisVector(axis.value), -0.5 * (h1 + h2)))
      else if Close(r1, r2, resolution) then
        if axis.None? then Raised(UnboundAxis)
        else Made(Cylinder([0.0, 0.0, 0.0], AxisVector(axis.value), 0.5 * (Abs(r1) + Abs(r2))))
      else ConeByPoints(axis, h1, r1, h2, r2)
    else if |params| == 6 then Raised(NotImplemented)
    else NoSurface
  }

  /**
   * The surface a designator describes. The kind word is upper-cased first;
   * its last letter names the axis; its first letter (or the whole word for
   * `SQ` and `GQ`) chooses the variant. `RESOLUTION`, the relative tolerance
   * of the by-points forms, is the parameter `resolution`. The by-points
   * forms go to the corrected `ByPoints`, not to `ByPointsAsWritten`: two
   * heights that are both 0 give a plane, and an apex at the first point
   * gives a cone, where the source divides by zero.
   */
  function ShapeFor(kind: string, params: seq<real>, resolution: real): Created
  {
    var kind := Upper(kind);
    if kind == [] then Raised(IndexError)
    else
      var axis := AxisOf(kind);
      if kind[0] == 'P' then PlaneShape(kind, axis, params)
      else if kind == "SQ" then
        if |params| != 10 then Raised(ValueError) else Made(SqShape(params))
      else if kind[0] == 'S' then SphereShape(kind, axis, params)
      else if kind[0] == 'C' then CylinderShape(kind, axis, params)
      else if kind[0] == 'K' then ConeShape(kind, axis, params)
      else if kind == "GQ" then
        if |params| != 10 then Raised(ValueError) else Made(GqShape(params))
      else if kind[0] == 'T' then TorusShape(axis, params)
      else ByPoints(axis, params, resolution)
  }

  // ---------------------------------------------------------------------
  // Properties of the factory
  // ---------------------------------------------------------------------

  /** The kind word is case-insensitive: it is upper-cased before any dispatch. */
  lemma KindCaseInsensitive(kind: string, params: seq<real>, resolution: real)
    ensures ShapeFor(kind, params, resolution) == ShapeFor(Upper(kind), params, resolution)
  {
    UpperIdempotent(kind);
  }

  function AxisLetter(a: Axis): char
  {
    match a
    case X => 'X'
    case Y => 'Y'
    case Z => 'Z'
  }

  /** `PX d`, `PY d`, `PZ d`: the plane with the axis as unit normal and offset `-d`. */
  lemma AxisPlane(a: Axis, params: seq<real>, resolution: real)
    requires params != []
    ensures ShapeFor(['P', AxisLetter(a)], params, resolution) == Made(Plane(AxisVector(a), -params[0]))
  {
    assert Upper(['P', AxisLetter(a)]) == ['P', AxisLetter(a)];
  }

  /** `P a b c d`: the plane with normal `(a, b, c)` and offset `-d`; fewer than four parameters raise. */
  lemma GeneralPlane(params: seq<real>, resolution: real)
    ensures |params| >= 4 ==> ShapeFor("P", params, resolution) == Made(Plane(params[..3], -params[3]))
    ensures |params| < 4 ==> ShapeFor("P", params, resolution) == Raised(IndexError)
  {
    assert Upper("P") == "P";
  }

  /**
   * `SQ` is matched before the sphere forms: in any letter case it gives a
   * quadric with a diagonal matrix, never a sphere.
   */
  lemma SqIsDiagonalQuadric(kind: string, params: seq<real>, resolution: real)
    requires Upper(kind) == "SQ"
    ensures |params| != 10 ==> ShapeFor(kind, params, resolution) == Raised(ValueError)
    ensures |params| == 10 ==>
              var c := ShapeFor(kind, params, resolution);
              c.Made? && c.shape.GQuadratic? && |c.shape.m| == 3 &&
              forall i, j :: 0 <= i < 3 && 0 <= j < 3 && i != j ==> |c.shape.m[i]| == 3 && c.shape.m[i][j] == 0.0
  {
  }

  /**
   * The `GQ` coefficients survive the trip through the symmetric matrix:
   * the printer adds the two halves of each off-diagonal pair back together.
   */
  lemma {:induction false} GqRoundTrip(params: seq<real>, resolution: real)
    requires |params| == 10
    ensures var c := ShapeFor("GQ", params, resolution);
            c.Made? && c.shape.GQuadratic? &&
            |c.shape.m| == 3 && |c.shape.m[0]| == 3 && |c.shape.m[1]| == 3 && |c.shape.m[2]| == 3 &&
            |c.shape.v| == 3 &&
            (forall i, j :: 0 <= i < 3 && 0 <= j < 3 ==> c.shape.m[i][j] == c.shape.m[j][i]) &&
            GqCoefficients(c.shape.m, c.shape.v, c.shape.k) == params
  {
    assert Upper("GQ") == "GQ";
    var g := GqShape(params);
    var q := GqCoefficients(g.m, g.v, g.k);
    assert q[3] == params[3] && q[4] == params[4] && q[5] == params[5];
    assert forall i :: 0 <= i < 10 ==> q[i] == params[i];
  }

  /** A cone card's sheet is 0 for an even number of parameters, else the truncated last parameter. */
  lemma ConeCardSheet(kind: string, params: seq<real>, resolution: real)
    requires |kind| >= 1 && UpperChar(kind[0]) == 'K'
    requires ShapeFor(kind, params, resolution).Made?
    ensures ShapeFor(kind, params, resolution).shape.Cone?
    ensures ShapeFor(kind, params, resolution).shape.sheet ==
              if |params| % 2 == 0 then 0 else Trunc(params[|params| - 1])
  {
  }

  /** The by-points forms `X`, `Y`, `Z` in the table the factory implements. */
  lemma ByPointsTable(a: Axis, params: seq<real>, resolution: real)
    ensures var c := ShapeFor([AxisLetter(a)], params, resolution);
            && (|params| == 2 ==> c == Made(Plane(AxisVector(a), -params[0])))
            && (|params| == 4 && Close(params[0], params[2], resolution) ==>
                  c == Made(Plane(AxisVector(a), -0.5 * (params[0] + params[2]))))
            && (|params| == 4 && !Close(params[0], params[2], resolution) && params[0] != params[2]
                && Close(params[1], params[3], resolution) ==>
                  c == Made(Cylinder([0.0, 0.0, 0.0], AxisVector(a), 0.5 * (Abs(params[1]) + Abs(params[3])))))
            && (|params| == 4 && !Close(params[0], params[2], resolution) && params[0] != params[2]
                && !Close(params[1], params[3], resolution) && params[1] * params[3] < 0.0 ==>
                  c == Raised(ValueError))
            && (|params| == 6 ==> c == Raised(NotImplemented))
            && (|params| !in {2, 4, 6} ==> c == NoSurface)
  {
    assert Upper([AxisLetter(a)]) == [AxisLetter(a)];
  }

  // ---------------------------------------------------------------------
  // The two by-points defects and their corrections
  // ---------------------------------------------------------------------

  /**
   * As written, two points that both lie at height 0 fail the strict
   * closeness test against a zero tolerance and the cone branch divides by
   * zero, although they lie on the plane `h = 0`.
   */
  lemma ZeroHeightsDivideByZero(resolution: real)
    requires 0.0 <= resolution < 0.5
    ensures ByPointsAsWritten(Some(X), [0.0, 1.0, 0.0, 2.0], resolution) == Raised(ZeroDivision)
    ensures ByPoints(Some(X), [0.0, 1.0, 0.0, 2.0], resolution) == Made(Plane(AxisVector(X), 0.0))
  {
  }

  /**
   * As written, a cone whose first point is the apex (`r1 == 0`) divides by
   * zero when it computes the sheet from `h1 - h0`.
   */
  lemma ApexFirstDividesByZero(resolution: real)
    requires 0.0 <= resolution < 1.0
    ensures ByPointsAsWritten(Some(Z), [0.0, 0.0, 10.0, 5.0], resolution) == Raised(ZeroDivision)
    ensures ByPoints(Some(Z), [0.0, 0.0, 10.0, 5.0], resolution) == Made(Cone([0.0, 0.0, 0.0], AxisVector(Z), 0.25, 1))
  {
    assert (Abs(0.0) * 10.0 - Abs(5.0) * 0.0) / (Abs(0.0) - Abs(5.0)) == 0.0;
    assert Abs((0.0 - 5.0) / (0.0 - 10.0)) == 0.5;
    assert Scale(AxisVector(Z), 0.0) == [0.0, 0.0, 0.0];
  }

  /** Corrected: two points at the same height always give the plane at that height. */
  lemma EqualHeightsArePlane(a: Axis, h: real, r1: real, r2: real, resolution: real)
    ensures ByPoints(Some(a), [h, r1, h, r2], resolution) == Made(Plane(AxisVector(a), -h))
  {
  }

  /**
   * Corrected: a first point on the axis is the apex of the cone through the
   * second point, on the sheet of the second point.
   */
  lemma ApexAtFirstPoint(a: Axis, h1: real, h2: real, r2: real, resolution: real)
    requires h1 != h2 && r2 != 0.0
    requires !Close(h1, h2, resolution) && !Close(0.0, r2, resolution)
    ensures ByPoints(Some(a), [h1, 0.0, h2, r2], resolution) ==
              Made(Cone(Scale(AxisVector(a), h1), AxisVector(a), (r2 / (h2 - h1)) * (r2 / (h2 - h1)), Sign(h2 - h1)))
  {
    ConeWithApexFirst(a, h1, h2, r2);
    assert ByPoints(Some(a), [h1, 0.0, h2, r2], resolution) == ConeByPoints(Some(a), h1, 0.0, h2, r2);
  }

  lemma ConeWithApexFirst(a: Axis, h1: real, h2: real, r2: real)
    requires h1 != h2 && r2 != 0.0
    ensures ConeByPoints(Some(a), h1, 0.0, h2, r2) ==
              Made(Cone(Scale(AxisVector(a), h1), AxisVector(a), (r2 / (h2 - h1)) * (r2 / (h2 - h1)), Sign(h2 - h1)))
  {
    ApexHeight(h1, h2, r2);
    SlopeSquare(h1, h2, r2);
    assert !(0.0 * r2 < 0.0);
    assert Abs(0.0) != Abs(r2);
    var c := ConeByPoints(Some(a), h1, 0.0, h2, r2);
    assert c.Made?;
    assert c.shape.apex == Scale(AxisVector(a), h1);
    assert c.shape.sheet == Sign(h2 - h1);
    assert c.shape.t2 == (r2 / (h2 - h1)) * (r2 / (h2 - h1));
  }

  lemma ApexHeight(h1: real, h2: real, r2: real)
    requires r2 != 0.0
    ensures (Abs(0.0) * h2 - Abs(r2) * h1) / (Abs(0.0) - Abs(r2)) == h1
  {
    var c := Abs(r2);
    assert Abs(0.0) * h2 - c * h1 == (Abs(0.0) - c) * h1;
  }

  lemma SlopeSquare(h1: real, h2: real, r2: real)
    requires h1 != h2
    ensures Abs((0.0 - r2) / (h1 - h2)) * Abs((0.0 - r2) / (h1 - h2)) == (r2 / (h2 - h1)) * (r2 / (h2 - h1))
  {
    var x := r2 / (h2 - h1);
    assert (0.0 - r2) / (h1 - h2) == x;
  }

  /** A surface object. Its identity is its equality and its hash. */
  class Surface {
    const shape: Shape

    constructor (shape: Shape)
      ensures this.shape == shape
    {
      this.shape := shape;
    }
  }

  /**
   * `create_surface`: a new surface object for the designator, None, or the
   * exception the factory raises, with the by-points forms corrected as
   * `ShapeFor` describes.
   */
  method CreateSurface(kind: string, params: seq<real>, resolution: real) returns (r: Result<Option<Surface>, Error>)
    ensures ShapeFor(kind, params, resolution).Made? ==>
              r.Ok? && r.value.Some? && fresh(r.value.value) && r.value.value.shape == ShapeFor(kind, params, resolution).shape
    ensures ShapeFor(kind, params, resolution).NoSurface? ==> r == Ok(None)
    ensures ShapeFor(kind, params, resolution).Raised? ==> r == Err(ShapeFor(kind, params, resolution).error)
  {
    match ShapeFor(kind, params, resolution)
    case Made(shape) =>
      var s := new Surface(shape);
      r := Ok(Some(s));
    case NoSurface =>
      r := Ok(None);
    case Raised(e) =>
      r := Err(e);
  }

  /**
   * `equals` of the six variants: planes and spheres raise before comparing
   * anything; cylinders, cones, quadrics and tori never report a coincidence.
   */
  function SurfaceEquals(s: Surface, other: Surface): (r: Result<int, Error>)
    ensures r.Err? <==> s.shape.Plane? || s.shape.Sphere?
    ensures r.Ok? ==> r.value == 0
  {
    match s.shape
    case Plane(_, _) => Err(NotImplemented)
    case Sphere(_, _) => Err(NotImplemented)
    case _ => Ok(0)
  }

  /** The outcome of comparing one candidate with the unique surfaces. */
  datatype Match = Replace(target: Surface, sense: int) | NoMatch | Failed(error: Error)

  /**
   * The inner loop of `create_replace_dictionary`: compare `s` with the unique
   * surfaces, in the set's own iteration order, until a comparison is
   * nonzero or raises.
   */
  method FindMatch(s: Surface, uniq: set<Surface>, equals: (Surface, Surface) -> Result<int, Error>) returns (m: Match)
    ensures m.Replace? ==> m.target in uniq && m.sense != 0 && equals(s, m.target) == Ok(m.sense)
    ensures m.NoMatch? ==> forall u :: u in uniq ==> equals(s, u) == Ok(0)
    ensures m.Failed? ==> exists u :: u in uniq && equals(s, u) == Err(m.error)
  {
    var rest := uniq;
    while rest != {}
      invariant rest <= uniq
      invariant forall u :: u in uniq - rest ==> equals(s, u) == Ok(0)
      decreases rest
    {
      var us :| us in rest;
      var t := equals(s, us);
      if t.Err? {
        return Failed(t.error);
      }
      if t.value != 0 {
        return Replace(us, t.value);
      }
      rest := rest - {us};
    }
    return NoMatch;
  }

  /** A set of surfaces the caller owns and the de-duplication grows in place. */
  class SurfaceSet {
    var members: set<Surface>

    constructor ()
      ensures members == {}
    {
      members := {};
    }
  }

  /** The candidates `surfaces[..n]` that did not get a replacement. */
  function Kept(surfaces: seq<Surface>, n: nat, replace: map<Surface, (Surface, int)>): set<Surface>
    requires n <= |surfaces|
  {
    set j | 0 <= j < n && surfaces[j] !in replace :: surfaces[j]
  }

  /**
   * The state in which the loop stops when comparing candidate `i` raises
   * `e`: the unique set holds the prior members and the candidates before `i`
   * that got no replacement, every replacement so far has a nonzero sense,
   * the kept candidates compared as distinct, and some member of the set
   * raised `e` against candidate `i`.
   */
  predicate StoppedAt(surfaces: seq<Surface>, i: int, rep: map<Surface, (Surface, int)>,
                      members0: set<Surface>, members: set<Surface>,
                      equals: (Surface, Surface) -> Result<int, Error>, e: Error)
  {
    0 <= i < |surfaces| && members == members0 + Kept(surfaces, i, rep)
    && (forall s :: s in rep ==> rep[s].1 != 0 && equals(s, rep[s].0) == Ok(rep[s].1))
    && KeptApart(surfaces, i, rep, members0, equals) && KeptPairwise(surfaces, i, rep, equals)
    && exists v :: v in members && equals(surfaces[i], v) == Err(e)
  }

  /**
   * The loop of `create_replace_dictionary` over a unique set `u` that it
   * grows in place: each candidate is either mapped to the first unique
   * surface it coincides with, with the sign of the coincidence, or added to
   * `u`. Later candidates are compared with those added before them.
   */
  method Deduplicate(surfaces: seq<Surface>, u: SurfaceSet, equals: (Surface, Surface) -> Result<int, Error>)
    returns (r: Result<map<Surface, (Surface, int)>, Error>)
    requires forall i, j :: 0 <= i < j < |surfaces| ==> surfaces[i] != surfaces[j]
    modifies u
    ensures old(u.members) <= u.members <= old(u.members) + set s | s in surfaces
    ensures r.Err? ==> exists j, v :: 0 <= j < |surfaces| && equals(surfaces[j], v) == Err(r.error)
    ensures r.Err? ==> exists i, rep :: StoppedAt(surfaces, i, rep, old(u.members), u.members, equals, r.error)
    ensures r.Ok? ==> u.members == old(u.members) + Kept(surfaces, |surfaces|, r.value)
    ensures r.Ok? ==> forall s :: s in r.value ==> s in surfaces
    ensures r.Ok? ==> forall s :: s in r.value ==>
              r.value[s].0 in u.members && r.value[s].1 != 0 && equals(s, r.value[s].0) == Ok(r.value[s].1)
    ensures r.Ok? ==> forall j :: 0 <= j < |surfaces| && surfaces[j] !in old(u.members) ==>
              (surfaces[j] in r.value <==> surfaces[j] !in u.members)
    ensures r.Ok? ==> forall j, v :: 0 <= j < |surfaces| && surfaces[j] !in r.value && v in old(u.members) ==>
              equals(surfaces[j], v) == Ok(0)
    ensures r.Ok? ==> forall j, k :: 0 <= j < k < |surfaces| && surfaces[j] !in r.value && surfaces[k] !in r.value ==>
              equals(surfaces[k], surfaces[j]) == Ok(0)
  {
    var replace: map<Surface, (Surface, int)> := map[];
    ghost var members0 := u.members;
    var i := 0;
    while i < |surfaces|
      invariant 0 <= i <= |surfaces|
      invariant u.members == members0 + Kept(surfaces, i, replace)
      invariant forall s :: s in replace ==> s in surfaces[..i]
      invariant forall j :: i <= j < |surfaces| ==> surfaces[j] !in replace
      invariant forall s :: s in replace ==>
                  replace[s].0 in u.members && replace[s].1 != 0 && equals(s, replace[s].0) == Ok(replace[s].1)
      invariant KeptApart(surfaces, i, replace, members0, equals)
      invariant KeptPairwise(surfaces, i, replace, equals)
    {
      var s := surfaces[i];
      ghost var current := u.members;
      var m := FindMatch(s, u.members, equals);
      if m.Failed? {
        ghost var v :| v in u.members && equals(s, v) == Err(m.error);
        assert 0 <= i < |surfaces| && equals(surfaces[i], v) == Err(m.error);
        assert StoppedAt(surfaces, i, replace, members0, u.members, equals, m.error);
        return Err(m.error);
      }
      ghost var before := replace;
      if m.Replace? {
        replace := replace[s := (m.target, m.sense)];
      } else {
        u.members := u.members + {s};
      }
      KeptStep(surfaces, i, before, replace);
      PairwiseStep(surfaces, i, before, replace, current, equals);
      ApartStep(surfaces, i, before, replace, members0, current, equals);
      i := i + 1;
    }
    KeptExactly(surfaces, members0, replace);
    r := Ok(replace);
  }

  /** A plane or a sphere: a surface whose `equals` raises. */
  predicate Incomparable(s: Surface)
  {
    s.shape.Plane? || s.shape.Sphere?
  }

  /**
   * Candidate `j` is compared with a non-empty unique set while it is an
   * incomparable surface: the set holds prior members or earlier candidates.
   */
  predicate RaisesAt(surfaces: seq<Surface>, j: int, start: set<Surface>)
  {
    0 <= j < |surfaces| && Incomparable(surfaces[j]) && (start != {} || j > 0)
  }

  /** Candidate `j` is the first one at which the comparison raises. */
  predicate FirstRaise(surfaces: seq<Surface>, j: int, start: set<Surface>)
  {
    RaisesAt(surfaces, j, start) && forall k :: 0 <= k < j ==> !RaisesAt(surfaces, k, start)
  }

  /**
   * `create_replace_dictionary` with the variants' own `equals`: `unique` is
   * the caller's set, grown in place, or a new empty set when it is null.
   * Since no variant ever reports a coincidence, the replace map is always
   * empty and every candidate joins the set; the call raises exactly when a
   * plane or a sphere meets a non-empty set, and then the set holds the
   * candidates before the first such one.
   */
  method CreateReplaceDictionary(surfaces: seq<Surface>, unique: SurfaceSet?)
    returns (r: Result<map<Surface, (Surface, int)>, Error>)
    requires forall i, j :: 0 <= i < j < |surfaces| ==> surfaces[i] != surfaces[j]
    modifies unique
    ensures r.Ok? ==> r.value == map[]
    ensures var start := old(if unique == null then {} else unique.members);
            r.Err? <==> exists j :: RaisesAt(surfaces, j, start)
    ensures var start := old(if unique == null then {} else unique.members);
            r.Err? ==>
              r.error == NotImplemented &&
              exists j :: FirstRaise(surfaces, j, start) &&
                (unique != null ==> unique.members == start + set s | s in surfaces[..j])
    ensures unique != null && r.Ok? ==> unique.members == old(unique.members) + set s | s in surfaces
  {
    var u: SurfaceSet;
    if unique == null {
      u := new SurfaceSet();
    } else {
      u := unique;
    }
    ghost var start := u.members;
    r := Deduplicate(surfaces, u, SurfaceEquals);
    if r.Ok? {
      NothingReplaced(surfaces, r.value);
      NoRaiseBefore(surfaces, |surfaces|, r.value, start);
    } else {
      ghost var i, rep :| StoppedAt(surfaces, i, rep, start, u.members, SurfaceEquals, r.error);
      NoReplacement(rep);
      NoRaiseBefore(surfaces, i, rep, start);
      KeptPrefix(surfaces, i, rep);
      ghost var v :| v in u.members && SurfaceEquals(surfaces[i], v) == Err(r.error);
      assert RaisesAt(surfaces, i, start) by {
        if i == 0 {
          assert v in start;
        }
      }
      assert FirstRaise(surfaces, i, start);
    }
  }

  /** With the variants' own `equals` no candidate ever gets a replacement. */
  lemma NoReplacement(rep: map<Surface, (Surface, int)>)
    requires forall s :: s in rep ==> rep[s].1 != 0 && SurfaceEquals(s, rep[s].0) == Ok(rep[s].1)
    ensures rep == map[]
  {
    forall s
      ensures s !in rep
    {
    }
  }

  /** Without replacements the kept candidates are all the candidates before `i`. */
  lemma KeptPrefix(surfaces: seq<Surface>, i: nat, rep: map<Surface, (Surface, int)>)
    requires i <= |surfaces| && rep == map[]
    ensures Kept(surfaces, i, rep) == set s | s in surfaces[..i]
  {
    forall s | s in surfaces[..i]
      ensures s in Kept(surfaces, i, rep)
    {
      var j :| 0 <= j < i && surfaces[..i][j] == s;
      assert surfaces[j] == s;
    }
  }

  /**
   * Before the loop stops, no candidate met a non-empty set while being a
   * plane or a sphere: it would have compared with an earlier candidate or a
   * prior member and raised.
   */
  lemma NoRaiseBefore(surfaces: seq<Surface>, n: nat, rep: map<Surface, (Surface, int)>, start: set<Surface>)
    requires n <= |surfaces| && rep == map[]
    requires KeptApart(surfaces, n, rep, start, SurfaceEquals) && KeptPairwise(surfaces, n, rep, SurfaceEquals)
    ensures forall k :: 0 <= k < n ==> !RaisesAt(surfaces, k, start)
  {
    forall k | 0 <= k < n && (start != {} || k > 0)
      ensures !Incomparable(surfaces[k])
    {
      if k > 0 {
        assert SurfaceEquals(surfaces[k], surfaces[0]) == Ok(0);
      } else {
        var v :| v in start;
        assert SurfaceEquals(surfaces[k], v) == Ok(0);
      }
    }
  }

  /** With an empty replace map every candidate is kept. */
  lemma NothingReplaced(surfaces: seq<Surface>, replace: map<Surface, (Surface, int)>)
    requires replace == map[]
    ensures Kept(surfaces, |surfaces|, replace) == set s | s in surfaces
  {
    forall s | s in surfaces
      ensures s in Kept(surfaces, |surfaces|, replace)
    {
      var j :| 0 <= j < |surfaces| && surfaces[j] == s;
    }
  }

  /** A candidate that was not already unique ends up in exactly one of the two places. */
  lemma KeptExactly(surfaces: seq<Surface>, members0: set<Surface>, replace: map<Surface, (Surface, int)>)
    ensures forall j :: 0 <= j < |surfaces| && surfaces[j] !in members0 ==>
              (surfaces[j] in replace <==> surfaces[j] !in members0 + Kept(surfaces, |surfaces|, replace))
  {
  }

  /** Every two kept candidates among `surfaces[..n]` compare as distinct. */
  predicate KeptPairwise(surfaces: seq<Surface>, n: nat, replace: map<Surface, (Surface, int)>,
                         equals: (Surface, Surface) -> Result<int, Error>)
    requires n <= |surfaces|
  {
    forall j, k :: 0 <= j < k < n && surfaces[j] !in replace && surfaces[k] !in replace ==>
      equals(surfaces[k], surfaces[j]) == Ok(0)
  }

  /** Every kept candidate among `surfaces[..n]` compares as distinct from each of `members`. */
  predicate KeptApart(surfaces: seq<Surface>, n: nat, replace: map<Surface, (Surface, int)>,
                      members: set<Surface>, equals: (Surface, Surface) -> Result<int, Error>)
    requires n <= |surfaces|
  {
    forall j, v :: 0 <= j < n && surfaces[j] !in replace && v in members ==> equals(surfaces[j], v) == Ok(0)
  }

  lemma ApartStep(surfaces: seq<Surface>, i: nat, before: map<Surface, (Surface, int)>,
                  after: map<Surface, (Surface, int)>, members0: set<Surface>, members: set<Surface>,
                  equals: (Surface, Surface) -> Result<int, Error>)
    requires i < |surfaces|
    requires forall j :: 0 <= j < i ==> (surfaces[j] in before <==> surfaces[j] in after)
    requires KeptApart(surfaces, i, before, members0, equals)
    requires members0 <= members
    requires surfaces[i] !in after ==> forall v :: v in members ==> equals(surfaces[i], v) == Ok(0)
    ensures KeptApart(surfaces, i + 1, after, members0, equals)
  {
  }

  lemma PairwiseStep(surfaces: seq<Surface>, i: nat, before: map<Surface, (Surface, int)>,
                     after: map<Surface, (Surface, int)>, members: set<Surface>,
                     equals: (Surface, Surface) -> Result<int, Error>)
    requires i < |surfaces|
    requires forall j :: 0 <= j < i ==> (surfaces[j] in before <==> surfaces[j] in after)
    requires KeptPairwise(surfaces, i, before, equals)
    requires Kept(surfaces, i, before) <= members
    requires surfaces[i] !in after ==> forall v :: v in members ==> equals(surfaces[i], v) == Ok(0)
    ensures KeptPairwise(surfaces, i + 1, after, equals)
  {
    forall j, k | 0 <= j < k < i + 1 && surfaces[j] !in after && surfaces[k] !in after
      ensures equals(surfaces[k], surfaces[j]) == Ok(0)
    {
      if k == i {
        assert surfaces[j] in Kept(surfaces, i, before);
      }
    }
  }

  /** One more candidate processed: it is kept exactly when it got no replacement. */
  lemma KeptStep(surfaces: seq<Surface>, i: nat, before: map<Surface, (Surface, int)>, after: map<Surface, (Surface, int)>)
    requires i < |surfaces|
    requires forall a, b :: 0 <= a < b < |surfaces| ==> surfaces[a] != surfaces[b]
    requires forall j :: 0 <= j < i ==> (surfaces[j] in before <==> surfaces[j] in after)
    ensures Kept(surfaces, i + 1, after) ==
            Kept(surfaces, i, before) + (if surfaces[i] in after then {} else {surfaces[i]})
  {
  }
}
