/**
 * createGeometry: turns the stored parameters into a LINES mesh. A STRAIGHT
 * line uses the input points as they are; a GEODESIC or RHUMB line inserts
 * interior points on each segment. How many interior points a segment gets,
 * where they lie, how colours are blended and the bounding sphere are all
 * computed by routines outside this core, so they are parameters here
 * (Collaborators); what is modelled is the bookkeeping: which vertex goes
 * where, which colour goes with it, and how the indices chain the vertices.
 */
module PolylineMesh {
  import opened Wrappers
  import opened SimplePolyline

  datatype PrimitiveType = Lines

  datatype BoundingSphere = BoundingSphere(center: Cartesian3, radius: real)

  /**
   * The routines createGeometry relies on: the number of interior points for
   * a segment (from the granularity, the ellipsoid and the line type), the
   * point at a fraction of the way along a segment, colour interpolation, and
   * BoundingSphere.fromPoints.
   */
  datatype Collaborators = Collaborators(
    interiorCount: (SimplePolylineGeometry, Cartesian3, Cartesian3) -> nat,
    interpolate: (SimplePolylineGeometry, Cartesian3, Cartesian3, real) -> Cartesian3,
    lerp: (Color, Color, real) -> Color,
    fromPoints: seq<Cartesian3> -> BoundingSphere)

  /** The finished mesh: flat vertex coordinates, optional flat colours, index pairs. */
  datatype Geometry = Geometry(
    positionValues: seq<real>,
    colorValues: Option<seq<real>>,
    indices: seq<nat>,
    primitiveType: PrimitiveType,
    boundingSphere: BoundingSphere)

  /** Per-segment colouring: colours were given and they are not per vertex. */
  predicate PerSegmentColors(g: SimplePolylineGeometry)
  {
    g.colors.Some? && !g.colorsPerVertex
  }

  /** The fraction of the way along a segment of the j-th of k interior points, 0 <= j < k. */
  function Fraction(j: nat, k: nat): (t: real)
    requires j < k
    ensures 0.0 < t < 1.0
  {
    (j + 1) as real / (k + 1) as real
  }

  /** The interior points of segment p0 -> p1, excluding both endpoints. */
  function InteriorPoints(env: Collaborators, g: SimplePolylineGeometry, p0: Cartesian3, p1: Cartesian3)
    : (r: seq<Cartesian3>)
    ensures |r| == env.interiorCount(g, p0, p1)
  {
    var k := env.interiorCount(g, p0, p1);
    seq(k, j requires 0 <= j < k => env.interpolate(g, p0, p1, Fraction(j, k)))
  }

  /** The colours of those interior points, blended between the endpoint colours. */
  function InteriorColors(env: Collaborators, g: SimplePolylineGeometry, p0: Cartesian3, p1: Cartesian3,
                          c0: Color, c1: Color): (r: seq<Color>)
    ensures |r| == env.interiorCount(g, p0, p1)
  {
    var k := env.interiorCount(g, p0, p1);
    seq(k, j requires 0 <= j < k => env.lerp(c0, c1, Fraction(j, k)))
  }

  /** The number of interior points over all segments of ps. */
  function InteriorTotal(env: Collaborators, g: SimplePolylineGeometry, ps: seq<Cartesian3>): nat
    decreases |ps|
  {
    if |ps| < 2 then 0 else env.interiorCount(g, ps[0], ps[1]) + InteriorTotal(env, g, ps[1..])
  }

  /**
   * Subdivided vertices when consecutive segments share their common
   * endpoint: each input point once, with each segment's interior points
   * between its two endpoints.
   */
  function SharedVertices(env: Collaborators, g: SimplePolylineGeometry, ps: seq<Cartesian3>)
    : (r: seq<Cartesian3>)
    requires |ps| >= 1
    ensures |r| == |ps| + InteriorTotal(env, g, ps)
    ensures r[0] == ps[0] && r[|r| - 1] == ps[|ps| - 1]
    decreases |ps|
  {
    if |ps| == 1 then ps
    else [ps[0]] + InteriorPoints(env, g, ps[0], ps[1]) + SharedVertices(env, g, ps[1..])
  }

  /**
   * Subdivided vertices for per-segment colours: every segment contributes
   * its own two endpoints and its interior points, so a point shared by two
   * segments appears twice.
   */
  function SegmentVertices(env: Collaborators, g: SimplePolylineGeometry, ps: seq<Cartesian3>)
    : (r: seq<Cartesian3>)
    ensures |ps| >= 1 ==> |r| == 2 * (|ps| - 1) + InteriorTotal(env, g, ps)
    decreases |ps|
  {
    if |ps| < 2 then []
    else [ps[0]] + InteriorPoints(env, g, ps[0], ps[1]) + [ps[1]] + SegmentVertices(env, g, ps[1..])
  }

  /** Per-vertex colours along SharedVertices: cs[i] at point i, blends in between. */
  function VertexColors(env: Collaborators, g: SimplePolylineGeometry, ps: seq<Cartesian3>, cs: seq<Color>)
    : (r: seq<Color>)
    requires 1 <= |ps| <= |cs|
    ensures |r| == |ps| + InteriorTotal(env, g, ps)
    decreases |ps|
  {
    if |ps| == 1 then [cs[0]]
    else [cs[0]] + InteriorColors(env, g, ps[0], ps[1], cs[0], cs[1]) + VertexColors(env, g, ps[1..], cs[1..])
  }

  /** Per-segment colours along SegmentVertices: every vertex of segment i gets cs[i]. */
  function SegmentColors(env: Collaborators, g: SimplePolylineGeometry, ps: seq<Cartesian3>, cs: seq<Color>)
    : (r: seq<Color>)
    requires |cs| >= |ps| - 1
    ensures |ps| >= 1 ==> |r| == 2 * (|ps| - 1) + InteriorTotal(env, g, ps)
    ensures forall c :: c in r ==> c in cs
    decreases |ps|
  {
    if |ps| < 2 then []
    else
      var k := env.interiorCount(g, ps[0], ps[1]);
      seq(k + 2, _ => cs[0]) + SegmentColors(env, g, ps[1..], cs[1..])
  }

  /** Without subdivision and with per-segment colours: each segment's two endpoints. */
  function StraightSegmentVertices(ps: seq<Cartesian3>): (r: seq<Cartesian3>)
    ensures |ps| >= 1 ==> |r| == 2 * (|ps| - 1)
    decreases |ps|
  {
    if |ps| < 2 then [] else [ps[0], ps[1]] + StraightSegmentVertices(ps[1..])
  }

  /** Without subdivision: segment i's colour on both of its endpoints. */
  function StraightSegmentColors(ps: seq<Cartesian3>, cs: seq<Color>): (r: seq<Color>)
    requires |cs| >= |ps| - 1
    ensures |ps| >= 1 ==> |r| == 2 * (|ps| - 1)
    decreases |ps|
  {
    if |ps| < 2 then [] else [cs[0], cs[0]] + StraightSegmentColors(ps[1..], cs[1..])
  }

  /** The vertices of the mesh, before flattening. */
  function MeshVertices(env: Collaborators, g: SimplePolylineGeometry): seq<Cartesian3>
    requires Valid(g)
  {
    if g.lineType == Straight then
      if PerSegmentColors(g) then StraightSegmentVertices(g.positions) else g.positions
    else
      if PerSegmentColors(g) then SegmentVertices(env, g, g.positions) else SharedVertices(env, g, g.positions)
  }

  /** The colours of the mesh vertices, before flattening; None without colours. */
  function MeshColors(env: Collaborators, g: SimplePolylineGeometry): Option<seq<Color>>
    requires Valid(g)
  {
    match g.colors
    case None => None
    case Some(cs) =>
      Some(
        if g.lineType == Straight then
          if g.colorsPerVertex then cs[..|g.positions|] else StraightSegmentColors(g.positions, cs)
        else
          if g.colorsPerVertex then VertexColors(env, g, g.positions, cs)
          else SegmentColors(env, g, g.positions, cs))
  }

  /** The index pairs (k, k + 1) for every k below v - 1. */
  function LineIndices(v: nat): (r: seq<nat>)
    ensures |r| == if v == 0 then 0 else 2 * (v - 1)
    ensures forall k :: 0 <= k < v - 1 ==> r[2 * k] == k && r[2 * k + 1] == k + 1
    ensures forall i :: 0 <= i < |r| ==> r[i] < v
  {
    if v < 2 then [] else LineIndices(v - 1) + [v - 2, v - 1]
  }

  /** SimplePolylineGeometry.createGeometry. */
  function CreateGeometry(env: Collaborators, g: SimplePolylineGeometry): (r: Geometry)
    requires Valid(g)
    ensures r.primitiveType == Lines
    ensures r.boundingSphere == env.fromPoints(g.positions)
    ensures r.colorValues.Some? <==> g.colors.Some?
  {
    var vertices := MeshVertices(env, g);
    var colors := MeshColors(env, g);
    Geometry(
      PackCartesians(vertices),
      if colors.Some? then Some(PackColors(colors.value)) else None,
      LineIndices(|vertices|),
      Lines,
      env.fromPoints(g.positions))
  }

  /**
   * The number of mesh vertices, counted independently: one per input point,
   * or two per segment with per-segment colours, plus every interior point
   * when the line is subdivided.
   */
  function VertexCount(env: Collaborators, g: SimplePolylineGeometry): nat
    requires Valid(g)
  {
    var n := |g.positions|;
    var interior := if g.lineType == Straight then 0 else InteriorTotal(env, g, g.positions);
    (if PerSegmentColors(g) then 2 * (n - 1) else n) + interior
  }

  /**
   * Three coordinates per vertex, four colour components per vertex, and
   * two indices per line between consecutive vertices.
   */
  lemma CreateGeometryCounts(env: Collaborators, g: SimplePolylineGeometry)
    requires Valid(g)
    ensures var r, v := CreateGeometry(env, g), VertexCount(env, g);
      && |r.positionValues| == 3 * v
      && |r.indices| == 2 * (v - 1)
      && (r.colorValues.Some? ==> |r.colorValues.value| == 4 * v)
  {
    var v := |MeshVertices(env, g)|;
    assert v == VertexCount(env, g);
    match g.colors
    case None =>
    case Some(cs) =>
      assert |MeshColors(env, g).value| == v;
  }

  /**
   * Without subdivision and without per-segment colours the position values
   * are the input coordinates exactly, and the indices chain the points.
   */
  lemma StraightKeepsPositions(env: Collaborators, g: SimplePolylineGeometry)
    requires Valid(g) && g.lineType == Straight && !PerSegmentColors(g)
    ensures CreateGeometry(env, g).positionValues == PackCartesians(g.positions)
    ensures CreateGeometry(env, g).indices == LineIndices(|g.positions|)
  {
  }

  /**
   * A STRAIGHT line is never subdivided: its mesh does not depend on the
   * subdivision routines, whatever they return.
   */
  lemma StraightNotSubdivided(env1: Collaborators, env2: Collaborators, g: SimplePolylineGeometry)
    requires Valid(g) && g.lineType == Straight
    ensures CreateGeometry(env1, g).positionValues == CreateGeometry(env2, g).positionValues
    ensures CreateGeometry(env1, g).colorValues == CreateGeometry(env2, g).colorValues
    ensures CreateGeometry(env1, g).indices == CreateGeometry(env2, g).indices
  {
  }

  /** Vertex 2i and 2i + 1 of the per-segment straight mesh are segment i's endpoints, in its colour. */
  lemma {:induction false} StraightSegmentLayout(ps: seq<Cartesian3>, cs: seq<Color>, i: nat)
    requires |cs| >= |ps| - 1 && i + 1 < |ps|
    ensures StraightSegmentVertices(ps)[2 * i] == ps[i]
    ensures StraightSegmentVertices(ps)[2 * i + 1] == ps[i + 1]
    ensures StraightSegmentColors(ps, cs)[2 * i] == cs[i] && StraightSegmentColors(ps, cs)[2 * i + 1] == cs[i]
    decreases i
  {
    if i > 0 {
      StraightSegmentLayout(ps[1..], cs[1..], i - 1);
    }
  }

  /**
   * Input point i sits in the shared-vertex mesh at index i plus the number
   * of interior points of the segments before it.
   */
  lemma {:induction false} SharedVerticesKeepInputs(env: Collaborators, g: SimplePolylineGeometry,
                                                    ps: seq<Cartesian3>, i: nat)
    requires i < |ps|
    ensures i + InteriorTotal(env, g, ps[..i + 1]) < |SharedVertices(env, g, ps)|
    ensures SharedVertices(env, g, ps)[i + InteriorTotal(env, g, ps[..i + 1])] == ps[i]
    decreases i
  {
    if i == 0 {
      assert InteriorTotal(env, g, ps[..1]) == 0;
    } else {
      var k := env.interiorCount(g, ps[0], ps[1]);
      SharedVerticesKeepInputs(env, g, ps[1..], i - 1);
      assert ps[..i + 1][1..] == ps[1..][..i];
      assert InteriorTotal(env, g, ps[..i + 1]) == k + InteriorTotal(env, g, ps[1..][..i]);
    }
  }

  /**
   * Per-vertex colours follow the shared-vertex mesh: input point i's colour
   * cs[i] sits where the point itself sits.
   */
  lemma {:induction false} VertexColorsKeepInputs(env: Collaborators, g: SimplePolylineGeometry,
                                                  ps: seq<Cartesian3>, cs: seq<Color>, i: nat)
    requires 1 <= |ps| <= |cs| && i < |ps|
    ensures i + InteriorTotal(env, g, ps[..i + 1]) < |VertexColors(env, g, ps, cs)|
    ensures VertexColors(env, g, ps, cs)[i + InteriorTotal(env, g, ps[..i + 1])] == cs[i]
    decreases i
  {
    if i == 0 {
      assert InteriorTotal(env, g, ps[..1]) == 0;
    } else {
      var k := env.interiorCount(g, ps[0], ps[1]);
      VertexColorsKeepInputs(env, g, ps[1..], cs[1..], i - 1);
      assert ps[..i + 1][1..] == ps[1..][..i];
      assert InteriorTotal(env, g, ps[..i + 1]) == k + InteriorTotal(env, g, ps[1..][..i]);
    }
  }

  /** When no segment gets interior points, the shared-vertex mesh is the input itself. */
  lemma {:induction false} NoInteriorShared(env: Collaborators, g: SimplePolylineGeometry, ps: seq<Cartesian3>)
    requires |ps| >= 1
    requires forall i :: 0 <= i < |ps| - 1 ==> env.interiorCount(g, ps[i], ps[i + 1]) == 0
    ensures SharedVertices(env, g, ps) == ps
    decreases |ps|
  {
    if |ps| > 1 {
      assert env.interiorCount(g, ps[0], ps[1]) == 0;
      NoInteriorShared(env, g, ps[1..]);
    }
  }

  /** When no segment gets interior points, the per-segment mesh is the straight one. */
  lemma {:induction false} NoInteriorSegments(env: Collaborators, g: SimplePolylineGeometry,
                                              ps: seq<Cartesian3>, cs: seq<Color>)
    requires |cs| >= |ps| - 1
    requires forall i :: 0 <= i < |ps| - 1 ==> env.interiorCount(g, ps[i], ps[i + 1]) == 0
    ensures SegmentVertices(env, g, ps) == StraightSegmentVertices(ps)
    ensures SegmentColors(env, g, ps, cs) == StraightSegmentColors(ps, cs)
    decreases |ps|
  {
    if |ps| > 1 {
      assert env.interiorCount(g, ps[0], ps[1]) == 0;
      NoInteriorSegments(env, g, ps[1..], cs[1..]);
      assert seq(2, _ => cs[0]) == [cs[0], cs[0]];
    }
  }

  /** When no segment gets interior points, the per-vertex colours are the given ones. */
  lemma {:induction false} NoInteriorVertexColors(env: Collaborators, g: SimplePolylineGeometry,
                                                  ps: seq<Cartesian3>, cs: seq<Color>)
    requires 1 <= |ps| <= |cs|
    requires forall i :: 0 <= i < |ps| - 1 ==> env.interiorCount(g, ps[i], ps[i + 1]) == 0
    ensures VertexColors(env, g, ps, cs) == cs[..|ps|]
    decreases |ps|
  {
    if |ps| > 1 {
      assert env.interiorCount(g, ps[0], ps[1]) == 0;
      NoInteriorVertexColors(env, g, ps[1..], cs[1..]);
      assert cs[..|ps|] == [cs[0]] + cs[1..][..|ps| - 1];
    }
  }

  /**
   * A GEODESIC or RHUMB line whose segments need no interior points gives
   * the same mesh as a STRAIGHT line over the same points.
   */
  lemma NoInteriorIsStraight(env: Collaborators, g: SimplePolylineGeometry)
    requires Valid(g)
    requires forall i :: 0 <= i < |g.positions| - 1 ==> env.interiorCount(g, g.positions[i], g.positions[i + 1]) == 0
    ensures CreateGeometry(env, g) == CreateGeometry(env, g.(lineType := Straight))
  {
    var s := g.(lineType := Straight);
    NoInteriorVertices(env, g);
    NoInteriorColors(env, g);
    assert |MeshVertices(env, g)| == |MeshVertices(env, s)|;
  }

  lemma NoInteriorVertices(env: Collaborators, g: SimplePolylineGeometry)
    requires Valid(g)
    requires forall i :: 0 <= i < |g.positions| - 1 ==> env.interiorCount(g, g.positions[i], g.positions[i + 1]) == 0
    ensures MeshVertices(env, g) == MeshVertices(env, g.(lineType := Straight))
  {
    if g.lineType != Straight {
      if PerSegmentColors(g) {
        NoInteriorSegments(env, g, g.positions, g.colors.value);
      } else {
        NoInteriorShared(env, g, g.positions);
      }
    }
  }

  lemma NoInteriorColors(env: Collaborators, g: SimplePolylineGeometry)
    requires Valid(g)
    requires forall i :: 0 <= i < |g.positions| - 1 ==> env.interiorCount(g, g.positions[i], g.positions[i + 1]) == 0
    ensures MeshColors(env, g) == MeshColors(env, g.(lineType := Straight))
  {
    if g.lineType != Straight && g.colors.Some? {
      if g.colorsPerVertex {
        NoInteriorVertexColors(env, g, g.positions, g.colors.value);
      } else {
        NoInteriorSegments(env, g, g.positions, g.colors.value);
      }
    }
  }
}
