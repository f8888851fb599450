/**
 * The concrete instances and packed vectors of the SimplePolylineGeometry
 * test file, stated as lemmas about the model.
 */
module PolylineSpecVectors {
  import opened Wrappers
  import opened SimplePolyline
  import opened PolylineCodec
  import opened PolylineMesh

  const Pi: real := 3.141592653589793
  const UnitSphere: Ellipsoid := Ellipsoid(1.0, 1.0, 1.0)
  const Zero: Cartesian3 := Cartesian3(0.0, 0.0, 0.0)
  const UnitX: Cartesian3 := Cartesian3(1.0, 0.0, 0.0)
  const UnitY: Cartesian3 := Cartesian3(0.0, 1.0, 0.0)
  const UnitZ: Cartesian3 := Cartesian3(0.0, 0.0, 1.0)
  const Red: Color := Color(1.0, 0.0, 0.0, 1.0)
  const Lime: Color := Color(0.0, 1.0, 0.0, 1.0)
  const Blue: Color := Color(0.0, 0.0, 1.0, 1.0)

  /** The options object with only `positions` given. */
  function WithPositions(ps: seq<Cartesian3>): (o: Options)
    ensures o.positions == Some(ps)
  {
    DefaultOptions().(positions := Some(ps))
  }

  /** Construction fails without positions, with one position, and with an empty colour list. */
  lemma ConstructorRejects()
    ensures New(DefaultOptions()) == Failure(TooFewPositions)
    ensures New(WithPositions([Zero])) == Failure(TooFewPositions)
    ensures New(WithPositions([Zero, UnitX, UnitY]).(colors := Some([]))) == Failure(InvalidColorsLength)
  {
  }

  /** Any colour list shorter than the mode needs is rejected; any other is accepted. */
  lemma ColorsLowerBound(ps: seq<Cartesian3>, cs: seq<Color>, perVertex: bool)
    requires |ps| >= 2
    ensures New(WithPositions(ps).(colors := Some(cs), colorsPerVertex := perVertex)).Success?
        <==> |cs| >= (if perVertex then |ps| else |ps| - 1)
  {
  }

  /** Three colours for three points are accepted in either colour mode. */
  lemma ThreeColorsAccepted(perVertex: bool)
    ensures New(WithPositions([UnitX, UnitY, UnitZ]).(colors := Some([Red, Lime, Blue]),
                                                    colorsPerVertex := perVertex)).Success?
  {
    ColorsLowerBound([UnitX, UnitY, UnitZ], [Red, Lime, Blue], perVertex);
  }

  /**
   * followSurface false over (0,0,0), (1,0,0), (2,0,0): the position values
   * are the input coordinates and the indices are [0, 1, 1, 2].
   */
  lemma NoSubdivisionMesh(env: Collaborators)
    ensures var g := New(WithPositions([Zero, UnitX, Cartesian3(2.0, 0.0, 0.0)]).(followSurface := false));
      && g.Success?
      && CreateGeometry(env, g.value).positionValues == [0.0, 0.0, 0.0, 1.0, 0.0, 0.0, 2.0, 0.0, 0.0]
      && CreateGeometry(env, g.value).indices == [0, 1, 1, 2]
      && CreateGeometry(env, g.value).primitiveType == Lines
      && CreateGeometry(env, g.value).boundingSphere == env.fromPoints([Zero, UnitX, Cartesian3(2.0, 0.0, 0.0)])
  {
    var ps := [Zero, UnitX, Cartesian3(2.0, 0.0, 0.0)];
    var g := New(WithPositions(ps).(followSurface := false)).value;
    StraightKeepsPositions(env, g);
    PackThree(ps);
    IndicesOfThree();
  }

  /**
   * Three points with granularity pi on the unit sphere, GEODESIC or RHUMB:
   * when the subdivision routine gives neither segment interior points, the
   * position values are the input coordinates and the indices are [0, 1, 1, 2].
   */
  lemma CoarseSurfaceMesh(env: Collaborators, ps: seq<Cartesian3>, lineType: LineType)
    requires |ps| == 3 && lineType != Straight
    requires var g := New(WithPositions(ps).(granularity := Pi, ellipsoid := UnitSphere, lineType := lineType)).value;
      env.interiorCount(g, ps[0], ps[1]) == 0 && env.interiorCount(g, ps[1], ps[2]) == 0
    ensures var g := New(WithPositions(ps).(granularity := Pi, ellipsoid := UnitSphere, lineType := lineType)).value;
      && CreateGeometry(env, g).positionValues == PackCartesians(ps)
      && CreateGeometry(env, g).indices == [0, 1, 1, 2]
      && CreateGeometry(env, g).boundingSphere == env.fromPoints(ps)
  {
    var g := New(WithPositions(ps).(granularity := Pi, ellipsoid := UnitSphere, lineType := lineType)).value;
    NoInteriorIsStraight(env, g);
    StraightKeepsPositions(env, g.(lineType := Straight));
    IndicesOfThree();
  }

  /**
   * The options of the colour tests: granularity pi on the unit sphere when
   * following the surface, the defaults otherwise.
   */
  function ColorTestOptions(ps: seq<Cartesian3>, perVertex: bool, followSurface: bool): Options
  {
    var o := WithPositions(ps).(colors := Some([Red, Lime, Blue]), colorsPerVertex := perVertex);
    if followSurface then o.(granularity := Pi, ellipsoid := UnitSphere) else o.(followSurface := false)
  }

  /**
   * Per-segment colours give (2 * 3 - 2) * 4 = 16 colour values and per-vertex
   * colours 3 * 4 = 12: always without subdivision, and on the surface when
   * no segment gets interior points.
   */
  lemma ColorValueCounts(env: Collaborators, ps: seq<Cartesian3>, perVertex: bool, followSurface: bool)
    requires |ps| == 3
    requires var g := New(ColorTestOptions(ps, perVertex, followSurface)).value;
      followSurface ==> env.interiorCount(g, ps[0], ps[1]) == 0 && env.interiorCount(g, ps[1], ps[2]) == 0
    ensures var g := New(ColorTestOptions(ps, perVertex, followSurface)).value;
      && CreateGeometry(env, g).colorValues.Some?
      && |CreateGeometry(env, g).colorValues.value| == if perVertex then 12 else 16
  {
    ColorsLowerBound(ps, [Red, Lime, Blue], perVertex);
    var g := New(ColorTestOptions(ps, perVertex, followSurface)).value;
    CreateGeometryCounts(env, g);
    if followSurface {
      assert InteriorTotal(env, g, ps[2..]) == 0;
      assert InteriorTotal(env, g, ps[1..]) == 0;
    }
  }

  lemma PackThree(ps: seq<Cartesian3>)
    requires |ps| == 3
    ensures PackCartesians(ps) == [ps[0].x, ps[0].y, ps[0].z, ps[1].x, ps[1].y, ps[1].z, ps[2].x, ps[2].y, ps[2].z]
  {
  }

  lemma PackThreeColors(cs: seq<Color>)
    requires |cs| == 3
    ensures PackColors(cs) == [cs[0].red, cs[0].green, cs[0].blue, cs[0].alpha,
                               cs[1].red, cs[1].green, cs[1].blue, cs[1].alpha,
                               cs[2].red, cs[2].green, cs[2].blue, cs[2].alpha]
  {
  }

  lemma IndicesOfThree()
    ensures LineIndices(3) == [0, 1, 1, 2]
  {
    assert LineIndices(2) == [0, 1];
  }

  const Points: seq<Cartesian3> := [Cartesian3(1.0, 2.0, 3.0), Cartesian3(4.0, 5.0, 6.0), Cartesian3(7.0, 8.0, 9.0)]

  /** The shared options of the packing tests: granularity 11, ellipsoid radii (12, 13, 14). */
  function PackingOptions(): Options
  {
    WithPositions(Points).(granularity := 11.0, ellipsoid := Ellipsoid(12.0, 13.0, 14.0))
  }

  /** The constructed instance of a set of options known to be accepted. */
  function Instance(o: Options): SimplePolylineGeometry
    requires New(o).Success?
  {
    New(o).value
  }

  /**
   * Per-vertex colours, not following the surface: the colour count and the
   * twelve colour components come after the points, then the radii, the flag
   * 1 and the STRAIGHT code 2.
   */
  lemma PackedPerVertexColors()
    ensures var o := PackingOptions().(colors := Some([Red, Lime, Blue]), colorsPerVertex := true,
                                       followSurface := false);
      && New(o).Success?
      && Pack(Instance(o)) == [3.0, 1.0, 2.0, 3.0, 4.0, 5.0, 6.0, 7.0, 8.0, 9.0,
                               3.0, 1.0, 0.0, 0.0, 1.0, 0.0, 1.0, 0.0, 1.0, 0.0, 0.0, 1.0, 1.0,
                               12.0, 13.0, 14.0, 1.0, 2.0, 11.0]
  {
    var o := PackingOptions().(colors := Some([Red, Lime, Blue]), colorsPerVertex := true, followSurface := false);
    assert Instance(o) == SimplePolylineGeometry(Points, Some([Red, Lime, Blue]), true, Straight, 11.0,
                                                 Ellipsoid(12.0, 13.0, 14.0));
    PackedPerVertexInstance();
  }

  lemma PackedPerVertexInstance()
    ensures Pack(SimplePolylineGeometry(Points, Some([Red, Lime, Blue]), true, Straight, 11.0, Ellipsoid(12.0, 13.0, 14.0)))
         == [3.0, 1.0, 2.0, 3.0, 4.0, 5.0, 6.0, 7.0, 8.0, 9.0,
             3.0, 1.0, 0.0, 0.0, 1.0, 0.0, 1.0, 0.0, 1.0, 0.0, 0.0, 1.0, 1.0,
             12.0, 13.0, 14.0, 1.0, 2.0, 11.0]
  {
    var cs := [Red, Lime, Blue];
    var g := SimplePolylineGeometry(Points, Some(cs), true, Straight, 11.0, Ellipsoid(12.0, 13.0, 14.0));
    assert Pack(g) == [3.0, 1.0, 2.0, 3.0, 4.0, 5.0, 6.0, 7.0, 8.0, 9.0, 3.0] + PackColors(cs) + PackTail(g) by {
      PackPointsThreeColors(g);
    }
    assert PackColors(cs) == [1.0, 0.0, 0.0, 1.0, 0.0, 1.0, 0.0, 1.0, 0.0, 0.0, 1.0, 1.0] by {
      PackThreeColors(cs);
    }
    assert PackTail(g) == [12.0, 13.0, 14.0, 1.0, 2.0, 11.0];
    assert [3.0, 1.0, 2.0, 3.0, 4.0, 5.0, 6.0, 7.0, 8.0, 9.0, 3.0]
           + [1.0, 0.0, 0.0, 1.0, 0.0, 1.0, 0.0, 1.0, 0.0, 0.0, 1.0, 1.0]
           + [12.0, 13.0, 14.0, 1.0, 2.0, 11.0]
        == [3.0, 1.0, 2.0, 3.0, 4.0, 5.0, 6.0, 7.0, 8.0, 9.0,
            3.0, 1.0, 0.0, 0.0, 1.0, 0.0, 1.0, 0.0, 1.0, 0.0, 0.0, 1.0, 1.0,
            12.0, 13.0, 14.0, 1.0, 2.0, 11.0];
  }

  /** The three test points with three colours: the counts, the coordinates, the components, the tail. */
  lemma PackPointsThreeColors(g: SimplePolylineGeometry)
    requires g.positions == Points && g.colors.Some? && |g.colors.value| == 3
    ensures Pack(g) == [3.0, 1.0, 2.0, 3.0, 4.0, 5.0, 6.0, 7.0, 8.0, 9.0, 3.0] + PackColors(g.colors.value) + PackTail(g)
  {
    PackThree(Points);
  }

  /** No colours, not following the surface: a colour count of 0, flag 0, STRAIGHT code 2. */
  lemma PackedNoColorsStraight()
    ensures var o := PackingOptions().(followSurface := false);
      && New(o).Success?
      && Pack(Instance(o)) == [3.0, 1.0, 2.0, 3.0, 4.0, 5.0, 6.0, 7.0, 8.0, 9.0, 0.0, 12.0, 13.0, 14.0, 0.0, 2.0, 11.0]
  {
    var g := Instance(PackingOptions().(followSurface := false));
    assert g == SimplePolylineGeometry(Points, None, false, Straight, 11.0, Ellipsoid(12.0, 13.0, 14.0));
    PackPointsNoColors(g);
  }

  /** The packed vector of a width-10 line of the given type; only the code differs. */
  lemma PackedLineType(lineType: LineType)
    ensures var o := PackingOptions().(width := 10.0, lineType := lineType);
      && New(o).Success?
      && Pack(Instance(o)) == [3.0, 1.0, 2.0, 3.0, 4.0, 5.0, 6.0, 7.0, 8.0, 9.0, 0.0, 12.0, 13.0, 14.0, 0.0,
                               match lineType case Geodesic => 0.0 case Rhumb => 1.0 case Straight => 2.0,
                               11.0]
  {
    var g := Instance(PackingOptions().(width := 10.0, lineType := lineType));
    assert g == SimplePolylineGeometry(Points, None, false, lineType, 11.0, Ellipsoid(12.0, 13.0, 14.0));
    PackPointsNoColors(g);
  }

  /** The three test points without colours: the count 3, nine coordinates, the colour count 0, then the tail. */
  lemma PackPointsNoColors(g: SimplePolylineGeometry)
    requires g.positions == Points && g.colors.None?
    ensures Pack(g) == [3.0, 1.0, 2.0, 3.0, 4.0, 5.0, 6.0, 7.0, 8.0, 9.0, 0.0] + PackTail(g)
  {
    PackThree(Points);
  }

  /**
   * Not following the surface and a STRAIGHT width-10 line store the same
   * state, which is why their packed vectors coincide.
   */
  lemma StraightInstancesCoincide()
    ensures New(PackingOptions().(followSurface := false))
         == New(PackingOptions().(width := 10.0, lineType := Straight))
  {
    NoFollowSurfaceIsStraight(PackingOptions());
    NewIgnoresWidth(PackingOptions().(lineType := Straight), 10.0);
  }

  /** Each packed vector of the tests unpacks to the instance it came from. */
  lemma TestVectorsRoundTrip(o: Options)
    requires New(o).Success?
    ensures Unpack(Pack(Instance(o)), 0) == Some(Unpacked(Instance(o), |Pack(Instance(o))|))
  {
    UnpackPackExact(Instance(o));
  }
}
