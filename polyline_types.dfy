/** Option and Result, the failure-carrying wrappers used throughout the model. */
module Wrappers {
  datatype Option<+T> = None | Some(value: T)

  datatype Result<+T, +E> = Success(value: T) | Failure(error: E)
}

/**
 * The construction parameters of a simple (one-pixel) polyline: the points,
 * optional colours, the colour mode, the line type, the granularity and the
 * reference ellipsoid, and the validating constructor that builds them from
 * caller options.
 */
module SimplePolyline {
  import opened Wrappers

  datatype Cartesian3 = Cartesian3(x: real, y: real, z: real)

  /** Colour components as stored by the colour type, normally in [0, 1]. */
  datatype Color = Color(red: real, green: real, blue: real, alpha: real)

  /** An ellipsoid is carried (and packed) by its three radii. */
  datatype Ellipsoid = Ellipsoid(rx: real, ry: real, rz: real)

  datatype LineType = Geodesic | Rhumb | Straight

  const Wgs84: Ellipsoid := Ellipsoid(6378137.0, 6378137.0, 6356752.3142451793)
  const RadiansPerDegree: real := 0.017453292519943295

  /**
   * The options object handed to the constructor. A property the caller leaves
   * out takes its value from DefaultOptions; an absent `positions` or `colors`
   * is None.
   */
  datatype Options = Options(
    positions: Option<seq<Cartesian3>>,
    colors: Option<seq<Color>>,
    colorsPerVertex: bool,
    width: real,
    followSurface: bool,
    lineType: LineType,
    granularity: real,
    ellipsoid: Ellipsoid)

  function DefaultOptions(): Options
  {
    Options(None, None, false, 1.0, true, Geodesic, RadiansPerDegree, Wgs84)
  }

  /**
   * The stored state of a constructed geometry. Neither the width nor the
   * surface-following flag is kept: a line that does not follow the surface
   * is stored as a STRAIGHT line.
   */
  datatype SimplePolylineGeometry = SimplePolylineGeometry(
    positions: seq<Cartesian3>,
    colors: Option<seq<Color>>,
    colorsPerVertex: bool,
    lineType: LineType,
    granularity: real,
    ellipsoid: Ellipsoid)

  datatype DeveloperError = TooFewPositions | InvalidColorsLength

  /**
   * The colour check is a lower bound: one colour per point in per-vertex
   * mode, one per segment otherwise; surplus colours are accepted.
   */
  predicate EnoughColors(n: nat, colors: Option<seq<Color>>, colorsPerVertex: bool)
  {
    colors.None? || |colors.value| >= (if colorsPerVertex then n else n - 1)
  }

  /** What every successfully constructed geometry satisfies. */
  predicate Valid(g: SimplePolylineGeometry)
  {
    |g.positions| >= 2 && EnoughColors(|g.positions|, g.colors, g.colorsPerVertex)
  }

  /** The constructor: validates the options and stores the parameters. */
  function New(o: Options): (r: Result<SimplePolylineGeometry, DeveloperError>)
    ensures r.Failure? <==>
              o.positions.None? || |o.positions.value| < 2
              || !EnoughColors(|o.positions.value|, o.colors, o.colorsPerVertex)
    ensures r.Failure? ==>
              (r.error == TooFewPositions <==> o.positions.None? || |o.positions.value| < 2)
    ensures r.Success? ==> Valid(r.value)
    ensures r.Success? ==>
              && r.value.positions == o.positions.value
              && r.value.colors == o.colors
              && r.value.colorsPerVertex == o.colorsPerVertex
              && r.value.granularity == o.granularity
              && r.value.ellipsoid == o.ellipsoid
    ensures r.Success? ==> (r.value.lineType == Straight <==> !o.followSurface || o.lineType == Straight)
    ensures r.Success? && o.followSurface ==> r.value.lineType == o.lineType
  {
    if o.positions.None? || |o.positions.value| < 2 then
      Failure(TooFewPositions)
    else if !EnoughColors(|o.positions.value|, o.colors, o.colorsPerVertex) then
      Failure(InvalidColorsLength)
    else
      Success(SimplePolylineGeometry(
        o.positions.value,
        o.colors,
        o.colorsPerVertex,
        if o.followSurface then o.lineType else Straight,
        o.granularity,
        o.ellipsoid))
  }

  /** A constructed geometry never holds an empty colour list: absent or non-empty. */
  lemma ValidColorsNonEmpty(g: SimplePolylineGeometry)
    requires Valid(g)
    ensures g.colors.Some? ==> |g.colors.value| > 0
  {
  }

  /** The width option has no effect on the stored parameters. */
  lemma NewIgnoresWidth(o: Options, w: real)
    ensures New(o.(width := w)) == New(o)
  {
  }

  /** Not following the surface is the same as asking for a STRAIGHT line. */
  lemma NoFollowSurfaceIsStraight(o: Options)
    ensures New(o.(followSurface := false)) == New(o.(followSurface := true, lineType := Straight))
  {
  }

  /** Cartesian3.packArray: each point as three consecutive coordinates. */
  function PackCartesians(ps: seq<Cartesian3>): (r: seq<real>)
    ensures |r| == 3 * |ps|
    ensures forall i :: 0 <= i < |ps| ==>
              r[3 * i] == ps[i].x && r[3 * i + 1] == ps[i].y && r[3 * i + 2] == ps[i].z
  {
    if ps == [] then [] else [ps[0].x, ps[0].y, ps[0].z] + PackCartesians(ps[1..])
  }

  /** Each colour as four consecutive components, red, green, blue, alpha. */
  function PackColors(cs: seq<Color>): (r: seq<real>)
    ensures |r| == 4 * |cs|
    ensures forall i :: 0 <= i < |cs| ==>
              r[4 * i] == cs[i].red && r[4 * i + 1] == cs[i].green
              && r[4 * i + 2] == cs[i].blue && r[4 * i + 3] == cs[i].alpha
  {
    if cs == [] then [] else [cs[0].red, cs[0].green, cs[0].blue, cs[0].alpha] + PackColors(cs[1..])
  }
}
