# SimplePolylineGeometry, modelled in Dafny

Cesium's `SimplePolylineGeometry` describes a one-pixel-wide polyline.
Its construction parameters are:
- a list of points;
- optional colours, one per segment or one per vertex;
- a line type (GEODESIC, RHUMB or STRAIGHT);
- a granularity;
- a reference ellipsoid.

It does three things with them:

1. **Construction** (`SimplePolyline`, in `polyline_types.dfy`). The constructor checks the options and stores the parameters.
   - It rejects a missing point list and a list of fewer than two points.
   - It rejects a colour list shorter than the colour mode needs: one colour per point per vertex, one per segment otherwise.
   - Neither the width nor the `followSurface` flag is stored. A line that does not follow the surface is stored as a STRAIGHT line.
2. **The flat-array codec** (`PolylineCodec`, in `polyline_codec.dfy`). `Pack` writes a geometry as a sequence of numbers in this order:
   - the point count, then x, y, z for each point;
   - the colour count (0 without colours), then red, green, blue, alpha for each colour;
   - the three ellipsoid radii;
   - the `colorsPerVertex` flag (1 or 0);
   - the line-type code (GEODESIC 0, RHUMB 1, STRAIGHT 2);
   - the granularity.

   `Unpack` reads a geometry back from any offset of a buffer. `PackInto` fills a caller-supplied array at a start offset, part by part, and returns the index just past what it wrote. It is proved to leave the array holding `Pack(g)` at that offset and its old contents elsewhere.
3. **Mesh assembly** (`PolylineMesh`, in `polyline_mesh.dfy`). `CreateGeometry` turns the parameters into a LINES mesh.
   - A STRAIGHT line uses the points as they are.
   - GEODESIC and RHUMB lines may get interior points on each segment, as many as the subdivision routine returns (none at granularity π in lines 46–80).
   - With per-segment colours, every segment has its own two end vertices, so there are 2n − 2 vertices plus the interior ones. Otherwise there are n vertices plus the interior ones.
   - The indices join each vertex k to k + 1.

The concrete instances and packed vectors of the library's test file are lemmas in `PolylineSpecVectors`, in `polyline_spec_vectors.dfy`.

The implementation file `Core/SimplePolylineGeometry.js` is not part of this model. Only its test file `Specs/Core/SimplePolylineGeometrySpec.js` is, so the model has two kinds of behaviour.

**Asserted by the test file, directly or through its literal vectors:**
- **Rejections** (lines 23–44): no points, one point, an empty colour list.
- **Colour check is a lower bound** (lines 82–96): a per-segment line with three colours over three points (two segments) is accepted.
- **Colour-value counts** (lines 82–157): (2n − 2) · 4 colour values per segment and n · 4 per vertex.
- **Pack layout** (lines 159–212): n, the coordinates, m, the colour components, the three radii, the flag, the line-type code, the granularity.
  - The vector at line 168 (`…, 12, 13, 14, 1, 2, 11`) puts the flag after the radii.
  - The vectors fix the codes GEODESIC 0, RHUMB 1, STRAIGHT 2.
  - The vectors at lines 189–211 show that width is not packed.
- **Surface-following flag is not stored** (lines 178 and 211): a line that does not follow the surface packs exactly as a STRAIGHT line, and both vectors round-trip, so the stored parameters must be equal.
- **Round trip** (lines 169–212): `createPackableSpecs` asserts it for every instance.
- **Mesh without subdivision** (lines 115–126): position values equal the inputs, the indices chain the vertices, the primitive is LINES, and the bounding sphere is `fromPoints` of the inputs.

**Reconstructions the test file does not pin down:**
- **Subdivided mesh** (`SharedVertices`, `SegmentVertices`): the vertex order, with each segment's interior points between its endpoints and, for per-segment colours, duplicated shared endpoints.
- **Interior points and colours** (`Fraction`, `InteriorColors`, `VertexColors`): the fractions (j + 1) / (k + 1) and the blending of per-vertex colours.
- **Colour thresholds** (`New`, `ColorsLowerBound`): at least n colours per vertex and at least n − 1 per segment. The test file shows only that an empty list is rejected (lines 37–44) and that three colours over three points are accepted in both modes (lines 82–113). Where exactly the bound lies, and that surplus colours are accepted per vertex too, is a reconstruction.
- **Defaults** (`DefaultOptions`): one degree in radians for the granularity and WGS84 for the ellipsoid.
- **Malformed buffers** (`Unpack`): line-type codes other than 0, 1 or 2 and malformed counts are refused.
- **`PackInto`**: the part-by-part order of its writes. The test file shows only the packed values.
- **STRAIGHT lines are never subdivided** (`StraightNotSubdivided`), whatever the surface-following flag. The vectors at lines 178 and 211 make "not following the surface" and STRAIGHT the same stored state, and lines 115–126 require that state to keep its points unsubdivided.

## Model

| member | source | states |
|---|---|---|
| SimplePolyline.New | Specs/Core/SimplePolylineGeometrySpec.js:23-44 | construction fails exactly when the points are absent or fewer than two, or the colours are too few for the mode; the error is "too few positions" exactly in the first case; on success the points, colours, mode, granularity and ellipsoid are stored, and the line is STRAIGHT exactly when it does not follow the surface or was asked to be STRAIGHT |
| SimplePolyline.ValidColorsNonEmpty | Specs/Core/SimplePolylineGeometrySpec.js:37-44 | a constructed geometry never holds an empty colour list |
| SimplePolyline.NewIgnoresWidth | Specs/Core/SimplePolylineGeometrySpec.js:181-190 | the width option has no effect on the constructed geometry |
| SimplePolyline.NoFollowSurfaceIsStraight | Specs/Core/SimplePolylineGeometrySpec.js:171-179 | not following the surface constructs the same geometry as asking for a STRAIGHT line |
| SimplePolyline.PackCartesians | Specs/Core/SimplePolylineGeometrySpec.js:73-76 | Cartesian3.packArray: 3 values per point, point i at 3i, 3i + 1, 3i + 2 |
| SimplePolyline.PackColors | Specs/Core/SimplePolylineGeometrySpec.js:159-168 | 4 values per colour, colour i's red, green, blue, alpha at 4i .. 4i + 3 |
| PolylineCodec.LineTypeCode | Specs/Core/SimplePolylineGeometrySpec.js:181-212 | each line type's code lies in [0, 2] and decodes back to that line type |
| PolylineCodec.LineTypeFromCode | Specs/Core/SimplePolylineGeometrySpec.js:181-212 | a code decodes to a line type exactly when it is 0, 1 or 2 |
| PolylineCodec.LineTypeCodeOfDecoded | Specs/Core/SimplePolylineGeometrySpec.js:181-212 | a code that decodes is the code of the line type it decodes to |
| PolylineCodec.Pack | Specs/Core/SimplePolylineGeometrySpec.js:159-168 | the packed form occupies 1 + 3n + 1 + 4m + 6 slots for n points and m colours |
| PolylineCodec.ReadCount | Specs/Core/SimplePolylineGeometrySpec.js:168-169 | a count slot is read exactly when it exists and holds a non-negative whole number, and the count read equals the slot |
| PolylineCodec.UnpackCartesians | Specs/Core/SimplePolylineGeometrySpec.js:168-169 | reads count points, point i from slots at + 3i .. at + 3i + 2 |
| PolylineCodec.UnpackColors | Specs/Core/SimplePolylineGeometrySpec.js:168-169 | reads count colours, colour i from slots at + 4i .. at + 4i + 3 |
| PolylineCodec.Unpack | Specs/Core/SimplePolylineGeometrySpec.js:168-169 | a successful read ends exactly PackedLength slots after the start, inside the buffer, and never yields an empty colour list |
| PolylineCodec.UnpackCounted | Specs/Core/SimplePolylineGeometrySpec.js:168-169 | with the counts read, the geometry has n points and m colours and ends 1 + 3n + 1 + 4m + 6 slots after the start |
| PolylineCodec.UnpackCartesiansOfPacked | Specs/Core/SimplePolylineGeometrySpec.js:168-169 | reading back packed points gives the points |
| PolylineCodec.UnpackColorsOfPacked | Specs/Core/SimplePolylineGeometrySpec.js:168-169 | reading back packed colours gives the colours |
| PolylineCodec.UnpackPack | Specs/Core/SimplePolylineGeometrySpec.js:159-212 | round trip: a geometry packed anywhere in a buffer unpacks from its offset to itself, and the returned offset is just past it |
| PolylineCodec.UnpackPacked | Specs/Core/SimplePolylineGeometrySpec.js:159-212 | the round trip for any buffer that holds Pack(g) at the given offset |
| PolylineCodec.UnpackPackExact | Specs/Core/SimplePolylineGeometrySpec.js:159-212 | the round trip at offset 0 for every constructed geometry |
| PolylineCodec.PackUnpackedCartesians | Specs/Core/SimplePolylineGeometrySpec.js:168-169 | packing the points read from a stretch reproduces the stretch |
| PolylineCodec.PackUnpackedColors | Specs/Core/SimplePolylineGeometrySpec.js:168-169 | packing the colours read from a stretch reproduces the stretch |
| PolylineCodec.PackUnpack | Specs/Core/SimplePolylineGeometrySpec.js:159-212 | the converse round trip: whatever Unpack reads, packing it again reproduces exactly the slots it read, when the flag slot held 0 or 1 |
| PolylineCodec.PackUnpackCounted | Specs/Core/SimplePolylineGeometrySpec.js:159-212 | the converse round trip once the counts are read |
| PolylineCodec.Overwrite | Specs/Core/SimplePolylineGeometrySpec.js:168-169 | slot k of the result is w[k − at] inside the written stretch and the old slot elsewhere; the length is unchanged |
| PolylineCodec.OverwritePack | Specs/Core/SimplePolylineGeometrySpec.js:159-168 | the packer's five writes, one after another, amount to writing Pack(g) at the start |
| PolylineCodec.PackInto | Specs/Core/SimplePolylineGeometrySpec.js:159-168 | the array afterwards holds Pack(g) from the start offset and its old contents everywhere else; the returned index is just past the packed slots |
| PolylineCodec.WriteSlot | Specs/Core/SimplePolylineGeometrySpec.js:168 | one count slot is written and nothing else changes |
| PolylineCodec.PackCartesiansInto | Specs/Core/SimplePolylineGeometrySpec.js:168 | the loop writes PackCartesians(ps) at the offset and nothing else |
| PolylineCodec.PackColorsInto | Specs/Core/SimplePolylineGeometrySpec.js:168 | the loop writes PackColors(cs) at the offset and nothing else |
| PolylineCodec.PackTailInto | Specs/Core/SimplePolylineGeometrySpec.js:168 | the radii, flag, line-type code and granularity are written at the offset and nothing else |
| PolylineMesh.Fraction | Specs/Core/SimplePolylineGeometrySpec.js:46-58 | every interior fraction passed to the interpolation routine lies strictly between 0 and 1 |
| PolylineMesh.InteriorPoints | Specs/Core/SimplePolylineGeometrySpec.js:46-58 | a segment gets exactly as many interior points as the subdivision routine asks for |
| PolylineMesh.InteriorColors | Specs/Core/SimplePolylineGeometrySpec.js:98-113 | one blended colour per interior point |
| PolylineMesh.SharedVertices | Specs/Core/SimplePolylineGeometrySpec.js:46-80 | a subdivided line without per-segment colours has n + (interior points) vertices, starting at the first point and ending at the last |
| PolylineMesh.SharedVerticesKeepInputs | Specs/Core/SimplePolylineGeometrySpec.js:46-80 | input point i sits in the subdivided mesh at i plus the interior points of the segments before it |
| PolylineMesh.SegmentVertices | Specs/Core/SimplePolylineGeometrySpec.js:82-96 | with per-segment colours a subdivided line has 2(n − 1) + (interior points) vertices |
| PolylineMesh.VertexColorsKeepInputs | Specs/Core/SimplePolylineGeometrySpec.js:98-113 | per-vertex colours: input point i's colour sits at the same index as the point itself in the subdivided mesh |
| PolylineMesh.VertexColors | Specs/Core/SimplePolylineGeometrySpec.js:98-113 | per-vertex colours: one colour per vertex of the subdivided mesh |
| PolylineMesh.SegmentColors | Specs/Core/SimplePolylineGeometrySpec.js:82-96 | per-segment colours: one colour per vertex of the per-segment mesh, each a given colour (no blending) |
| PolylineMesh.StraightSegmentVertices | Specs/Core/SimplePolylineGeometrySpec.js:128-141 | without subdivision, per-segment colours give 2(n − 1) vertices |
| PolylineMesh.StraightSegmentColors | Specs/Core/SimplePolylineGeometrySpec.js:128-141 | without subdivision, per-segment colours give 2(n − 1) colours |
| PolylineMesh.StraightSegmentLayout | Specs/Core/SimplePolylineGeometrySpec.js:128-141 | vertices 2i and 2i + 1 of that mesh are segment i's endpoints, both in colour i |
| PolylineMesh.LineIndices | Specs/Core/SimplePolylineGeometrySpec.js:115-126 | 2(v − 1) indices for v vertices, pair k being (k, k + 1), all below v |
| PolylineMesh.CreateGeometry | Specs/Core/SimplePolylineGeometrySpec.js:46-58 | the mesh is LINES, its bounding sphere is fromPoints of the input points, and it has colours exactly when the geometry has |
| PolylineMesh.CreateGeometryCounts | Specs/Core/SimplePolylineGeometrySpec.js:82-157 | 3 position values and 4 colour values per vertex and 2(v − 1) indices, where v is counted independently: n, or 2(n − 1) with per-segment colours, plus the interior points |
| PolylineMesh.StraightNotSubdivided | Specs/Core/SimplePolylineGeometrySpec.js:115-126 | a STRAIGHT line's position values, colour values and indices are the same whatever the subdivision routines return |
| PolylineMesh.StraightKeepsPositions | Specs/Core/SimplePolylineGeometrySpec.js:115-126 | a STRAIGHT line without per-segment colours has the input coordinates as its position values and the chain (k, k + 1) as its indices |
| PolylineMesh.NoInteriorShared | Specs/Core/SimplePolylineGeometrySpec.js:46-80 | when no segment gets interior points, the subdivided vertices are the input points |
| PolylineMesh.NoInteriorSegments | Specs/Core/SimplePolylineGeometrySpec.js:82-96 | when no segment gets interior points, the per-segment mesh and colours are the straight ones |
| PolylineMesh.NoInteriorVertexColors | Specs/Core/SimplePolylineGeometrySpec.js:98-113 | when no segment gets interior points, the per-vertex colours are the given ones |
| PolylineMesh.NoInteriorVertices | Specs/Core/SimplePolylineGeometrySpec.js:46-80 | when no segment gets interior points, the mesh vertices are those of the STRAIGHT line |
| PolylineMesh.NoInteriorColors | Specs/Core/SimplePolylineGeometrySpec.js:82-113 | when no segment gets interior points, the mesh colours are those of the STRAIGHT line |
| PolylineMesh.NoInteriorIsStraight | Specs/Core/SimplePolylineGeometrySpec.js:46-80 | a GEODESIC or RHUMB line whose segments get no interior points gives exactly the mesh of the STRAIGHT line over the same points |
| PolylineSpecVectors.ConstructorRejects | Specs/Core/SimplePolylineGeometrySpec.js:23-44 | no points, one point, and an empty colour list are each rejected, with the matching error |
| PolylineSpecVectors.ColorsLowerBound | Specs/Core/SimplePolylineGeometrySpec.js:37-44 | with at least two points, a colour list is accepted exactly when it has at least n (per vertex) or n − 1 (per segment) colours; lines 37–44 show only the empty list rejected, so the exact threshold is a reconstruction |
| PolylineSpecVectors.ThreeColorsAccepted | Specs/Core/SimplePolylineGeometrySpec.js:82-113 | three colours over three points are accepted in both colour modes |
| PolylineSpecVectors.NoSubdivisionMesh | Specs/Core/SimplePolylineGeometrySpec.js:115-126 | (0,0,0), (1,0,0), (2,0,0) without surface following give exactly those position values, indices [0, 1, 1, 2], LINES and fromPoints of the points |
| PolylineSpecVectors.CoarseSurfaceMesh | Specs/Core/SimplePolylineGeometrySpec.js:46-80 | a GEODESIC or RHUMB line over any three points, with granularity π and the unit-sphere ellipsoid, whose segments get no interior points has the packed input as position values, indices [0, 1, 1, 2] and fromPoints of the points |
| PolylineSpecVectors.ColorValueCounts | Specs/Core/SimplePolylineGeometrySpec.js:82-157 | three points with three colours give 16 colour values per segment and 12 per vertex: without surface following (default granularity and ellipsoid, lines 128–157) for every subdivision routine, and following the surface with granularity π on the unit sphere (lines 82–113) when the routine gives no interior points |
| PolylineSpecVectors.PackThree | Specs/Core/SimplePolylineGeometrySpec.js:73-76 | three points pack to their nine coordinates in order |
| PolylineSpecVectors.PackThreeColors | Specs/Core/SimplePolylineGeometrySpec.js:159-168 | three colours pack to their twelve components in order |
| PolylineSpecVectors.IndicesOfThree | Specs/Core/SimplePolylineGeometrySpec.js:55 | three vertices give the indices [0, 1, 1, 2] |
| PolylineSpecVectors.PackedPerVertexColors | Specs/Core/SimplePolylineGeometrySpec.js:159-168 | the per-vertex-colour instance is accepted and packs to the 29-value vector of the test |
| PolylineSpecVectors.PackedPerVertexInstance | Specs/Core/SimplePolylineGeometrySpec.js:159-168 | the stored geometry of that instance packs to the 29-value vector |
| PolylineSpecVectors.PackPointsThreeColors | Specs/Core/SimplePolylineGeometrySpec.js:159-168 | the three test points with three colours pack to the counts and coordinates, then the colour components, then the tail |
| PolylineSpecVectors.PackedNoColorsStraight | Specs/Core/SimplePolylineGeometrySpec.js:171-178 | the instance without colours that does not follow the surface packs to the 17-value vector of the test |
| PolylineSpecVectors.PackPointsNoColors | Specs/Core/SimplePolylineGeometrySpec.js:171-178 | the three test points without colours pack to the counts and coordinates, then the tail |
| PolylineSpecVectors.PackedLineType | Specs/Core/SimplePolylineGeometrySpec.js:181-212 | the width-10 GEODESIC, RHUMB and STRAIGHT instances pack to the test vectors, which differ only in the code 0, 1 or 2 |
| PolylineSpecVectors.StraightInstancesCoincide | Specs/Core/SimplePolylineGeometrySpec.js:171-212 | the instance that does not follow the surface and the width-10 STRAIGHT instance are the same geometry, which is why their vectors coincide |
| PolylineSpecVectors.TestVectorsRoundTrip | Specs/Core/SimplePolylineGeometrySpec.js:169-212 | every accepted instance, the tested ones included, unpacks from its packed vector to itself |

## Left out

- Geodesic and rhumb subdivision is not modelled. The number of interior points per segment and where they lie come from ellipsoid geodesic and rhumb-line routines, which are floating-point trigonometry. They are the `interiorCount` and `interpolate` parameters of `Collaborators`.
- Colour blending along a segment is the `lerp` parameter, because it is floating-point interpolation in the Color type.
- BoundingSphere.fromPoints is the `fromPoints` parameter, because it is a floating-point routine outside this class.
- The conversion of colour components to bytes is not modelled. Colour values are the real components.
- The `Geometry` and `GeometryAttribute` containers and typed-array allocation are library plumbing. `Geometry` keeps only the flat values, the indices, the primitive type and the sphere.
- Numbers are exact reals, so the epsilon comparisons of the tests at lines 54 and 76 become exact equalities.
- The Jasmine matchers and the `createPackableSpecs` harness are not modelled. What the harness checks, that pack then unpack gives back the instance, is stated by `UnpackPack` and `TestVectorsRoundTrip`.
- Reuse of an optional `result` object by unpack is not modelled, because it is JavaScript object identity. `Unpack` returns a fresh value.
- The ellipsoid constructor's own argument checks are not modelled, because Ellipsoid is a separate class. An ellipsoid is its three radii.
- `PackInto` requires the array to be long enough. A JavaScript array grows on writes past its end; a Dafny array cannot.
- Unpack: rejects what the library would read without checking: a buffer too short for its own counts, a count that is not a non-negative whole number, and a line-type code other than 0, 1 or 2. The library reads whatever the slots hold.
- PackUnpack: requires the flag slot to hold 0 or 1. Any other value reads as "not per vertex" and packs back as 0, so only canonical buffers reproduce slot for slot.
- CoarseSurfaceMesh: takes it as a hypothesis that granularity π on the unit sphere gives neither segment interior points, because the count is computed by the subdivision parameter.
- ColorValueCounts: in the two cases that follow the surface (lines 82–113, granularity π on the unit sphere, as in CoarseSurfaceMesh), takes it as a hypothesis that neither segment gets interior points. The cases without surface following (lines 128–157, default granularity and ellipsoid) hold for every subdivision routine.
- `DefaultOptions` uses one degree in radians as the default granularity and WGS84 as the default ellipsoid. No test asserts either value, and no lemma depends on them.
