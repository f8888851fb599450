/**
 * The flat-array codec of SimplePolylineGeometry, used to hand a geometry to a
 * worker. Layout, in order: the position count, the positions (x, y, z each),
 * the colour count (0 when there are no colours), the colours (red, green,
 * blue, alpha each), the ellipsoid radii, the colorsPerVertex flag (1 or 0),
 * the line-type code and the granularity. Width is not part of the layout.
 */
module PolylineCodec {
  import opened Wrappers
  import opened SimplePolyline

  /** The stable line-type codes: GEODESIC 0, RHUMB 1, STRAIGHT 2. */
  function LineTypeCode(t: LineType): (r: real)
    ensures 0.0 <= r <= 2.0
    ensures LineTypeFromCode(r) == Some(t)
  {
    match t
    case Geodesic => 0.0
    case Rhumb => 1.0
    case Straight => 2.0
  }

  function LineTypeFromCode(c: real): (r: Option<LineType>)
    ensures r.Some? <==> c == 0.0 || c == 1.0 || c == 2.0
  {
    if c == 0.0 then Some(Geodesic)
    else if c == 1.0 then Some(Rhumb)
    else if c == 2.0 then Some(Straight)
    else None
  }

  /** The colours as packed: none when the geometry has no colour list. */
  function PackedColors(g: SimplePolylineGeometry): seq<Color>
  {
    if g.colors.Some? then g.colors.value else []
  }

  function ColorCount(g: SimplePolylineGeometry): nat
  {
    |PackedColors(g)|
  }

  /** The six slots after the colours: radii, flag, line-type code, granularity. */
  function PackTail(g: SimplePolylineGeometry): (r: seq<real>)
  {
    [g.ellipsoid.rx, g.ellipsoid.ry, g.ellipsoid.rz,
     if g.colorsPerVertex then 1.0 else 0.0, LineTypeCode(g.lineType), g.granularity]
  }

  /** The number of array slots a packed geometry occupies. */
  function PackedLength(g: SimplePolylineGeometry): nat
  {
    1 + 3 * |g.positions| + 1 + 4 * ColorCount(g) + 3 + 3
  }

  /** The geometry written out in the flat layout. */
  function Pack(g: SimplePolylineGeometry): (r: seq<real>)
    ensures |r| == PackedLength(g)
  {
    [|g.positions| as real]
    + PackCartesians(g.positions)
    + [ColorCount(g) as real]
    + PackColors(PackedColors(g))
    + PackTail(g)
  }

  /** A count slot holds a non-negative whole number. */
  function ReadCount(buf: seq<real>, at: nat): (r: Option<nat>)
    ensures r.Some? <==> at < |buf| && buf[at] >= 0.0 && buf[at].Floor as real == buf[at]
    ensures r.Some? ==> r.value as real == buf[at]
  {
    if at < |buf| && buf[at] >= 0.0 && buf[at].Floor as real == buf[at] then
      Some(buf[at].Floor)
    else
      None
  }

  /** Cartesian3.unpack applied to `count` consecutive points starting at `at`. */
  function UnpackCartesians(buf: seq<real>, at: nat, count: nat): (r: seq<Cartesian3>)
    requires at + 3 * count <= |buf|
    ensures |r| == count
    ensures forall i :: 0 <= i < count ==>
              r[i] == Cartesian3(buf[at + 3 * i], buf[at + 3 * i + 1], buf[at + 3 * i + 2])
    decreases count
  {
    if count == 0 then []
    else [Cartesian3(buf[at], buf[at + 1], buf[at + 2])] + UnpackCartesians(buf, at + 3, count - 1)
  }

  /** Color.unpack applied to `count` consecutive colours starting at `at`. */
  function UnpackColors(buf: seq<real>, at: nat, count: nat): (r: seq<Color>)
    requires at + 4 * count <= |buf|
    ensures |r| == count
    ensures forall i :: 0 <= i < count ==>
              r[i] == Color(buf[at + 4 * i], buf[at + 4 * i + 1], buf[at + 4 * i + 2], buf[at + 4 * i + 3])
    decreases count
  {
    if count == 0 then []
    else [Color(buf[at], buf[at + 1], buf[at + 2], buf[at + 3])] + UnpackColors(buf, at + 4, count - 1)
  }

  /** An unpacked geometry and the index of the first slot after it. */
  datatype Unpacked = Unpacked(geometry: SimplePolylineGeometry, next: nat)

  /**
   * Reads a geometry starting at `start`. A colour count of 0 gives a geometry
   * without colours; the flag slot means "per vertex" only when it holds 1.
   * A buffer too short for its own counts, a count that is not a whole
   * number, or an unknown line-type code gives None.
   */
  function Unpack(buf: seq<real>, start: nat): (r: Option<Unpacked>)
    ensures r.Some? ==> r.value.next == start + PackedLength(r.value.geometry) <= |buf|
    ensures r.Some? ==> (r.value.geometry.colors.Some? ==> |r.value.geometry.colors.value| > 0)
  {
    match ReadCount(buf, start)
    case None => None
    case Some(n) =>
      match ReadCount(buf, start + 1 + 3 * n)
      case None => None
      case Some(m) => UnpackCounted(buf, start, n, m)
  }

  /** The rest of Unpack once the position count n and the colour count m are read. */
  function UnpackCounted(buf: seq<real>, start: nat, n: nat, m: nat): (r: Option<Unpacked>)
    ensures r.Some? ==> r.value.next == start + 1 + 3 * n + 1 + 4 * m + 6 <= |buf|
    ensures r.Some? ==> |r.value.geometry.positions| == n && ColorCount(r.value.geometry) == m
  {
    var colorsAt := start + 1 + 3 * n;
    var tail := colorsAt + 1 + 4 * m;
    if tail + 6 > |buf| then None
    else
      match LineTypeFromCode(buf[tail + 4])
      case None => None
      case Some(lineType) =>
        var g := SimplePolylineGeometry(
          UnpackCartesians(buf, start + 1, n),
          if m == 0 then None else Some(UnpackColors(buf, colorsAt + 1, m)),
          buf[tail + 3] == 1.0,
          lineType,
          buf[tail + 5],
          Ellipsoid(buf[tail], buf[tail + 1], buf[tail + 2]));
        Some(Unpacked(g, tail + 6))
  }

  /** Unpacking the points of a packed point list gives the list back. */
  lemma {:induction false} UnpackCartesiansOfPacked(buf: seq<real>, at: nat, ps: seq<Cartesian3>)
    requires at + 3 * |ps| <= |buf|
    requires buf[at .. at + 3 * |ps|] == PackCartesians(ps)
    ensures UnpackCartesians(buf, at, |ps|) == ps
  {
    var r := UnpackCartesians(buf, at, |ps|);
    forall i | 0 <= i < |ps| ensures r[i] == ps[i] {
      var w := buf[at .. at + 3 * |ps|];
      assert buf[at + 3 * i] == w[3 * i];
      assert buf[at + 3 * i + 1] == w[3 * i + 1];
      assert buf[at + 3 * i + 2] == w[3 * i + 2];
    }
  }

  /** Unpacking the components of a packed colour list gives the list back. */
  lemma {:induction false} UnpackColorsOfPacked(buf: seq<real>, at: nat, cs: seq<Color>)
    requires at + 4 * |cs| <= |buf|
    requires buf[at .. at + 4 * |cs|] == PackColors(cs)
    ensures UnpackColors(buf, at, |cs|) == cs
  {
    var r := UnpackColors(buf, at, |cs|);
    forall i | 0 <= i < |cs| ensures r[i] == cs[i] {
      var w := buf[at .. at + 4 * |cs|];
      assert buf[at + 4 * i] == w[4 * i];
      assert buf[at + 4 * i + 1] == w[4 * i + 1];
      assert buf[at + 4 * i + 2] == w[4 * i + 2];
      assert buf[at + 4 * i + 3] == w[4 * i + 3];
    }
  }

  /**
   * Round trip: a geometry packed anywhere inside a buffer unpacks, from its
   * start offset, to itself, and the returned offset is just past it. A
   * present colour list must be non-empty, which every constructed geometry
   * guarantees (ValidColorsNonEmpty).
   */
  lemma UnpackPack(g: SimplePolylineGeometry, before: seq<real>, after: seq<real>)
    requires g.colors.Some? ==> |g.colors.value| > 0
    ensures Unpack(before + Pack(g) + after, |before|) == Some(Unpacked(g, |before| + PackedLength(g)))
  {
    var p := Pack(g);
    var buf := before + p + after;
    assert buf[|before| .. |before| + |p|] == p;
    UnpackPacked(g, buf, |before|);
  }

  /** The round trip, for any buffer that holds Pack(g) at `s`. */
  lemma UnpackPacked(g: SimplePolylineGeometry, buf: seq<real>, s: nat)
    requires g.colors.Some? ==> |g.colors.value| > 0
    requires s + PackedLength(g) <= |buf| && buf[s .. s + PackedLength(g)] == Pack(g)
    ensures Unpack(buf, s) == Some(Unpacked(g, s + PackedLength(g)))
  {
    var n, m := |g.positions|, ColorCount(g);
    var c, t := s + 1 + 3 * n, s + 2 + 3 * n + 4 * m;
    SlicesOfPack(g, buf, s, c, t);
    UnpackCountedSlices(g, buf, s, c, t);
    UnpackOfCounts(buf, s, n, m, c);
  }

  /**
   * Where each part of the layout sits in a slice holding Pack(g) at s: the
   * colour count at c, the tail at t.
   */
  lemma SlicesOfPack(g: SimplePolylineGeometry, buf: seq<real>, s: nat, c: nat, t: nat)
    requires c == s + 1 + 3 * |g.positions| && t == c + 1 + 4 * ColorCount(g) && t + 6 <= |buf|
    requires buf[s .. t + 6] == Pack(g)
    ensures buf[s] == |g.positions| as real && buf[c] == ColorCount(g) as real
    ensures buf[s + 1 .. c] == PackCartesians(g.positions)
    ensures buf[c + 1 .. t] == PackColors(PackedColors(g))
    ensures buf[t .. t + 6] == PackTail(g)
  {
    SliceSplit(buf, s, t, t + 6);
    SliceSplit(buf, s, c + 1, t);
    SliceSplit(buf, s, c, c + 1);
    SliceSplit(buf, s, s + 1, c);
    assert buf[s .. s + 1] == [buf[s]];
    assert buf[c .. c + 1] == [buf[c]];
    var a := [|g.positions| as real] + PackCartesians(g.positions);
    var b := a + [ColorCount(g) as real];
    var d := b + PackColors(PackedColors(g));
    AppendCancel(buf[s .. t], buf[t .. t + 6], d, PackTail(g));
    AppendCancel(buf[s .. c + 1], buf[c + 1 .. t], b, PackColors(PackedColors(g)));
    AppendCancel(buf[s .. c], buf[c .. c + 1], a, [ColorCount(g) as real]);
    AppendCancel(buf[s .. s + 1], buf[s + 1 .. c], [|g.positions| as real], PackCartesians(g.positions));
  }

  /** Two concatenations with equally long first parts are equal part by part. */
  lemma AppendCancel(a: seq<real>, b: seq<real>, x: seq<real>, y: seq<real>)
    requires a + b == x + y && |a| == |x|
    ensures a == x && b == y
  {
    assert a == (a + b)[..|a|] && x == (x + y)[..|x|];
    assert b == (a + b)[|a|..] && y == (x + y)[|x|..];
  }

  /** With both counts in place, Unpack is UnpackCounted with those counts. */
  lemma UnpackOfCounts(buf: seq<real>, s: nat, n: nat, m: nat, c: nat)
    requires c == s + 1 + 3 * n && c < |buf|
    requires buf[s] == n as real && buf[c] == m as real
    ensures Unpack(buf, s) == UnpackCounted(buf, s, n, m)
  {
    ReadCountOf(buf, s, n);
    ReadCountOf(buf, c, m);
  }

  /** A slot holding a whole number reads as that count. */
  lemma ReadCountOf(buf: seq<real>, at: nat, k: nat)
    requires at < |buf| && buf[at] == k as real
    ensures ReadCount(buf, at) == Some(k)
  {
    assert (k as real).Floor == k;
  }

  /** UnpackCounted, given the right counts, reads back each part of the layout. */
  lemma UnpackCountedSlices(g: SimplePolylineGeometry, buf: seq<real>, s: nat, c: nat, t: nat)
    requires g.colors.Some? ==> |g.colors.value| > 0
    requires c == s + 1 + 3 * |g.positions| && t == c + 1 + 4 * ColorCount(g) && t + 6 <= |buf|
    requires buf[s + 1 .. c] == PackCartesians(g.positions)
    requires buf[c + 1 .. t] == PackColors(PackedColors(g))
    requires buf[t .. t + 6] == PackTail(g)
    ensures UnpackCounted(buf, s, |g.positions|, ColorCount(g)) == Some(Unpacked(g, t + 6))
  {
    var n, m := |g.positions|, ColorCount(g);
    UnpackCartesiansOfPacked(buf, s + 1, g.positions);
    UnpackColorsOfPacked(buf, c + 1, PackedColors(g));
    assert g.colors == if m == 0 then None else Some(PackedColors(g));
    TailFields(g, buf, t);
    UnpackCountedFields(g, buf, s, n, m, c, t);
  }

  /** The six tail slots of a packed geometry give back its radii, flag, line type and granularity. */
  lemma TailFields(g: SimplePolylineGeometry, buf: seq<real>, t: nat)
    requires t + 6 <= |buf| && buf[t .. t + 6] == PackTail(g)
    ensures g.ellipsoid == Ellipsoid(buf[t], buf[t + 1], buf[t + 2])
    ensures g.colorsPerVertex == (buf[t + 3] == 1.0)
    ensures LineTypeFromCode(buf[t + 4]) == Some(g.lineType)
    ensures g.granularity == buf[t + 5]
  {
    var w := buf[t .. t + 6];
    assert w[0] == buf[t] && w[1] == buf[t + 1] && w[2] == buf[t + 2];
    assert w[3] == buf[t + 3] && w[4] == buf[t + 4] && w[5] == buf[t + 5];
  }

  /**
   * UnpackCounted gives back `g` when each field of `g` is what it reads; c
   * and t are where the colour count and the tail sit.
   */
  lemma UnpackCountedFields(g: SimplePolylineGeometry, buf: seq<real>, s: nat, n: nat, m: nat, c: nat, t: nat)
    requires c == s + 1 + 3 * n && t == c + 1 + 4 * m && t + 6 <= |buf|
    requires g.positions == UnpackCartesians(buf, s + 1, n)
    requires g.colors == if m == 0 then None else Some(UnpackColors(buf, c + 1, m))
    requires g.ellipsoid == Ellipsoid(buf[t], buf[t + 1], buf[t + 2])
    requires g.colorsPerVertex == (buf[t + 3] == 1.0)
    requires LineTypeFromCode(buf[t + 4]) == Some(g.lineType)
    requires g.granularity == buf[t + 5]
    ensures UnpackCounted(buf, s, n, m) == Some(Unpacked(g, t + 6))
  {
  }

  /** The round trip at offset 0 on an exactly sized buffer. */
  lemma UnpackPackExact(g: SimplePolylineGeometry)
    requires Valid(g)
    ensures Unpack(Pack(g), 0) == Some(Unpacked(g, |Pack(g)|))
  {
    ValidColorsNonEmpty(g);
    assert Pack(g)[0 .. |Pack(g)|] == Pack(g);
    UnpackPacked(g, Pack(g), 0);
  }

  /** Packing the points read from a slice reproduces the slice. */
  lemma {:induction false} PackUnpackedCartesians(buf: seq<real>, at: nat, count: nat)
    requires at + 3 * count <= |buf|
    ensures PackCartesians(UnpackCartesians(buf, at, count)) == buf[at .. at + 3 * count]
    decreases count
  {
    if count > 0 {
      var ps := UnpackCartesians(buf, at, count);
      PackUnpackedCartesians(buf, at + 3, count - 1);
      assert ps[1..] == UnpackCartesians(buf, at + 3, count - 1);
      assert buf[at .. at + 3 * count] == [buf[at], buf[at + 1], buf[at + 2]] + buf[at + 3 .. at + 3 * count];
    }
  }

  /** Packing the colours read from a slice reproduces the slice. */
  lemma {:induction false} PackUnpackedColors(buf: seq<real>, at: nat, count: nat)
    requires at + 4 * count <= |buf|
    ensures PackColors(UnpackColors(buf, at, count)) == buf[at .. at + 4 * count]
    decreases count
  {
    if count > 0 {
      var cs := UnpackColors(buf, at, count);
      PackUnpackedColors(buf, at + 4, count - 1);
      assert cs[1..] == UnpackColors(buf, at + 4, count - 1);
      assert buf[at .. at + 4 * count]
          == [buf[at], buf[at + 1], buf[at + 2], buf[at + 3]] + buf[at + 4 .. at + 4 * count];
    }
  }

  /**
   * The other direction: whatever Unpack reads, packing it again reproduces
   * the slots it read, provided the flag slot held the canonical 0 or 1.
   */
  lemma PackUnpack(buf: seq<real>, start: nat)
    requires Unpack(buf, start).Some?
    requires buf[Unpack(buf, start).value.next - 3] == 0.0 || buf[Unpack(buf, start).value.next - 3] == 1.0
    ensures Pack(Unpack(buf, start).value.geometry) == buf[start .. Unpack(buf, start).value.next]
  {
    var n := ReadCount(buf, start).value;
    var m := ReadCount(buf, start + 1 + 3 * n).value;
    assert Unpack(buf, start) == UnpackCounted(buf, start, n, m);
    PackUnpackCounted(buf, start, n, m);
  }

  lemma PackUnpackCounted(buf: seq<real>, start: nat, n: nat, m: nat)
    requires UnpackCounted(buf, start, n, m).Some?
    requires buf[start] == n as real && buf[start + 1 + 3 * n] == m as real
    requires var flag := buf[start + 1 + 3 * n + 1 + 4 * m + 3]; flag == 0.0 || flag == 1.0
    ensures Pack(UnpackCounted(buf, start, n, m).value.geometry)
         == buf[start .. UnpackCounted(buf, start, n, m).value.next]
  {
    var c, t := start + 1 + 3 * n, start + 2 + 3 * n + 4 * m;
    var g := UnpackCounted(buf, start, n, m).value.geometry;
    FieldsOfUnpackCounted(buf, start, n, m, c, t);
    SlotsOfTail(g, buf, t);
    PackOfFields(g, buf, start, n, m, c, t);
  }

  /** What each field of an unpacked geometry was read from; c and t are the colour count and tail offsets. */
  lemma FieldsOfUnpackCounted(buf: seq<real>, s: nat, n: nat, m: nat, c: nat, t: nat)
    requires UnpackCounted(buf, s, n, m).Some?
    requires c == s + 1 + 3 * n && t == c + 1 + 4 * m
    ensures var u := UnpackCounted(buf, s, n, m).value; var g := u.geometry;
      && u.next == t + 6 <= |buf|
      && g.positions == UnpackCartesians(buf, s + 1, n)
      && PackedColors(g) == UnpackColors(buf, c + 1, m)
      && g.ellipsoid == Ellipsoid(buf[t], buf[t + 1], buf[t + 2])
      && g.colorsPerVertex == (buf[t + 3] == 1.0)
      && LineTypeCode(g.lineType) == buf[t + 4]
      && g.granularity == buf[t + 5]
  {
    LineTypeCodeOfDecoded(buf[t + 4]);
  }

  /**
   * A geometry whose every field was read from `buf` packs back to the slots
   * it was read from; n and m are its point and colour counts, c and t the
   * colour count and tail offsets.
   */
  lemma PackOfFields(g: SimplePolylineGeometry, buf: seq<real>, s: nat, n: nat, m: nat, c: nat, t: nat)
    requires n == |g.positions| && m == ColorCount(g)
    requires c == s + 1 + 3 * n && t == c + 1 + 4 * m && t + 6 <= |buf|
    requires buf[s] == n as real && buf[c] == m as real
    requires g.positions == UnpackCartesians(buf, s + 1, n)
    requires PackedColors(g) == UnpackColors(buf, c + 1, m)
    requires buf[t .. t + 6] == PackTail(g)
    ensures Pack(g) == buf[s .. t + 6]
  {
    assert buf[s + 1 .. c] == PackCartesians(g.positions) by {
      PackUnpackedCartesians(buf, s + 1, n);
    }
    assert buf[c + 1 .. t] == PackColors(PackedColors(g)) by {
      PackUnpackedColors(buf, c + 1, m);
    }
    PackFromSlices(g, buf, s, c, t);
  }

  /** The six tail slots hold PackTail(g) when each was read into the matching field of g. */
  lemma SlotsOfTail(g: SimplePolylineGeometry, buf: seq<real>, t: nat)
    requires t + 6 <= |buf|
    requires g.ellipsoid == Ellipsoid(buf[t], buf[t + 1], buf[t + 2])
    requires buf[t + 3] == 0.0 || buf[t + 3] == 1.0
    requires g.colorsPerVertex == (buf[t + 3] == 1.0)
    requires LineTypeCode(g.lineType) == buf[t + 4]
    requires g.granularity == buf[t + 5]
    ensures buf[t .. t + 6] == PackTail(g)
  {
  }

  /**
   * A slice laid out part by part as Pack lays out `g`, with the colour count
   * at c and the tail at t, is Pack(g).
   */
  lemma PackFromSlices(g: SimplePolylineGeometry, buf: seq<real>, s: nat, c: nat, t: nat)
    requires c == s + 1 + 3 * |g.positions| && t == c + 1 + 4 * ColorCount(g) && t + 6 <= |buf|
    requires buf[s] == |g.positions| as real && buf[c] == ColorCount(g) as real
    requires buf[s + 1 .. c] == PackCartesians(g.positions)
    requires buf[c + 1 .. t] == PackColors(PackedColors(g))
    requires buf[t .. t + 6] == PackTail(g)
    ensures Pack(g) == buf[s .. t + 6]
  {
    SliceSplit(buf, s, t, t + 6);
    SliceSplit(buf, s, c + 1, t);
    SliceSplit(buf, s, c, c + 1);
    SliceSplit(buf, s, s + 1, c);
    assert buf[s .. s + 1] == [buf[s]];
    assert buf[c .. c + 1] == [buf[c]];
  }

  /** A slice cut in two at j. */
  lemma SliceSplit(buf: seq<real>, i: nat, j: nat, k: nat)
    requires i <= j <= k <= |buf|
    ensures buf[i .. k] == buf[i .. j] + buf[j .. k]
  {
  }

  /** A code that decodes to a line type is that line type's code. */
  lemma LineTypeCodeOfDecoded(c: real)
    requires LineTypeFromCode(c).Some?
    ensures LineTypeCode(LineTypeFromCode(c).value) == c
  {
  }

  /** `s` with the slots from `at` on replaced by `w`. */
  function Overwrite(s: seq<real>, at: nat, w: seq<real>): (r: seq<real>)
    requires at + |w| <= |s|
    ensures |r| == |s|
    ensures forall k :: 0 <= k < |s| ==> r[k] == if at <= k < at + |w| then w[k - at] else s[k]
  {
    s[..at] + w + s[at + |w| ..]
  }

  /** Overwriting two adjacent stretches is overwriting with their concatenation. */
  lemma OverwriteAdjacent(s: seq<real>, at: nat, u: seq<real>, v: seq<real>)
    requires at + |u| + |v| <= |s|
    ensures Overwrite(Overwrite(s, at, u), at + |u|, v) == Overwrite(s, at, u + v)
  {
    var l := Overwrite(Overwrite(s, at, u), at + |u|, v);
    var r := Overwrite(s, at, u + v);
    forall k | 0 <= k < |s| ensures l[k] == r[k] {
      if at <= k < at + |u| + |v| {
        assert r[k] == (u + v)[k - at];
      }
    }
  }

  /**
   * Packs `g` into a caller-supplied array at `start`: the array afterwards
   * holds Pack(g) from `start` on and its old contents everywhere else; the
   * index just past the packed slots is returned.
   */
  method PackInto(g: SimplePolylineGeometry, a: array<real>, start: nat) returns (next: nat)
    requires start + PackedLength(g) <= a.Length
    modifies a
    ensures next == start + PackedLength(g)
    ensures a[..] == Overwrite(old(a[..]), start, Pack(g))
  {
    var positions := g.positions;
    var colors := PackedColors(g);
    var colorsAt := start + 1 + 3 * |positions|;
    var tail := colorsAt + 1 + 4 * |colors|;
    ghost var s0 := a[..];
    WriteSlot(a, start, |positions| as real);
    PackCartesiansInto(positions, a, start + 1);
    WriteSlot(a, colorsAt, |colors| as real);
    PackColorsInto(colors, a, colorsAt + 1);
    PackTailInto(g, a, tail);
    next := tail + 6;
    OverwritePack(g, s0, start);
  }

  /** The five writes of PackInto, one after the other, overwrite with Pack(g). */
  lemma OverwritePack(g: SimplePolylineGeometry, s: seq<real>, start: nat)
    requires start + PackedLength(g) <= |s|
    ensures var n, m := |g.positions|, ColorCount(g);
      Overwrite(Overwrite(Overwrite(Overwrite(Overwrite(s,
        start, [n as real]),
        start + 1, PackCartesians(g.positions)),
        start + 1 + 3 * n, [m as real]),
        start + 2 + 3 * n, PackColors(PackedColors(g))),
        start + 2 + 3 * n + 4 * m, PackTail(g))
      == Overwrite(s, start, Pack(g))
  {
    var n, m := |g.positions|, ColorCount(g);
    var p1 := [n as real];
    var p2 := p1 + PackCartesians(g.positions);
    var p3 := p2 + [m as real];
    var p4 := p3 + PackColors(PackedColors(g));
    OverwriteAdjacent(s, start, p1, PackCartesians(g.positions));
    OverwriteAdjacent(s, start, p2, [m as real]);
    OverwriteAdjacent(s, start, p3, PackColors(PackedColors(g)));
    OverwriteAdjacent(s, start, p4, PackTail(g));
  }

  /** `array[index] = value` as a step of the packer. */
  method WriteSlot(a: array<real>, at: nat, x: real)
    requires at < a.Length
    modifies a
    ensures a[..] == Overwrite(old(a[..]), at, [x])
  {
    a[at] := x;
    assert a[..] == old(a[..])[at := x];
  }

  /** Cartesian3.pack for each point in turn, from `at` on. */
  method PackCartesiansInto(ps: seq<Cartesian3>, a: array<real>, at: nat)
    requires at + 3 * |ps| <= a.Length
    modifies a
    ensures a[..] == Overwrite(old(a[..]), at, PackCartesians(ps))
  {
    ghost var packed := PackCartesians(ps);
    var i, index := 0, at;
    while i < |ps|
      invariant 0 <= i <= |ps| && index == at + 3 * i
      invariant forall k :: 0 <= k < 3 * i ==> a[at + k] == packed[k]
      invariant forall k :: 0 <= k < a.Length && (k < at || k >= index) ==> a[k] == old(a[k])
    {
      a[index], a[index + 1], a[index + 2] := ps[i].x, ps[i].y, ps[i].z;
      i, index := i + 1, index + 3;
    }
    ghost var r := Overwrite(old(a[..]), at, packed);
    assert a[..] == r;
  }

  /** Color.pack for each colour in turn, from `at` on. */
  method PackColorsInto(cs: seq<Color>, a: array<real>, at: nat)
    requires at + 4 * |cs| <= a.Length
    modifies a
    ensures a[..] == Overwrite(old(a[..]), at, PackColors(cs))
  {
    ghost var packed := PackColors(cs);
    var i, index := 0, at;
    while i < |cs|
      invariant 0 <= i <= |cs| && index == at + 4 * i
      invariant forall k :: 0 <= k < 4 * i ==> a[at + k] == packed[k]
      invariant forall k :: 0 <= k < a.Length && (k < at || k >= index) ==> a[k] == old(a[k])
    {
      a[index], a[index + 1], a[index + 2], a[index + 3] := cs[i].red, cs[i].green, cs[i].blue, cs[i].alpha;
      i, index := i + 1, index + 4;
    }
    ghost var r := Overwrite(old(a[..]), at, packed);
    assert a[..] == r;
  }

  /** The six slots after the colours, from `at` on. */
  method PackTailInto(g: SimplePolylineGeometry, a: array<real>, at: nat)
    requires at + 6 <= a.Length
    modifies a
    ensures a[..] == Overwrite(old(a[..]), at, PackTail(g))
  {
    a[at], a[at + 1], a[at + 2] := g.ellipsoid.rx, g.ellipsoid.ry, g.ellipsoid.rz;
    a[at + 3] := if g.colorsPerVertex then 1.0 else 0.0;
    a[at + 4] := LineTypeCode(g.lineType);
    a[at + 5] := g.granularity;
    ghost var r := Overwrite(old(a[..]), at, PackTail(g));
    assert a[..] == r;
  }
}
