/** The inverse of the header layout: the 1000 octets that store a header,
    and the proof that decoding them under the same byte order gives the
    header back. */
module HeaderCodec {
  import opened Primitives
  import opened TrakUtils
  import opened TrakHeader

  // ---------------------------------------------------------------------
  // Characters and string fields

  /** The chars that are `(char)` of some `byte`: U+0000 .. U+007F and
      U+FF80 .. U+FFFF. */
  predicate IsByteChar(c: char) {
    c as int < 0x80 || 0xFF80 <= c as int <= 0xFFFF
  }

  /** The octet whose `(char)` is `c`. */
  function OctetOf(c: char): (b: Byte)
    requires IsByteChar(c)
    ensures CharOf(Int8Of(b)) == c
    ensures b == 0 <==> c == 0 as char
  {
    if c as int < 0x80 then c as int else c as int - 0xFF00
  }

  /** `s` can be stored in a string field of `width` octets and read back:
      it fits, has no NUL and only chars of octets. */
  predicate FitsField(s: string, width: nat) {
    |s| <= width && forall i :: 0 <= i < |s| ==> s[i] != 0 as char && IsByteChar(s[i])
  }

  /** A string field: the octets of `s`, padded with zero octets. */
  function EncodeString(s: string, width: nat): (bytes: seq<Byte>)
    requires FitsField(s, width)
    ensures |bytes| == width
  {
    seq(width, i requires 0 <= i < width => if i < |s| then OctetOf(s[i]) else 0)
  }

  lemma StringRoundTrip(s: string, width: nat)
    requires FitsField(s, width)
    ensures StringOf(EncodeString(s, width)) == s
  {
    DecodesToUnique(EncodeString(s, width), s);
  }

  // ---------------------------------------------------------------------
  // Names, floats, matrix and raw blocks

  predicate NamesFit(names: seq<string>) {
    |names| == 10 && forall k :: 0 <= k < 10 ==> FitsField(names[k], 20)
  }

  function NameChunks(names: seq<string>): (chunks: seq<seq<Byte>>)
    requires NamesFit(names)
    ensures |chunks| == 10 && forall k :: 0 <= k < 10 ==> chunks[k] == EncodeString(names[k], 20)
  {
    seq(10, k requires 0 <= k < 10 => EncodeString(names[k], 20))
  }

  function EncodeNames(names: seq<string>): (bytes: seq<Byte>)
    requires NamesFit(names)
    ensures |bytes| == 200
  {
    FlattenLength(NameChunks(names), 20);
    Flatten(NameChunks(names))
  }

  lemma NamesRoundTrip(names: seq<string>)
    requires NamesFit(names)
    ensures NamesAt(EncodeNames(names), 0) == names
  {
    forall k | 0 <= k < 10
      ensures NamesAt(EncodeNames(names), 0)[k] == names[k]
    {
      NameSlotRoundTrip(names, k);
    }
  }

  lemma NameSlotRoundTrip(names: seq<string>, k: nat)
    requires NamesFit(names) && k < 10
    ensures NamesAt(EncodeNames(names), 0)[k] == names[k]
  {
    FlattenChunk(NameChunks(names), 20, k);
    StringRoundTrip(names[k], 20);
  }

  function FloatChunks(fs: seq<Float32>, little: bool): (chunks: seq<seq<Byte>>)
    ensures |chunks| == |fs| && forall k :: 0 <= k < |fs| ==> chunks[k] == EncodeInt32(fs[k].bits, little)
  {
    seq(|fs|, k requires 0 <= k < |fs| => EncodeInt32(fs[k].bits, little))
  }

  function EncodeFloats(fs: seq<Float32>, little: bool): (bytes: seq<Byte>)
    ensures |bytes| == 4 * |fs|
  {
    FlattenLength(FloatChunks(fs, little), 4);
    Flatten(FloatChunks(fs, little))
  }

  lemma FloatsRoundTrip(fs: seq<Float32>, little: bool)
    ensures FloatsAt(EncodeFloats(fs, little), 0, |fs|, little) == fs
  {
    var e := EncodeFloats(fs, little);
    forall k | 0 <= k < |fs|
      ensures FloatsAt(e, 0, |fs|, little)[k] == fs[k]
    {
      FlattenChunk(FloatChunks(fs, little), 4, k);
      Int32RoundTrip(fs[k].bits, little);
    }
  }

  predicate IsMatrix(m: seq<seq<Float32>>) {
    |m| == 4 && forall i :: 0 <= i < 4 ==> |m[i]| == 4
  }

  function RowChunks(m: seq<seq<Float32>>, little: bool): (chunks: seq<seq<Byte>>)
    requires IsMatrix(m)
    ensures |chunks| == 4 && forall i :: 0 <= i < 4 ==> chunks[i] == EncodeFloats(m[i], little)
    ensures forall i :: 0 <= i < 4 ==> |chunks[i]| == 16
  {
    seq(4, i requires 0 <= i < 4 => EncodeFloats(m[i], little))
  }

  function EncodeMatrix(m: seq<seq<Float32>>, little: bool): (bytes: seq<Byte>)
    requires IsMatrix(m)
    ensures |bytes| == 64
  {
    FlattenLength(RowChunks(m, little), 16);
    Flatten(RowChunks(m, little))
  }

  lemma MatrixRoundTrip(m: seq<seq<Float32>>, little: bool)
    requires IsMatrix(m)
    ensures MatrixAt(EncodeMatrix(m, little), 0, little) == m
  {
    var e := EncodeMatrix(m, little);
    forall i | 0 <= i < 4
      ensures MatrixAt(e, 0, little)[i] == m[i]
    {
      var row := EncodeFloats(m[i], little);
      FlattenChunk(RowChunks(m, little), 16, i);
      assert row[0..16] == row;
      FloatsShift(e, 16 * i, row, 0, 4, little);
      FloatsRoundTrip(m[i], little);
    }
  }

  function EncodeBytes(xs: seq<Int8>): (bytes: seq<Byte>)
    ensures |bytes| == |xs|
  {
    seq(|xs|, k requires 0 <= k < |xs| => Unsigned8(xs[k]))
  }

  lemma BytesRoundTrip(xs: seq<Int8>)
    ensures BytesOf(EncodeBytes(xs)) == xs
  {
    assert forall k :: 0 <= k < |xs| ==> Int8Of(EncodeBytes(xs)[k]) == xs[k];
  }

  predicate AllByteChars(cs: seq<char>) {
    forall k :: 0 <= k < |cs| ==> IsByteChar(cs[k])
  }

  function EncodeChars(cs: seq<char>): (bytes: seq<Byte>)
    requires AllByteChars(cs)
    ensures |bytes| == |cs|
  {
    seq(|cs|, k requires 0 <= k < |cs| => OctetOf(cs[k]))
  }

  lemma CharsRoundTrip(cs: seq<char>)
    requires AllByteChars(cs)
    ensures CharsOf(EncodeChars(cs)) == cs
  {
    assert forall k :: 0 <= k < |cs| ==> CharOf(Int8Of(EncodeChars(cs)[k])) == cs[k];
  }

  // ---------------------------------------------------------------------
  // The layout functions read only the octets they cover

  lemma SameSlices(x: seq<Byte>, p: nat, y: seq<Byte>, q: nat, n: nat, a: nat, b: nat)
    requires p + n <= |x| && q + n <= |y| && x[p..p + n] == y[q..q + n] && a <= b <= n
    ensures x[p + a..p + b] == y[q + a..q + b]
  {
    var xs, ys := x[p + a..p + b], y[q + a..q + b];
    forall t | 0 <= t < b - a
      ensures xs[t] == ys[t]
    {
      assert xs[t] == x[p..p + n][a + t];
      assert ys[t] == y[q..q + n][a + t];
    }
  }

  lemma FloatsShift(x: seq<Byte>, p: nat, y: seq<Byte>, q: nat, n: nat, little: bool)
    requires p + 4 * n <= |x| && q + 4 * n <= |y| && x[p..p + 4 * n] == y[q..q + 4 * n]
    ensures FloatsAt(x, p, n, little) == FloatsAt(y, q, n, little)
  {
    forall k | 0 <= k < n
      ensures FloatsAt(x, p, n, little)[k] == FloatsAt(y, q, n, little)[k]
    {
      var i := 4 * k;
      assert i + 4 <= 4 * n;
      SameSlices(x, p, y, q, 4 * n, i, i + 4);
      assert FloatsAt(x, p, n, little)[k] == Float32(Int32Of(x[p + i..p + i + 4], little));
      assert FloatsAt(y, q, n, little)[k] == Float32(Int32Of(y[q + i..q + i + 4], little));
    }
  }

  lemma NamesShift(x: seq<Byte>, p: nat, y: seq<Byte>, q: nat)
    requires p + 200 <= |x| && q + 200 <= |y| && x[p..p + 200] == y[q..q + 200]
    ensures NamesAt(x, p) == NamesAt(y, q)
  {
    forall k | 0 <= k < 10
      ensures NamesAt(x, p)[k] == NamesAt(y, q)[k]
    {
      NameSlotShift(x, p, y, q, k);
    }
  }

  /** The name in slot `k`. */
  lemma NameSlotShift(x: seq<Byte>, p: nat, y: seq<Byte>, q: nat, k: nat)
    requires p + 200 <= |x| && q + 200 <= |y| && x[p..p + 200] == y[q..q + 200]
    requires k < 10
    ensures NamesAt(x, p)[k] == NamesAt(y, q)[k]
  {
    var i := 20 * k;
    SameSlices(x, p, y, q, 200, i, i + 20);
  }

  lemma MatrixShift(x: seq<Byte>, p: nat, y: seq<Byte>, q: nat, little: bool)
    requires p + 64 <= |x| && q + 64 <= |y| && x[p..p + 64] == y[q..q + 64]
    ensures MatrixAt(x, p, little) == MatrixAt(y, q, little)
  {
    forall i | 0 <= i < 4
      ensures MatrixAt(x, p, little)[i] == MatrixAt(y, q, little)[i]
    {
      SameSlices(x, p, y, q, 64, 16 * i, 16 * i + 16);
      FloatsShift(x, p + 16 * i, y, q + 16 * i, 4, little);
    }
  }

  lemma GeometryShift(x: seq<Byte>, p: nat, y: seq<Byte>, q: nat, little: bool)
    requires p + 36 <= |x| && q + 36 <= |y| && x[p..p + 36] == y[q..q + 36]
    ensures GeometryAt(x, p, little) == GeometryAt(y, q, little)
  {
    SameSlices(x, p, y, q, 36, 0, 6);
    SameSlices(x, p, y, q, 36, 6, 8);
    SameSlices(x, p, y, q, 36, 8, 10);
    SameSlices(x, p, y, q, 36, 10, 12);
    SameSlices(x, p, y, q, 36, 12, 16);
    SameSlices(x, p, y, q, 36, 16, 20);
    SameSlices(x, p, y, q, 36, 20, 24);
    SameSlices(x, p, y, q, 36, 24, 28);
    SameSlices(x, p, y, q, 36, 28, 32);
    SameSlices(x, p, y, q, 36, 32, 36);
  }

  lemma ChannelsShift(x: seq<Byte>, p: nat, y: seq<Byte>, q: nat, little: bool)
    requires p + 404 <= |x| && q + 404 <= |y| && x[p..p + 404] == y[q..q + 404]
    ensures ChannelsAt(x, p, little) == ChannelsAt(y, q, little)
  {
    SameSlices(x, p, y, q, 404, 0, 2);
    SameSlices(x, p, y, q, 404, 2, 202);
    SameSlices(x, p, y, q, 404, 202, 204);
    SameSlices(x, p, y, q, 404, 204, 404);
    NamesShift(x, p + 2, y, q + 2);
    NamesShift(x, p + 204, y, q + 204);
  }

  lemma OrientationShift(x: seq<Byte>, p: nat, y: seq<Byte>, q: nat, little: bool)
    requires p + 542 <= |x| && q + 542 <= |y| && x[p..p + 542] == y[q..q + 542]
    ensures OrientationAt(x, p, little) == OrientationAt(y, q, little)
  {
    SameSlices(x, p, y, q, 542, 0, 64);
    MatrixShift(x, p, y, q, little);
    SameSlices(x, p, y, q, 542, 64, 508);
    SameSlices(x, p, y, q, 542, 508, 512);
    SameSlices(x, p, y, q, 542, 512, 516);
    SameSlices(x, p, y, q, 542, 516, 540);
    FloatsShift(x, p + 516, y, q + 516, 6, little);
    SameSlices(x, p, y, q, 542, 540, 542);
  }

  lemma TrailerShift(x: seq<Byte>, p: nat, y: seq<Byte>, q: nat, little: bool)
    requires p + 18 <= |x| && q + 18 <= |y| && x[p..p + 18] == y[q..q + 18]
    ensures TrailerAt(x, p, little) == TrailerAt(y, q, little)
  {
    var s := x[p..p + 18];
    assert s == y[q..q + 18];
    assert x[p] == s[0] == y[q] && x[p + 1] == s[1] == y[q + 1] && x[p + 2] == s[2] == y[q + 2];
    assert x[p + 3] == s[3] == y[q + 3] && x[p + 4] == s[4] == y[q + 4] && x[p + 5] == s[5] == y[q + 5];
    SameSlices(x, p, y, q, 18, 6, 10);
    SameSlices(x, p, y, q, 18, 10, 14);
    SameSlices(x, p, y, q, 18, 14, 18);
  }

  // ---------------------------------------------------------------------
  // The header sections

  /** Splits a prefix `a + f` of `e` into its two parts. Applied from the
      last field of a section to the first, it locates every field. */
  lemma Peel(e: seq<Byte>, a: seq<Byte>, f: seq<Byte>)
    requires |a| + |f| <= |e| && e[..|a| + |f|] == a + f
    ensures e[..|a|] == a && e[|a|..|a| + |f|] == f
  {
    forall t | 0 <= t < |a|
      ensures e[..|a|][t] == a[t]
    {
      assert e[..|a| + |f|][t] == (a + f)[t];
    }
    forall t | 0 <= t < |f|
      ensures e[|a|..|a| + |f|][t] == f[t]
    {
      assert e[..|a| + |f|][|a| + t] == (a + f)[|a| + t];
    }
  }

  function EncodeGeometry(g: Geometry, little: bool): (bytes: seq<Byte>)
    requires FitsField(g.idString, 6)
    ensures |bytes| == 36
  {
    EncodeString(g.idString, 6)
    + EncodeInt16(g.xDim, little) + EncodeInt16(g.yDim, little) + EncodeInt16(g.zDim, little)
    + EncodeInt32(g.xScale.bits, little) + EncodeInt32(g.yScale.bits, little) + EncodeInt32(g.zScale.bits, little)
    + EncodeInt32(g.xOrigin.bits, little) + EncodeInt32(g.yOrigin.bits, little) + EncodeInt32(g.zOrigin.bits, little)
  }

  lemma GeometryRoundTrip(g: Geometry, little: bool)
    requires FitsField(g.idString, 6)
    ensures GeometryAt(EncodeGeometry(g, little), 0, little) == g
  {
    var e := EncodeGeometry(g, little);
    var a0 := EncodeString(g.idString, 6);
    var a1 := a0 + EncodeInt16(g.xDim, little);
    var a2 := a1 + EncodeInt16(g.yDim, little);
    var a3 := a2 + EncodeInt16(g.zDim, little);
    var a4 := a3 + EncodeInt32(g.xScale.bits, little);
    var a5 := a4 + EncodeInt32(g.yScale.bits, little);
    var a6 := a5 + EncodeInt32(g.zScale.bits, little);
    var a7 := a6 + EncodeInt32(g.xOrigin.bits, little);
    var a8 := a7 + EncodeInt32(g.yOrigin.bits, little);
    assert e[..36] == a8 + EncodeInt32(g.zOrigin.bits, little);
    Peel(e, a8, EncodeInt32(g.zOrigin.bits, little));
    Peel(e, a7, EncodeInt32(g.yOrigin.bits, little));
    Peel(e, a6, EncodeInt32(g.xOrigin.bits, little));
    Peel(e, a5, EncodeInt32(g.zScale.bits, little));
    Peel(e, a4, EncodeInt32(g.yScale.bits, little));
    Peel(e, a3, EncodeInt32(g.xScale.bits, little));
    Peel(e, a2, EncodeInt16(g.zDim, little));
    Peel(e, a1, EncodeInt16(g.yDim, little));
    Peel(e, a0, EncodeInt16(g.xDim, little));
    assert e[0..6] == a0;
    StringRoundTrip(g.idString, 6);
    Int16RoundTrip(g.xDim, little);
    Int16RoundTrip(g.yDim, little);
    Int16RoundTrip(g.zDim, little);
    Int32RoundTrip(g.xScale.bits, little);
    Int32RoundTrip(g.yScale.bits, little);
    Int32RoundTrip(g.zScale.bits, little);
    Int32RoundTrip(g.xOrigin.bits, little);
    Int32RoundTrip(g.yOrigin.bits, little);
    Int32RoundTrip(g.zOrigin.bits, little);
  }

  predicate ChannelsFit(c: Channels) {
    NamesFit(c.scalarNames) && NamesFit(c.propertyNames)
  }

  function EncodeChannels(c: Channels, little: bool): (bytes: seq<Byte>)
    requires ChannelsFit(c)
    ensures |bytes| == 404
  {
    EncodeInt16(c.nScalars, little) + EncodeNames(c.scalarNames)
    + EncodeInt16(c.nProperties, little) + EncodeNames(c.propertyNames)
  }

  lemma ChannelsRoundTrip(c: Channels, little: bool)
    requires ChannelsFit(c)
    ensures ChannelsAt(EncodeChannels(c, little), 0, little) == c
  {
    var e := EncodeChannels(c, little);
    var scalars, properties := EncodeNames(c.scalarNames), EncodeNames(c.propertyNames);
    var a0 := EncodeInt16(c.nScalars, little);
    var a1 := a0 + scalars;
    var a2 := a1 + EncodeInt16(c.nProperties, little);
    assert e[..404] == a2 + properties;
    Peel(e, a2, properties);
    Peel(e, a1, EncodeInt16(c.nProperties, little));
    Peel(e, a0, scalars);
    assert e[0..2] == a0;
    assert scalars == scalars[0..200] && properties == properties[0..200];
    Int16RoundTrip(c.nScalars, little);
    Int16RoundTrip(c.nProperties, little);
    NamesShift(e, 2, scalars, 0);
    NamesShift(e, 204, properties, 0);
    NamesRoundTrip(c.scalarNames);
    NamesRoundTrip(c.propertyNames);
  }

  predicate OrientationFits(o: Orientation) {
    && IsMatrix(o.voxToRas)
    && |o.reserved| == 444 && |o.axisOrder| == 4 && AllByteChars(o.axisOrder) && |o.pad2| == 4
    && |o.imageOrientationPatient| == 6 && |o.pad1| == 2
  }

  function EncodeOrientation(o: Orientation, little: bool): (bytes: seq<Byte>)
    requires OrientationFits(o)
    ensures |bytes| == 542
  {
    EncodeMatrix(o.voxToRas, little) + EncodeBytes(o.reserved) + EncodeChars(o.axisOrder)
    + EncodeBytes(o.pad2) + EncodeFloats(o.imageOrientationPatient, little) + EncodeBytes(o.pad1)
  }

  lemma OrientationRoundTrip(o: Orientation, little: bool)
    requires OrientationFits(o)
    ensures OrientationAt(EncodeOrientation(o, little), 0, little) == o
  {
    var e := EncodeOrientation(o, little);
    var matrix, patient := EncodeMatrix(o.voxToRas, little), EncodeFloats(o.imageOrientationPatient, little);
    var a1 := matrix + EncodeBytes(o.reserved);
    var a2 := a1 + EncodeChars(o.axisOrder);
    var a3 := a2 + EncodeBytes(o.pad2);
    var a4 := a3 + patient;
    assert e[..542] == a4 + EncodeBytes(o.pad1);
    Peel(e, a4, EncodeBytes(o.pad1));
    Peel(e, a3, patient);
    Peel(e, a2, EncodeBytes(o.pad2));
    Peel(e, a1, EncodeChars(o.axisOrder));
    Peel(e, matrix, EncodeBytes(o.reserved));
    assert e[0..64] == matrix == matrix[0..64];
    assert patient == patient[0..24];
    MatrixShift(e, 0, matrix, 0, little);
    MatrixRoundTrip(o.voxToRas, little);
    BytesRoundTrip(o.reserved);
    CharsRoundTrip(o.axisOrder);
    BytesRoundTrip(o.pad2);
    FloatsShift(e, 516, patient, 0, 6, little);
    FloatsRoundTrip(o.imageOrientationPatient, little);
    BytesRoundTrip(o.pad1);
  }

  function EncodeTrailer(t: Trailer, little: bool): (bytes: seq<Byte>)
    ensures |bytes| == 18
  {
    EncodeBytes([t.invertX, t.invertY, t.invertZ, t.swapXy, t.swapYz, t.swapZx])
    + EncodeInt32(t.nCount, little) + EncodeInt32(t.version, little) + EncodeInt32(t.hdrSize, little)
  }

  lemma TrailerRoundTrip(t: Trailer, little: bool)
    ensures TrailerAt(EncodeTrailer(t, little), 0, little) == t
  {
    var e := EncodeTrailer(t, little);
    var a0 := EncodeBytes([t.invertX, t.invertY, t.invertZ, t.swapXy, t.swapYz, t.swapZx]);
    var a1 := a0 + EncodeInt32(t.nCount, little);
    var a2 := a1 + EncodeInt32(t.version, little);
    assert e[..18] == a2 + EncodeInt32(t.hdrSize, little);
    Peel(e, a2, EncodeInt32(t.hdrSize, little));
    Peel(e, a1, EncodeInt32(t.version, little));
    Peel(e, a0, EncodeInt32(t.nCount, little));
    assert e[0..6] == a0;
    Int32RoundTrip(t.nCount, little);
    Int32RoundTrip(t.version, little);
    Int32RoundTrip(t.hdrSize, little);
  }

  // ---------------------------------------------------------------------
  // The whole header

  /** A header the 1000-octet layout can hold and give back: strings that
      fit their fields without NUL, and arrays of the declared lengths. */
  predicate Encodable(h: HeaderFields) {
    && FitsField(h.geometry.idString, 6)
    && ChannelsFit(h.channels)
    && OrientationFits(h.orientation)
  }

  /** The 1000 octets that store `h` under the byte order `little`. */
  function EncodeHeader(h: HeaderFields, little: bool): (bytes: seq<Byte>)
    requires Encodable(h)
    ensures |bytes| == HeaderBytes
  {
    EncodeGeometry(h.geometry, little) + EncodeChannels(h.channels, little)
    + EncodeOrientation(h.orientation, little) + EncodeTrailer(h.trailer, little)
  }

  /** Decoding the octets of a header under the byte order it was written in
      gives the header back, field for field. */
  lemma HeaderRoundTrip(h: HeaderFields, little: bool)
    requires Encodable(h)
    ensures HeaderAt(EncodeHeader(h, little), 0, little) == h
  {
    GeometryOfHeader(h, little);
    ChannelsOfHeader(h, little);
    OrientationOfHeader(h, little);
    TrailerOfHeader(h, little);
  }

  lemma GeometryOfHeader(h: HeaderFields, little: bool)
    requires Encodable(h)
    ensures GeometryAt(EncodeHeader(h, little), 0, little) == h.geometry
  {
    var e, g := EncodeHeader(h, little), EncodeGeometry(h.geometry, little);
    assert e[0..36] == g == g[0..36];
    GeometryShift(e, 0, g, 0, little);
    GeometryRoundTrip(h.geometry, little);
  }

  lemma ChannelsOfHeader(h: HeaderFields, little: bool)
    requires Encodable(h)
    ensures ChannelsAt(EncodeHeader(h, little), 36, little) == h.channels
  {
    var e, c := EncodeHeader(h, little), EncodeChannels(h.channels, little);
    assert e[36..440] == c == c[0..404];
    ChannelsShift(e, 36, c, 0, little);
    ChannelsRoundTrip(h.channels, little);
  }

  lemma OrientationOfHeader(h: HeaderFields, little: bool)
    requires Encodable(h)
    ensures OrientationAt(EncodeHeader(h, little), 440, little) == h.orientation
  {
    var e, o := EncodeHeader(h, little), EncodeOrientation(h.orientation, little);
    assert e[440..982] == o == o[0..542];
    OrientationShift(e, 440, o, 0, little);
    OrientationRoundTrip(h.orientation, little);
  }

  lemma TrailerOfHeader(h: HeaderFields, little: bool)
    requires Encodable(h)
    ensures TrailerAt(EncodeHeader(h, little), 982, little) == h.trailer
  {
    var e, t := EncodeHeader(h, little), EncodeTrailer(h.trailer, little);
    assert e[982..1000] == t == t[0..18];
    TrailerShift(e, 982, t, 0, little);
    TrailerRoundTrip(h.trailer, little);
  }

  /** A header written with `hdr_size` 1000 is probed as the byte order it
      was written in. */
  lemma EncodedHeaderProbe(h: HeaderFields, little: bool)
    requires Encodable(h) && h.trailer.hdrSize == 1000
    ensures LittleEndianAt(EncodeHeader(h, little), 0) == little
  {
    var e := EncodeHeader(h, little);
    var t := EncodeTrailer(h.trailer, little);
    assert e[982..1000] == t;
    assert e[996..1000] == t[14..18] == EncodeInt32(1000, little);
    ProbeFindsWriterOrder(e, 0, little);
  }
}
