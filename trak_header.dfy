/** The fixed 1000-octet header of a TrackVis file and the sequential
    decoder that fills it field by field. */
module TrakHeader {
  import opened Wrappers
  import opened Primitives
  import opened Input
  import opened TrakUtils

  /** Size of the header in octets, padded to it by the `reserved` block. */
  const HeaderBytes := 1000

  /** Offsets 0 .. 35: identifier, volume dimensions, voxel size and origin. */
  datatype Geometry = Geometry(
    idString: string,
    xDim: Int16, yDim: Int16, zDim: Int16,
    xScale: Float32, yScale: Float32, zScale: Float32,
    xOrigin: Float32, yOrigin: Float32, zOrigin: Float32)

  /** Offsets 36 .. 439: the per-point scalar and per-track property counts,
      each followed by its ten name slots. */
  datatype Channels = Channels(
    nScalars: Int16, scalarNames: seq<string>,
    nProperties: Int16, propertyNames: seq<string>)

  /** Offsets 440 .. 981: the voxel-to-RAS matrix and the orientation block
      with its padding. */
  datatype Orientation = Orientation(
    voxToRas: seq<seq<Float32>>,
    reserved: seq<Int8>, axisOrder: seq<char>, pad2: seq<Int8>,
    imageOrientationPatient: seq<Float32>, pad1: seq<Int8>)

  /** Offsets 982 .. 999: the axis flags, track count, version and header size. */
  datatype Trailer = Trailer(
    invertX: Int8, invertY: Int8, invertZ: Int8,
    swapXy: Int8, swapYz: Int8, swapZx: Int8,
    nCount: Int32, version: Int32, hdrSize: Int32)

  /** The decoded header as a value: the contents of a `Header` object, in
      the four consecutive sections the decoder reads. */
  datatype HeaderFields = HeaderFields(
    geometry: Geometry, channels: Channels, orientation: Orientation, trailer: Trailer)

  // ---------------------------------------------------------------------
  // The layout: where each field lies in the 1000 octets

  /** Ten name slots of 20 octets each, starting at `p`. */
  function NamesAt(data: seq<Byte>, p: nat): (names: seq<string>)
    requires p + 200 <= |data|
    ensures |names| == 10
    ensures forall k :: 0 <= k < 10 ==> |names[k]| <= 20
    ensures forall k :: 0 <= k < 10 ==> names[k] == StringOf(data[p + 20 * k..p + 20 * k + 20])
  {
    seq(10, k requires 0 <= k < 10 => StringOf(data[p + 20 * k..p + 20 * k + 20]))
  }

  /** `n` consecutive floats starting at `p`. */
  function FloatsAt(data: seq<Byte>, p: nat, n: nat, little: bool): seq<Float32>
    requires p + 4 * n <= |data|
  {
    seq(n, k requires 0 <= k < n => FloatAt(data, p + 4 * k, little))
  }

  /** A 4 x 4 float matrix stored row by row. */
  function MatrixAt(data: seq<Byte>, p: nat, little: bool): seq<seq<Float32>>
    requires p + 64 <= |data|
  {
    seq(4, i requires 0 <= i < 4 => FloatsAt(data, p + 16 * i, 4, little))
  }

  /** Raw octets kept as Java `byte`s: the block is copied verbatim, each
      octet being recoverable from its `byte`. */
  function BytesOf(bytes: seq<Byte>): (xs: seq<Int8>)
    ensures |xs| == |bytes|
    ensures forall k :: 0 <= k < |bytes| ==> Unsigned8(xs[k]) == bytes[k]
  {
    seq(|bytes|, k requires 0 <= k < |bytes| => Int8Of(bytes[k]))
  }

  /** Octets kept as `(char)` of their `byte`: the low eight bits of each
      char are its octet, so the block is recoverable. */
  function CharsOf(bytes: seq<Byte>): (cs: seq<char>)
    ensures |cs| == |bytes|
    ensures forall k :: 0 <= k < |bytes| ==> (cs[k] as int) % 0x100 == bytes[k]
  {
    seq(|bytes|, k requires 0 <= k < |bytes| => CharOf(Int8Of(bytes[k])))
  }

  function GeometryAt(data: seq<Byte>, p: nat, little: bool): Geometry
    requires p + 36 <= |data|
  {
    Geometry(
      StringOf(data[p..p + 6]),
      ShortAt(data, p + 6, little), ShortAt(data, p + 8, little), ShortAt(data, p + 10, little),
      FloatAt(data, p + 12, little), FloatAt(data, p + 16, little), FloatAt(data, p + 20, little),
      FloatAt(data, p + 24, little), FloatAt(data, p + 28, little), FloatAt(data, p + 32, little))
  }

  function ChannelsAt(data: seq<Byte>, p: nat, little: bool): Channels
    requires p + 404 <= |data|
  {
    Channels(ShortAt(data, p, little), NamesAt(data, p + 2), ShortAt(data, p + 202, little), NamesAt(data, p + 204))
  }

  function OrientationAt(data: seq<Byte>, p: nat, little: bool): Orientation
    requires p + 542 <= |data|
  {
    Orientation(
      MatrixAt(data, p, little),
      BytesOf(data[p + 64..p + 508]), CharsOf(data[p + 508..p + 512]), BytesOf(data[p + 512..p + 516]),
      FloatsAt(data, p + 516, 6, little), BytesOf(data[p + 540..p + 542]))
  }

  function TrailerAt(data: seq<Byte>, p: nat, little: bool): Trailer
    requires p + 18 <= |data|
  {
    Trailer(
      Int8Of(data[p]), Int8Of(data[p + 1]), Int8Of(data[p + 2]),
      Int8Of(data[p + 3]), Int8Of(data[p + 4]), Int8Of(data[p + 5]),
      IntAt(data, p + 6, little), IntAt(data, p + 10, little), IntAt(data, p + 14, little))
  }

  /** The header stored in the 1000 octets at `p`: the four sections one after
      the other, each field at the offset the declared order fixes. Nothing is
      validated: every count, version and identifier decodes as it is. */
  function HeaderAt(data: seq<Byte>, p: nat, little: bool): HeaderFields
    requires p + HeaderBytes <= |data|
  {
    HeaderFields(
      GeometryAt(data, p, little), ChannelsAt(data, p + 36, little),
      OrientationAt(data, p + 440, little), TrailerAt(data, p + 982, little))
  }

  /** The decoded header always has the fixed shape of the format: a
      6-character identifier at most, ten names of at most 20 characters in
      each list, a 4 x 4 matrix and arrays of the declared lengths. */
  lemma HeaderShape(data: seq<Byte>, p: nat, little: bool)
    requires p + HeaderBytes <= |data|
    ensures var h := HeaderAt(data, p, little);
      && |h.geometry.idString| <= 6
      && |h.channels.scalarNames| == 10 && |h.channels.propertyNames| == 10
      && (forall k :: 0 <= k < 10 ==> |h.channels.scalarNames[k]| <= 20 && |h.channels.propertyNames[k]| <= 20)
      && |h.orientation.voxToRas| == 4 && (forall i :: 0 <= i < 4 ==> |h.orientation.voxToRas[i]| == 4)
      && |h.orientation.reserved| == 444 && |h.orientation.axisOrder| == 4 && |h.orientation.pad2| == 4
      && |h.orientation.imageOrientationPatient| == 6 && |h.orientation.pad1| == 2
  {
    var m := MatrixAt(data, p + 440, little);
    assert forall i :: 0 <= i < 4 ==> m[i] == FloatsAt(data, p + 440 + 16 * i, 4, little);
  }

  // ---------------------------------------------------------------------
  // The header object

  class Header {
    var idString: string
    var xDim: Int16
    var yDim: Int16
    var zDim: Int16
    var xScale: Float32
    var yScale: Float32
    var zScale: Float32
    var xOrigin: Float32
    var yOrigin: Float32
    var zOrigin: Float32
    var nScalars: Int16
    const scalarNames: array<string>
    var nProperties: Int16
    const propertyNames: array<string>
    const voxToRas: array2<Float32>
    const reserved: array<Int8>
    const axisOrder: array<char>
    const pad2: array<Int8>
    const imageOrientationPatient: array<Float32>
    const pad1: array<Int8>
    var invertX: Int8
    var invertY: Int8
    var invertZ: Int8
    var swapXy: Int8
    var swapYz: Int8
    var swapZx: Int8
    var nCount: Int32
    var version: Int32
    var hdrSize: Int32

    /** The arrays the header owns. */
    ghost function Repr(): set<object> {
      {scalarNames, propertyNames, voxToRas, reserved, axisOrder, pad2, imageOrientationPatient, pad1}
    }

    ghost predicate Valid() {
      && scalarNames.Length == 10 && propertyNames.Length == 10 && scalarNames != propertyNames
      && voxToRas.Length0 == 4 && voxToRas.Length1 == 4
      && reserved.Length == 444 && axisOrder.Length == 4 && pad2.Length == 4
      && imageOrientationPatient.Length == 6 && pad1.Length == 2
      && reserved != pad2 && reserved != pad1 && pad2 != pad1
    }

    ghost function GeometryValue(): Geometry
      reads this`idString, this`xDim, this`yDim, this`zDim,
            this`xScale, this`yScale, this`zScale, this`xOrigin, this`yOrigin, this`zOrigin
    {
      Geometry(idString, xDim, yDim, zDim, xScale, yScale, zScale, xOrigin, yOrigin, zOrigin)
    }

    ghost function ChannelsValue(): Channels
      reads this`nScalars, this`nProperties, scalarNames, propertyNames
    {
      Channels(nScalars, scalarNames[..], nProperties, propertyNames[..])
    }

    ghost function OrientationValue(): Orientation
      requires Valid()
      reads voxToRas, reserved, axisOrder, pad2, imageOrientationPatient, pad1
    {
      Orientation(Rows(voxToRas), reserved[..], axisOrder[..], pad2[..], imageOrientationPatient[..], pad1[..])
    }

    ghost function TrailerValue(): Trailer
      reads this`invertX, this`invertY, this`invertZ, this`swapXy, this`swapYz, this`swapZx,
            this`nCount, this`version, this`hdrSize
    {
      Trailer(invertX, invertY, invertZ, swapXy, swapYz, swapZx, nCount, version, hdrSize)
    }

    /** The geometry section depends on its ten fields only. */
    twostate lemma GeometryFrame()
      requires unchanged(this`idString, this`xDim, this`yDim, this`zDim,
                         this`xScale, this`yScale, this`zScale, this`xOrigin, this`yOrigin, this`zOrigin)
      ensures GeometryValue() == old(GeometryValue())
    {
    }

    /** The channels section depends on its two counts and two arrays only. */
    twostate lemma ChannelsFrame()
      requires unchanged(this`nScalars, this`nProperties, scalarNames, propertyNames)
      ensures ChannelsValue() == old(ChannelsValue())
    {
    }

    /** The orientation section depends on its six arrays only. */
    twostate lemma OrientationFrame()
      requires Valid()
      requires unchanged(voxToRas, reserved, axisOrder, pad2, imageOrientationPatient, pad1)
      ensures OrientationValue() == old(OrientationValue())
    {
    }

    /** Everything the header holds, as a value. */
    ghost function Value(): HeaderFields
      requires Valid()
      reads this, Repr()
    {
      HeaderFields(GeometryValue(), ChannelsValue(), OrientationValue(), TrailerValue())
    }

    /** A header before anything is read: Java's field initialisers. */
    constructor ()
      ensures Valid() && fresh(Repr())
      ensures idString == "" && scalarNames[..] == seq(10, _ => "") && propertyNames[..] == seq(10, _ => "")
    {
      idString := "";
      scalarNames := new string[10](_ => "");
      propertyNames := new string[10](_ => "");
      voxToRas := new Float32[4, 4]((_, _) => Float32(0));
      reserved := new Int8[444](_ => 0);
      axisOrder := new char[4](_ => 0 as char);
      pad2 := new Int8[4](_ => 0);
      imageOrientationPatient := new Float32[6](_ => Float32(0));
      pad1 := new Int8[2](_ => 0);
    }

    /** `readFromSource`: reads the fields in their declared order, all ten
        scalar-name and property-name slots whatever the counts say, and
        consumes exactly 1000 octets; fails if fewer are left. */
    static method ReadFromSource(src: DataSource, little: bool) returns (r: Result<Header>)
      requires src.Valid()
      modifies src
      ensures src.Valid()
      ensures r.Ok? <==> old(src.pos) + HeaderBytes <= |src.data|
      ensures r.Ok? ==> && src.pos == old(src.pos) + HeaderBytes
                        && fresh(r.value) && fresh(r.value.Repr()) && r.value.Valid()
                        && r.value.Value() == HeaderAt(src.data, old(src.pos), little)
      ensures r.Failure? ==> src.pos == |src.data|
    {
      var header := new Header();
      var _ :- header.ReadAll(src, little);
      r := Ok(header);
    }

    /** All 1000 octets, in the order of the fields. `readFromSource` is one
        straight-line method; it is split here into sections, and those into
        blocks, only to keep each proof small. */
    method ReadAll(src: DataSource, little: bool) returns (r: Result<()>)
      requires src.Valid() && Valid()
      modifies src, this, Repr()
      ensures src.Valid()
      ensures r.Ok? <==> old(src.pos) + HeaderBytes <= |src.data|
      ensures r.Ok? ==> var d, p := src.data, old(src.pos);
        && src.pos == p + HeaderBytes
        && GeometryValue() == GeometryAt(d, p, little) && ChannelsValue() == ChannelsAt(d, p + 36, little)
        && OrientationValue() == OrientationAt(d, p + 440, little) && TrailerValue() == TrailerAt(d, p + 982, little)
      ensures r.Failure? ==> src.pos == |src.data|
    {
      var _ :- ReadFront(src, little);
      label frontRead:
      var _ :- ReadBack(src, little);
      GeometryFrame@frontRead();
      ChannelsFrame@frontRead();
      r := Ok(());
    }

    /** Offsets 0 .. 439: the geometry, then the scalar and property names. */
    method ReadFront(src: DataSource, little: bool) returns (r: Result<()>)
      requires src.Valid() && Valid()
      modifies src, this`idString, this`xDim, this`yDim, this`zDim,
               this`xScale, this`yScale, this`zScale, this`xOrigin, this`yOrigin, this`zOrigin,
               this`nScalars, this`nProperties, scalarNames, propertyNames
      ensures src.Valid()
      ensures r.Ok? <==> old(src.pos) + 440 <= |src.data|
      ensures r.Ok? ==> && src.pos == old(src.pos) + 440
                        && GeometryValue() == GeometryAt(src.data, old(src.pos), little)
                        && ChannelsValue() == ChannelsAt(src.data, old(src.pos) + 36, little)
      ensures r.Failure? ==> src.pos == |src.data|
    {
      var _ :- ReadGeometry(src, little);
      label geometryRead:
      var _ :- ReadChannels(src, little);
      GeometryFrame@geometryRead();
      r := Ok(());
    }

    /** Offsets 440 .. 999: the orientation block, then the trailer. */
    method ReadBack(src: DataSource, little: bool) returns (r: Result<()>)
      requires src.Valid() && Valid()
      modifies src, voxToRas, reserved, axisOrder, pad2, imageOrientationPatient, pad1,
               this`invertX, this`invertY, this`invertZ, this`swapXy, this`swapYz, this`swapZx,
               this`nCount, this`version, this`hdrSize
      ensures src.Valid()
      ensures r.Ok? <==> old(src.pos) + 560 <= |src.data|
      ensures r.Ok? ==> && src.pos == old(src.pos) + 560
                        && OrientationValue() == OrientationAt(src.data, old(src.pos), little)
                        && TrailerValue() == TrailerAt(src.data, old(src.pos) + 542, little)
      ensures r.Failure? ==> src.pos == |src.data|
      ensures unchanged(this`idString, this`xDim, this`yDim, this`zDim,
                        this`xScale, this`yScale, this`zScale, this`xOrigin, this`yOrigin, this`zOrigin)
      ensures unchanged(this`nScalars, this`nProperties, scalarNames, propertyNames)
    {
      var _ :- ReadOrientation(src, little);
      label orientationRead:
      var _ :- ReadTrailer(src, little);
      OrientationFrame@orientationRead();
      r := Ok(());
    }

    /** Offsets 0 .. 35: `id_string`, the dimensions, voxel sizes and origin. */
    method ReadGeometry(src: DataSource, little: bool) returns (r: Result<()>)
      requires src.Valid()
      modifies src, this`idString, this`xDim, this`yDim, this`zDim,
               this`xScale, this`yScale, this`zScale, this`xOrigin, this`yOrigin, this`zOrigin
      ensures src.Valid()
      ensures r.Ok? <==> old(src.pos) + 36 <= |src.data|
      ensures r.Ok? ==> src.pos == old(src.pos) + 36 && GeometryValue() == GeometryAt(src.data, old(src.pos), little)
      ensures r.Failure? ==> src.pos == |src.data|
    {
      var _ :- ReadIdAndDims(src, little);
      var _ :- ReadScale(src, little);
      var _ :- ReadOrigin(src, little);
      r := Ok(());
    }

    /** Offsets 0 .. 11: `id_string` and the three dimensions. */
    method ReadIdAndDims(src: DataSource, little: bool) returns (r: Result<()>)
      requires src.Valid()
      modifies src, this`idString, this`xDim, this`yDim, this`zDim
      ensures src.Valid()
      ensures r.Ok? <==> old(src.pos) + 12 <= |src.data|
      ensures r.Ok? ==> var d, q := src.data, old(src.pos);
        && src.pos == q + 12 && idString == StringOf(d[q..q + 6])
        && xDim == ShortAt(d, q + 6, little) && yDim == ShortAt(d, q + 8, little) && zDim == ShortAt(d, q + 10, little)
      ensures r.Failure? ==> src.pos == |src.data|
    {
      var id :- ReadString(src, 6);
      var xd :- ReadShort(src, little);
      var yd :- ReadShort(src, little);
      var zd :- ReadShort(src, little);
      idString, xDim, yDim, zDim := id, xd, yd, zd;
      r := Ok(());
    }

    /** Offsets 12 .. 23: the voxel sizes. */
    method ReadScale(src: DataSource, little: bool) returns (r: Result<()>)
      requires src.Valid()
      modifies src, this`xScale, this`yScale, this`zScale
      ensures src.Valid()
      ensures r.Ok? <==> old(src.pos) + 12 <= |src.data|
      ensures r.Ok? ==> var d, q := src.data, old(src.pos);
        && src.pos == q + 12
        && xScale == FloatAt(d, q, little) && yScale == FloatAt(d, q + 4, little) && zScale == FloatAt(d, q + 8, little)
      ensures r.Failure? ==> src.pos == |src.data|
    {
      var xs :- ReadFloat(src, little);
      var ys :- ReadFloat(src, little);
      var zs :- ReadFloat(src, little);
      xScale, yScale, zScale := xs, ys, zs;
      r := Ok(());
    }

    /** Offsets 24 .. 35: the origin. */
    method ReadOrigin(src: DataSource, little: bool) returns (r: Result<()>)
      requires src.Valid()
      modifies src, this`xOrigin, this`yOrigin, this`zOrigin
      ensures src.Valid()
      ensures r.Ok? <==> old(src.pos) + 12 <= |src.data|
      ensures r.Ok? ==> var d, q := src.data, old(src.pos);
        && src.pos == q + 12
        && xOrigin == FloatAt(d, q, little) && yOrigin == FloatAt(d, q + 4, little) && zOrigin == FloatAt(d, q + 8, little)
      ensures r.Failure? ==> src.pos == |src.data|
    {
      var xo :- ReadFloat(src, little);
      var yo :- ReadFloat(src, little);
      var zo :- ReadFloat(src, little);
      xOrigin, yOrigin, zOrigin := xo, yo, zo;
      r := Ok(());
    }

    /** Offsets 36 .. 439: `n_scalars`, ten scalar names, `n_properties`, ten
        property names; all slots are read whatever the counts say. */
    method ReadChannels(src: DataSource, little: bool) returns (r: Result<()>)
      requires src.Valid() && Valid()
      modifies src, this`nScalars, this`nProperties, scalarNames, propertyNames
      ensures src.Valid()
      ensures r.Ok? <==> old(src.pos) + 404 <= |src.data|
      ensures r.Ok? ==> src.pos == old(src.pos) + 404 && ChannelsValue() == ChannelsAt(src.data, old(src.pos), little)
      ensures r.Failure? ==> src.pos == |src.data|
    {
      nScalars :- ReadShort(src, little);
      var _ :- ReadNameSlots(src, scalarNames);
      nProperties :- ReadShort(src, little);
      var _ :- ReadNameSlots(src, propertyNames);
      r := Ok(());
    }

    /** Offsets 440 .. 981: the matrix, `reserved`, `axis_order`, `pad2`,
        the patient orientation and `pad1`. */
    method ReadOrientation(src: DataSource, little: bool) returns (r: Result<()>)
      requires src.Valid() && Valid()
      modifies src, voxToRas, reserved, axisOrder, pad2, imageOrientationPatient, pad1
      ensures src.Valid()
      ensures r.Ok? <==> old(src.pos) + 542 <= |src.data|
      ensures r.Ok? ==> src.pos == old(src.pos) + 542 && OrientationValue() == OrientationAt(src.data, old(src.pos), little)
      ensures r.Failure? ==> src.pos == |src.data|
    {
      ghost var p := src.pos;
      var _ :- ReadMatrix(src, voxToRas, little);
      label matrixRead:
      var _ :- ReadByteBlock(src, reserved);
      label reservedRead:
      var _ :- ReadCharBlock(src, axisOrder);
      label axisOrderRead:
      var _ :- ReadByteBlock(src, pad2);
      label pad2Read:
      assert src.pos == p + 516;
      var _ :- ReadFloatBlock(src, imageOrientationPatient, little);
      assert src.pos == p + 540;
      var _ :- ReadByteBlock(src, pad1);
      RowsFrame@matrixRead(voxToRas);
      SeqFrame@reservedRead(reserved);
      SeqFrame@axisOrderRead(axisOrder);
      SeqFrame@pad2Read(pad2);
      r := Ok(());
    }

    /** Offsets 982 .. 999: the six flags, `n_count`, `version`, `hdr_size`. */
    method ReadTrailer(src: DataSource, little: bool) returns (r: Result<()>)
      requires src.Valid()
      modifies src, this`invertX, this`invertY, this`invertZ, this`swapXy, this`swapYz, this`swapZx,
               this`nCount, this`version, this`hdrSize
      ensures src.Valid()
      ensures r.Ok? <==> old(src.pos) + 18 <= |src.data|
      ensures r.Ok? ==> src.pos == old(src.pos) + 18 && TrailerValue() == TrailerAt(src.data, old(src.pos), little)
      ensures r.Failure? ==> src.pos == |src.data|
    {
      var flags :- ReadFlags(src);
      var counts :- ReadCounts(src, little);
      invertX, invertY, invertZ := flags.0, flags.1, flags.2;
      swapXy, swapYz, swapZx := flags.3, flags.4, flags.5;
      nCount, version, hdrSize := counts.0, counts.1, counts.2;
      r := Ok(());
    }
  }

  // ---------------------------------------------------------------------
  // The loops of readFromSource, one per array

  /** The six one-octet axis flags at offsets 982 .. 987. */
  method ReadFlags(src: DataSource) returns (r: Result<(Int8, Int8, Int8, Int8, Int8, Int8)>)
    requires src.Valid()
    modifies src
    ensures src.Valid()
    ensures r.Ok? <==> old(src.pos) + 6 <= |src.data|
    ensures r.Ok? ==> var d, q := src.data, old(src.pos);
      && src.pos == q + 6
      && r.value == (Int8Of(d[q]), Int8Of(d[q + 1]), Int8Of(d[q + 2]), Int8Of(d[q + 3]), Int8Of(d[q + 4]), Int8Of(d[q + 5]))
    ensures r.Failure? ==> src.pos == |src.data|
  {
    var ix :- ReadByte(src);
    var iy :- ReadByte(src);
    var iz :- ReadByte(src);
    var sxy :- ReadByte(src);
    var syz :- ReadByte(src);
    var szx :- ReadByte(src);
    r := Ok((ix, iy, iz, sxy, syz, szx));
  }

  /** `n_count`, `version` and `hdr_size` at offsets 988 .. 999. */
  method ReadCounts(src: DataSource, little: bool) returns (r: Result<(Int32, Int32, Int32)>)
    requires src.Valid()
    modifies src
    ensures src.Valid()
    ensures r.Ok? <==> old(src.pos) + 12 <= |src.data|
    ensures r.Ok? ==> var d, q := src.data, old(src.pos);
      && src.pos == q + 12 && r.value == (IntAt(d, q, little), IntAt(d, q + 4, little), IntAt(d, q + 8, little))
    ensures r.Failure? ==> src.pos == |src.data|
  {
    var count :- ReadInt(src, little);
    var ver :- ReadInt(src, little);
    var size :- ReadInt(src, little);
    r := Ok((count, ver, size));
  }

  /** An array's contents depend on that array only. */
  twostate lemma SeqFrame<T>(a: array<T>)
    requires unchanged(a)
    ensures a[..] == old(a[..])
  {
  }

  twostate lemma RowsFrame(m: array2<Float32>)
    requires m.Length0 == 4 && m.Length1 == 4 && unchanged(m)
    ensures Rows(m) == old(Rows(m))
  {
  }

  /** Ten 20-octet name slots into `names`. */
  method ReadNameSlots(src: DataSource, names: array<string>) returns (r: Result<()>)
    requires src.Valid() && names.Length == 10
    modifies src, names
    ensures src.Valid()
    ensures r.Ok? <==> old(src.pos) + 200 <= |src.data|
    ensures r.Ok? ==> src.pos == old(src.pos) + 200 && names[..] == NamesAt(src.data, old(src.pos))
    ensures r.Failure? ==> src.pos == |src.data|
  {
    ghost var start := src.pos;
    for i := 0 to 10
      invariant src.Valid() && src.pos == start + 20 * i
      invariant forall k :: 0 <= k < i ==> names[k] == StringOf(src.data[start + 20 * k..start + 20 * k + 20])
    {
      var name := ReadString(src, 20);
      if name.Failure? {
        return Failure(EndOfInput);
      }
      names[i] := name.value;
    }
    r := Ok(());
  }

  /** The 4 x 4 matrix, row by row. */
  method ReadMatrix(src: DataSource, m: array2<Float32>, little: bool) returns (r: Result<()>)
    requires src.Valid() && m.Length0 == 4 && m.Length1 == 4
    modifies src, m
    ensures src.Valid()
    ensures r.Ok? <==> old(src.pos) + 64 <= |src.data|
    ensures r.Ok? ==> src.pos == old(src.pos) + 64 && Rows(m) == MatrixAt(src.data, old(src.pos), little)
    ensures r.Failure? ==> src.pos == |src.data|
  {
    ghost var start := src.pos;
    for i := 0 to 4
      invariant src.Valid() && src.pos == start + 16 * i
      invariant forall i', j :: 0 <= i' < i && 0 <= j < 4 ==> m[i', j] == FloatAt(src.data, start + 16 * i' + 4 * j, little)
    {
      for j := 0 to 4
        invariant src.Valid() && src.pos == start + 16 * i + 4 * j
        invariant forall i', j' :: 0 <= i' < i && 0 <= j' < 4 ==> m[i', j'] == FloatAt(src.data, start + 16 * i' + 4 * j', little)
        invariant forall j' :: 0 <= j' < j ==> m[i, j'] == FloatAt(src.data, start + 16 * i + 4 * j', little)
      {
        var f := ReadFloat(src, little);
        if f.Failure? {
          return Failure(EndOfInput);
        }
        m[i, j] := f.value;
      }
    }
    assert forall i :: 0 <= i < 4 ==> Rows(m)[i] == FloatsAt(src.data, start + 16 * i, 4, little);
    r := Ok(());
  }

  /** The rows of a 4 x 4 array, as the matrix value. */
  ghost function Rows(m: array2<Float32>): seq<seq<Float32>>
    requires m.Length0 == 4 && m.Length1 == 4
    reads m
  {
    seq(4, i requires 0 <= i < 4 reads m => seq(4, j requires 0 <= j < 4 reads m => m[i, j]))
  }

  /** One raw `byte` per octet into `a`. */
  method ReadByteBlock(src: DataSource, a: array<Int8>) returns (r: Result<()>)
    requires src.Valid()
    modifies src, a
    ensures src.Valid()
    ensures r.Ok? <==> old(src.pos) + a.Length <= |src.data|
    ensures r.Ok? ==> src.pos == old(src.pos) + a.Length && a[..] == BytesOf(src.data[old(src.pos)..src.pos])
    ensures r.Failure? ==> src.pos == |src.data|
  {
    ghost var start := src.pos;
    for i := 0 to a.Length
      invariant src.Valid() && src.pos == start + i
      invariant forall k :: 0 <= k < i ==> a[k] == Int8Of(src.data[start + k])
    {
      var b := ReadByte(src);
      if b.Failure? {
        return Failure(EndOfInput);
      }
      a[i] := b.value;
    }
    r := Ok(());
  }

  /** One `(char)` of a raw byte per octet into `a` (the axis order). */
  method ReadCharBlock(src: DataSource, a: array<char>) returns (r: Result<()>)
    requires src.Valid()
    modifies src, a
    ensures src.Valid()
    ensures r.Ok? <==> old(src.pos) + a.Length <= |src.data|
    ensures r.Ok? ==> src.pos == old(src.pos) + a.Length && a[..] == CharsOf(src.data[old(src.pos)..src.pos])
    ensures r.Failure? ==> src.pos == |src.data|
  {
    ghost var start := src.pos;
    for i := 0 to a.Length
      invariant src.Valid() && src.pos == start + i
      invariant forall k :: 0 <= k < i ==> a[k] == CharOf(Int8Of(src.data[start + k]))
    {
      var b := ReadByte(src);
      if b.Failure? {
        return Failure(EndOfInput);
      }
      a[i] := CharOf(b.value);
    }
    r := Ok(());
  }

  /** One float per four octets into `a`. */
  method ReadFloatBlock(src: DataSource, a: array<Float32>, little: bool) returns (r: Result<()>)
    requires src.Valid()
    modifies src, a
    ensures src.Valid()
    ensures r.Ok? <==> old(src.pos) + 4 * a.Length <= |src.data|
    ensures r.Ok? ==> src.pos == old(src.pos) + 4 * a.Length && a[..] == FloatsAt(src.data, old(src.pos), a.Length, little)
    ensures r.Failure? ==> src.pos == |src.data|
  {
    ghost var start := src.pos;
    for i := 0 to a.Length
      invariant src.Valid() && src.pos == start + 4 * i
      invariant forall k :: 0 <= k < i ==> a[k] == FloatAt(src.data, start + 4 * k, little)
    {
      var f := ReadFloat(src, little);
      if f.Failure? {
        return Failure(EndOfInput);
      }
      a[i] := f.value;
    }
    r := Ok(());
  }

  // ---------------------------------------------------------------------
  // The header and the byte-order probe

  /** The offsets the field order fixes, counted from the start of the
      header: the channel counts at 36 and 238, `n_count`, `version` and
      `hdr_size` at 988, 992 and 996. */
  lemma HeaderOffsets(data: seq<Byte>, p: nat, little: bool)
    requires p + HeaderBytes <= |data|
    ensures var h := HeaderAt(data, p, little);
      && h.channels.nScalars == ShortAt(data, p + 36, little)
      && h.channels.nProperties == ShortAt(data, p + 238, little)
      && h.trailer.nCount == IntAt(data, p + 988, little)
      && h.trailer.version == IntAt(data, p + 992, little)
      && h.trailer.hdrSize == IntAt(data, p + 996, little)
  {
  }

  /** `vox_to_ras[i][j]` is float number `4 * i + j` of the matrix block. */
  lemma MatrixRowMajor(data: seq<Byte>, p: nat, little: bool, i: nat, j: nat)
    requires p + 64 <= |data| && i < 4 && j < 4
    ensures MatrixAt(data, p, little)[i][j] == FloatAt(data, p + 4 * (4 * i + j), little)
  {
  }

  /** The raw blocks hold the octets at 504 .. 947, 948 .. 951, 952 .. 955
      and 980 .. 981 of the header, one for one. */
  lemma HeaderBlocks(data: seq<Byte>, p: nat, little: bool, k: nat)
    requires p + HeaderBytes <= |data|
    ensures var o := HeaderAt(data, p, little).orientation;
      && (k < 444 ==> o.reserved[k] == Int8Of(data[p + 504 + k]))
      && (k < 4 ==> o.axisOrder[k] == CharOf(Int8Of(data[p + 948 + k])))
      && (k < 4 ==> o.pad2[k] == Int8Of(data[p + 952 + k]))
      && (k < 2 ==> o.pad1[k] == Int8Of(data[p + 980 + k]))
  {
  }

  /** When the probe says big-endian, the header decoded big-endian has
      `hdr_size` 1000. */
  lemma BigEndianHeaderSize(data: seq<Byte>, p: nat)
    requires p + HeaderBytes <= |data|
    requires !LittleEndianAt(data, p)
    ensures HeaderAt(data, p, false).trailer.hdrSize == 1000
  {
  }

  /** A header whose `hdr_size` field holds 1000 written in either byte order
      is probed as that byte order, and decodes to `hdr_size` 1000 under it. */
  lemma {:induction false} ProbeFindsWriterOrder(data: seq<Byte>, p: nat, little: bool)
    requires p + HeaderBytes <= |data|
    requires data[p + 996..p + 1000] == EncodeInt32(1000, little)
    ensures LittleEndianAt(data, p) == little
    ensures HeaderAt(data, p, little).trailer.hdrSize == 1000
  {
    Int32RoundTrip(1000, little);
    ProbeBigEndianIff(data, p);
    assert EncodeInt32(1000, true) == [0xE8, 0x03, 0x00, 0x00];
    assert EncodeInt32(1000, false) == [0x00, 0x00, 0x03, 0xE8];
  }
}
