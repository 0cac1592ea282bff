# trakread in Dafny

A model of the reader for TrackVis `.trk` fibre-tractography files in
`nom.bdezonia.trakread`. The model has three parts:

- **The primitive codec (`TrakUtils`).** It decodes a signed byte, a 16-bit
  or 32-bit two's-complement integer, a 32-bit float, or a fixed-width
  zero-terminated string. The short, int and float reads honour a
  little/big-endian flag; `readByte` and `readString` take none.
  `dataIsLittleEndian` probes the byte order from the header's `hdr_size`
  field.
- **The header decoder (`TrakHeader.readFromSource`).** It fills a header
  object field by field from the fixed 1000-octet header.
- **The track scanner (the loop of `TrakData.printSummary`).** It walks the
  variable-length track records that follow the header. It counts the
  complete records and keeps a three-state `trackSize` tracker: `-1` means
  unset, then the first point count, then `-5000` once two counts differ.

Java's `DataInputStream` is modelled as the class `Input.DataSource`: a
constant sequence of octets plus a cursor `pos`.

- Every read either succeeds and advances the cursor by its width, or fails
  with `EndOfInput`.
- A failed read leaves the cursor at the end of the input, because
  `DataInputStream` consumes what is left before it throws.
- An exception is modelled as the `Failure` case of `Wrappers.Result`.
- Java's `byte`, `short` and `int` are subset types of `int`
  (`Primitives.Int8`, `Int16`, `Int32`), and each narrowing is written out.
- A `float` is kept as the 32-bit pattern handed to `Float.intBitsToFloat`
  (`Primitives.Float32`).

Each method is proved against a function of the input octets:

- The readers of `TrakUtils` against `ShortAt`, `IntAt`, `FloatAt` and
  `StringOf`.
- The header object against the layout function `TrakHeader.HeaderAt`. Its
  `Value()` is the decoded header as a value.
- The scan loop `TrakData.ScanTracks` against the recursive function
  `TrakData.Scan` over the octets after the header.

The properties the source promises are lemmas about those functions: the
round trips of the codec, the header offsets, and what `trackSize` means.
The scan is also stated over streams built from records, both complete and
cut short.

The header layout is also given an inverse (`HeaderCodec`):

- `EncodeHeader` writes a header value as its 1000 octets under either byte
  order.
- `HeaderCodec.HeaderRoundTrip` proves the layout decodes them back to the
  same header.
- Since `readFromSource` returns `HeaderAt` of the octets it consumes, it
  gives back every header whose strings fit their fields and avoid NUL, and
  whose chars are `(char)` casts of bytes.

## Model

| member | source | states |
|---|---|---|
| Primitives.Int8Of | src/nom/bdezonia/trakread/TrakUtils.java:79-82 | the signed `byte` of an octet has that octet as its two's-complement pattern, is non-negative exactly for octets below 0x80, and is zero exactly for octet 0 |
| Primitives.Unsigned8 | src/nom/bdezonia/trakread/TrakUtils.java:88-89 | `x & 0xff` gives back the octet whose signed byte is `x` |
| Primitives.ToInt16 | src/nom/bdezonia/trakread/TrakUtils.java:91 | the `(short)` cast keeps the low 16 bits of the assembled value |
| Primitives.ToInt32 | src/nom/bdezonia/trakread/TrakUtils.java:110 | the assembled 32-bit pattern, read as an `int`, is congruent to the pattern modulo 2^32 |
| Primitives.Unsigned32 | src/nom/bdezonia/trakread/TrakUtils.java:110 | every `int` is the wrap of exactly one unsigned pattern in 0 .. 2^32 - 1 |
| Primitives.CharOf | src/nom/bdezonia/trakread/TrakUtils.java:72 | `(char)` of a byte sign-extends it and keeps 16 bits, and is the NUL char exactly for byte 0 |
| Input.DataSource.ReadByte | src/nom/bdezonia/trakread/TrakUtils.java:81 | `DataInput.readByte` succeeds iff an octet is left; it advances by one and returns that octet's signed byte; on failure the input is used up |
| Input.DataSource.ReadShort | src/nom/bdezonia/trakread/TrakUtils.java:97 | `DataInput.readShort` succeeds iff two octets are left and returns them most significant first |
| Input.DataSource.ReadInt | src/nom/bdezonia/trakread/TrakUtils.java:49 | `DataInput.readInt` succeeds iff four octets are left and returns them most significant first |
| Input.DataSource.ReadFloat | src/nom/bdezonia/trakread/TrakUtils.java:135 | `DataInput.readFloat` consumes four octets and yields the big-endian bit pattern |
| Input.DataSource.SkipBytes | src/nom/bdezonia/trakread/TrakUtils.java:47 | `skipBytes(n)` never fails and skips `n` octets, or what is left when fewer remain, or none for `n <= 0` |
| TrakUtils.StringOf | src/nom/bdezonia/trakread/TrakUtils.java:54-77 | the string of a fixed-width field is the characters of the octets before the first zero octet (all of them if there is none); it contains no NUL and is no longer than the field |
| TrakUtils.DecodesToUnique | src/nom/bdezonia/trakread/TrakUtils.java:54-77 | any string meeting that description is `StringOf` of the field, so the description fixes the result |
| TrakUtils.StringExamples | src/nom/bdezonia/trakread/TrakUtils.java:54-77 | `"TRACK\0"` decodes to "TRACK"; `"A\0B\0\0\0"` decodes to "A" |
| TrakUtils.ReadString | src/nom/bdezonia/trakread/TrakUtils.java:54-77 | succeeds iff `maxChars` octets are left (none for a negative count); always consumes all of them, also after a zero octet; returns `StringOf` of exactly those octets |
| TrakUtils.ReadByte | src/nom/bdezonia/trakread/TrakUtils.java:79-82 | consumes one octet and returns its signed byte; there is no byte-order flag; fails iff the input is empty |
| TrakUtils.ReadShort | src/nom/bdezonia/trakread/TrakUtils.java:84-99 | succeeds iff two octets are left; consumes them and returns `ShortAt` under either byte order |
| TrakUtils.ReadInt | src/nom/bdezonia/trakread/TrakUtils.java:101-118 | succeeds iff four octets are left; consumes them and returns `IntAt` under either byte order |
| TrakUtils.ReadFloat | src/nom/bdezonia/trakread/TrakUtils.java:120-137 | succeeds iff four octets are left; consumes them; the float's bit pattern is the `int` that `readInt` gives under the same flag |
| TrakUtils.Int16RoundTrip | src/nom/bdezonia/trakread/TrakUtils.java:84-99 | decoding the two octets of any `short` gives that `short` back, in either byte order |
| TrakUtils.Int16EncodeDecoded | src/nom/bdezonia/trakread/TrakUtils.java:84-99 | any two octets are the encoding of what they decode to, so the 16-bit decoder is a bijection |
| TrakUtils.LittleIsSwappedBig16 | src/nom/bdezonia/trakread/TrakUtils.java:84-99 | little-endian on `[a, b]` equals big-endian on `[b, a]` |
| TrakUtils.Int32RoundTrip | src/nom/bdezonia/trakread/TrakUtils.java:101-118 | decoding the four octets of any `int` gives that `int` back, in either byte order |
| TrakUtils.Int32EncodeDecoded | src/nom/bdezonia/trakread/TrakUtils.java:101-118 | any four octets are the encoding of what they decode to, so the 32-bit decoder is a bijection |
| TrakUtils.LittleIsReversedBig32 | src/nom/bdezonia/trakread/TrakUtils.java:101-118 | little-endian on four octets equals big-endian on the same octets reversed |
| TrakUtils.DataIsLittleEndian | src/nom/bdezonia/trakread/TrakUtils.java:45-52 | succeeds iff 1000 octets are left; consumes exactly those; reports little-endian iff the octets at 996 .. 999, read big-endian, are not 1000 |
| TrakUtils.ProbeBigEndianIff | src/nom/bdezonia/trakread/TrakUtils.java:45-52 | the probe says big-endian exactly when the size field holds the octets 00 00 03 E8 |
| TrakUtils.SwappedSizeFieldIsLittle | src/nom/bdezonia/trakread/TrakUtils.java:45-52 | a size field of E8 03 00 00 is probed as little-endian and reads 1000 little-endian |
| TrakHeader.NamesAt | src/nom/bdezonia/trakread/TrakHeader.java:129-135 | ten name slots, slot `k` being the string field of the 20 octets at `20 * k`, each at most 20 characters |
| TrakHeader.BytesOf | src/nom/bdezonia/trakread/TrakHeader.java:141-143 | a raw block is copied verbatim: as many `byte`s as octets, and each octet is recovered from its `byte` by `& 0xff` |
| TrakHeader.CharsOf | src/nom/bdezonia/trakread/TrakHeader.java:144-146 | `axis_order` keeps one char per octet, whose low eight bits are that octet |
| TrakHeader.HeaderShape | src/nom/bdezonia/trakread/TrakHeader.java:118-155 | a decoded header has an identifier of at most 6 characters, ten names of at most 20 characters in each list, a 4 x 4 matrix and blocks of 444, 4, 4, 6 and 2 entries |
| TrakHeader.HeaderOffsets | src/nom/bdezonia/trakread/TrakHeader.java:118-165 | the field order puts `n_scalars` at 36, `n_properties` at 238, `n_count` at 988, `version` at 992 and `hdr_size` at 996, each decoded as it is |
| TrakHeader.MatrixRowMajor | src/nom/bdezonia/trakread/TrakHeader.java:136-140 | `vox_to_ras[i][j]` is float number `4 * i + j` of the matrix block |
| TrakHeader.HeaderBlocks | src/nom/bdezonia/trakread/TrakHeader.java:141-155 | `reserved`, `axis_order`, `pad2` and `pad1` hold the octets at 504, 948, 952 and 980 one for one, with `axis_order` as the raw byte's char |
| TrakHeader.BigEndianHeaderSize | src/nom/bdezonia/trakread/TrakHeader.java:165 | when the probe says big-endian, the header decoded big-endian has `hdr_size` 1000 |
| TrakHeader.ProbeFindsWriterOrder | src/nom/bdezonia/trakread/TrakUtils.java:45-52 | a header whose size field holds 1000 in either byte order is probed as that order, and then decodes to `hdr_size` 1000 |
| TrakHeader.Header.constructor | src/nom/bdezonia/trakread/TrakHeader.java:34-64 | a new header owns fresh arrays of the declared lengths, with empty identifier and names |
| TrakHeader.Header.ReadFromSource | src/nom/bdezonia/trakread/TrakHeader.java:114-168 | succeeds iff 1000 octets are left; consumes exactly 1000; returns a fresh header whose contents are `HeaderAt` of those octets; nothing is validated |
| TrakHeader.Header.ReadAll | src/nom/bdezonia/trakread/TrakHeader.java:118-165 | the four sections of the object are the sections of the layout at offsets 0, 36, 440 and 982 |
| TrakHeader.Header.ReadFront | src/nom/bdezonia/trakread/TrakHeader.java:118-135 | octets 0 .. 439 give the geometry and the channels sections |
| TrakHeader.Header.ReadBack | src/nom/bdezonia/trakread/TrakHeader.java:136-165 | octets 440 .. 999 give the orientation and the trailer sections and leave the front fields as they were |
| TrakHeader.Header.ReadGeometry | src/nom/bdezonia/trakread/TrakHeader.java:118-127 | octets 0 .. 35 give `id_string`, the dimensions, the voxel sizes and the origin |
| TrakHeader.Header.ReadIdAndDims | src/nom/bdezonia/trakread/TrakHeader.java:118-121 | `id_string` is the string field of 6 octets, then three shorts |
| TrakHeader.Header.ReadScale | src/nom/bdezonia/trakread/TrakHeader.java:122-124 | three floats at 12, 16, 20 |
| TrakHeader.Header.ReadOrigin | src/nom/bdezonia/trakread/TrakHeader.java:125-127 | three floats at 24, 28, 32 |
| TrakHeader.Header.ReadChannels | src/nom/bdezonia/trakread/TrakHeader.java:128-135 | `n_scalars`, all ten scalar-name slots, `n_properties`, all ten property-name slots, whatever the counts say |
| TrakHeader.Header.ReadOrientation | src/nom/bdezonia/trakread/TrakHeader.java:136-155 | the matrix, `reserved`, `axis_order`, `pad2`, the patient orientation and `pad1`, in that order |
| TrakHeader.Header.ReadTrailer | src/nom/bdezonia/trakread/TrakHeader.java:156-165 | the six axis flags, then `n_count`, `version` and `hdr_size` |
| TrakHeader.ReadFlags | src/nom/bdezonia/trakread/TrakHeader.java:156-161 | six raw signed bytes |
| TrakHeader.ReadCounts | src/nom/bdezonia/trakread/TrakHeader.java:163-165 | three `int`s under the byte-order flag |
| TrakHeader.ReadNameSlots | src/nom/bdezonia/trakread/TrakHeader.java:129-131 | the array holds `NamesAt` of the 200 octets read |
| TrakHeader.ReadMatrix | src/nom/bdezonia/trakread/TrakHeader.java:136-140 | the 4 x 4 array's rows are `MatrixAt` of the 64 octets read |
| TrakHeader.ReadByteBlock | src/nom/bdezonia/trakread/TrakHeader.java:141-143 | the array holds the signed bytes of exactly the octets read, one per element |
| TrakHeader.ReadCharBlock | src/nom/bdezonia/trakread/TrakHeader.java:144-146 | the array holds the `(char)` of each octet read |
| TrakHeader.ReadFloatBlock | src/nom/bdezonia/trakread/TrakHeader.java:150-152 | the array holds `FloatsAt` of the octets read |
| HeaderCodec.OctetOf | src/nom/bdezonia/trakread/TrakUtils.java:72 | for every char of the form `(char)` of a byte, gives an octet whose signed byte casts to that char; the octet is 0 exactly for the NUL char |
| HeaderCodec.StringRoundTrip | src/nom/bdezonia/trakread/TrakUtils.java:54-77 | a string without NUL that fits the field, padded with zero octets, reads back as itself |
| HeaderCodec.NamesRoundTrip | src/nom/bdezonia/trakread/TrakHeader.java:129-135 | ten fitting names written into their 20-octet slots read back as the same ten names |
| HeaderCodec.FloatsRoundTrip | src/nom/bdezonia/trakread/TrakHeader.java:150-152 | any floats written one after the other read back as the same floats, in either byte order |
| HeaderCodec.MatrixRoundTrip | src/nom/bdezonia/trakread/TrakHeader.java:136-140 | a 4 x 4 matrix written row by row reads back as the same matrix |
| HeaderCodec.BytesRoundTrip | src/nom/bdezonia/trakread/TrakHeader.java:141-143 | a raw block of `byte`s written as octets is copied back verbatim |
| HeaderCodec.CharsRoundTrip | src/nom/bdezonia/trakread/TrakHeader.java:144-146 | `axis_order` chars that are casts of bytes, written as those octets, read back as the same chars |
| HeaderCodec.GeometryRoundTrip | src/nom/bdezonia/trakread/TrakHeader.java:118-127 | the octets 0 .. 35 written from a geometry section decode to that section |
| HeaderCodec.ChannelsRoundTrip | src/nom/bdezonia/trakread/TrakHeader.java:128-135 | the octets 36 .. 439 written from the counts and names decode to them, whatever the counts say |
| HeaderCodec.OrientationRoundTrip | src/nom/bdezonia/trakread/TrakHeader.java:136-155 | the octets 440 .. 981 written from the matrix, blocks and padding decode to them |
| HeaderCodec.TrailerRoundTrip | src/nom/bdezonia/trakread/TrakHeader.java:156-165 | the octets 982 .. 999 written from the flags and the three `int`s decode to them |
| HeaderCodec.HeaderRoundTrip | src/nom/bdezonia/trakread/TrakHeader.java:114-168 | the 1000 octets written from a header that the layout can hold decode under the same byte order to that header, field for field |
| HeaderCodec.EncodedHeaderProbe | src/nom/bdezonia/trakread/TrakUtils.java:45-52 | a header written with `hdr_size` 1000 is probed as the byte order it was written in |
| TrakData.ReadFloats | src/nom/bdezonia/trakread/TrakData.java:106-118 | `k` floats are read and dropped, none when `k` is not positive; succeeds iff they fit |
| TrakData.ReadPoints | src/nom/bdezonia/trakread/TrakData.java:82-102 | `n` points of `perPoint` floats are read; succeeds iff `PointsBytes` octets are left |
| TrakData.ReadRecordBody | src/nom/bdezonia/trakread/TrakData.java:82-118 | everything after the count: succeeds iff the rest of the record fits, and consumes exactly that |
| TrakData.ScanTracks | src/nom/bdezonia/trakread/TrakData.java:24-133 | the loop's summary (tracks, `trackSize`, normal end or abort) is `Scan` of the octets after the header, with `n_scalars + 3` floats per point and `n_properties` per track; the input is always used up |
| TrakData.ScanStep | src/nom/bdezonia/trakread/TrakData.java:45-122 | one round of the loop: the count read decides between an abort and going on after the record |
| TrakData.ScanCountBound | src/nom/bdezonia/trakread/TrakData.java:30-47 | the scan counts at most a quarter of the octets left and never lowers the count, whatever `n_count` says |
| TrakData.ScanKeepsDifferences | src/nom/bdezonia/trakread/TrakData.java:69-78 | a scan started with `trackSize` -5000 reports -5000 |
| TrakData.PointsBytesMonotone | src/nom/bdezonia/trakread/TrakData.java:82-102 | more points never take fewer octets |
| TrakData.PointsBytesFormula | src/nom/bdezonia/trakread/TrakData.java:82-102 | the points take `4 * max(0, n) * max(0, perPoint)` octets |
| TrakData.RecordBytesFormula | src/nom/bdezonia/trakread/TrakData.java:30-32 | a complete record takes `4 + 4 * max(0, n) * max(0, n_scalars + 3) + 4 * max(0, n_properties)` octets, so at least 4 |
| TrakData.DifferencesAreFinal | src/nom/bdezonia/trakread/TrakData.java:69-78 | once `trackSize` is -5000 no count changes it |
| TrakData.TrackSizeAfterSnoc | src/nom/bdezonia/trakread/TrakData.java:69-78 | one more count is one more update of `trackSize` |
| TrakData.TrackSizeMeaning | src/nom/bdezonia/trakread/TrakData.java:69-78 | when the first count is neither -1 nor -5000 (later counts may be anything): `trackSize` stays -1 with no records, is the common count when all counts agree, and is -5000 when two differ |
| TrakData.AgreeingCounts | src/nom/bdezonia/trakread/TrakData.java:73-78 | after a first count, later counts keep it while they agree and turn it into -5000 at the first difference |
| TrakData.SentinelClash | src/nom/bdezonia/trakread/TrakData.java:69-78 | counts -1 then 5 are reported as a fixed 5, because -1 is also the unset marker; counts 5 then -1 and 5 then -5000 are reported as varying |
| TrakData.ScanOneRecord | src/nom/bdezonia/trakread/TrakData.java:45-122 | a complete record is counted after all its floats are read, its count updates `trackSize`, and the scan goes on after it |
| TrakData.ScanOverRecords | src/nom/bdezonia/trakread/TrakData.java:38-122 | complete records followed by a tail: each is counted, each count updates `trackSize` in order, and the scan goes on with the tail |
| TrakData.CompleteStream | src/nom/bdezonia/trakread/TrakData.java:45-66 | a stream of complete records ends normally with every record counted |
| TrakData.ShortTail | src/nom/bdezonia/trakread/TrakData.java:45-66 | fewer than four octets after the last complete record end the scan normally |
| TrakData.TruncatedStream | src/nom/bdezonia/trakread/TrakData.java:124-130 | a record cut short after its count aborts the scan with the earlier records counted and the cut record's count applied to `trackSize` |
| TrakData.EmptyInput | src/nom/bdezonia/trakread/TrakData.java:36 | no record after the header: 0 tracks and `trackSize` still -1 |
| TrakData.EncodedRecord | src/nom/bdezonia/trakread/TrakData.java:47 | a count encoded in front of a body of the right size is a record that starts with that count |
| TrakData.FixedExample | src/nom/bdezonia/trakread/TrakData.java:55-64 | point counts 5, 5 give a fixed 5 and 2 tracks |
| TrakData.VaryingExample | src/nom/bdezonia/trakread/TrakData.java:55-64 | point counts 5, 7 give varying and 2 tracks |
| TrakData.TwoRecords | src/nom/bdezonia/trakread/TrakData.java:69-78 | two records with 3 floats per point and no properties give 2 tracks and the `trackSize` of their two counts |

## Left out

- `src/Main.java` is not part of this model. It is command-line glue: a fixed path, opening files and exit codes.
- `TrakUtils.fileIsLittleEndian` is left out. It only opens and closes a file around `dataIsLittleEndian`.
- `TrakHeader.print` and every `println` of `printSummary` are left out; they are text output. `printSummary` itself is modelled as `TrakData.ScanTracks`, which returns what the prints report: the track count, `trackSize`, and whether the scan ended normally or was cut short.
- The numeric value of a float is left out: `Float.intBitsToFloat` and Java's float semantics. Floats are kept as their 32-bit patterns.
- `DataInputStream` buffering is left out. So is the way the underlying stream may deliver fewer octets per call. The stream is a sequence of octets with a cursor.
- The `PrintStream` argument of `printSummary` is left out, and so is the `header` beyond its two counts.
- TrakData.ScanTracks: `tracksSoFar` is modelled as an unbounded `nat`. The Java `int` would wrap only after more than 2^31 - 1 records, which needs at least 8 GiB of input.
- TrakData.ScanTracks: on an abort inside a record, Java prints only the error and returns (src/nom/bdezonia/trakread/TrakData.java:128-130). The model also returns the counters reached, tagged `Aborted`; the printing is not modelled.
- TrakUtils.DataIsLittleEndian: the probe consumes 1000 octets and assumes the source starts at offset 0 (src/nom/bdezonia/trakread/TrakUtils.java:38-44); reopening the file before the header is read is left to the caller. The model follows the code.
- TrakData.TrackSizeMeaning: the sentinels -1 and -5000 are ordinary `int`s. A first count of -1 (or a run of -1s at the start) leaves `trackSize` unset, and a first count of -5000 is taken for the marker; a later count is compared with a real count and is handled correctly. The scan is modelled as written (see `TrakData.SentinelClash`), and the three-state reading is proved for every sequence whose first count is not a sentinel.
