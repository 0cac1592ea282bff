/** The byte source the reader decodes from: a `DataInputStream` over the
    bytes of a file, here a sequence of octets and a cursor. */
module Input {
  import opened Wrappers
  import opened Primitives

  /** `DataInputStream.readShort`: two octets, most significant first. */
  function BigEndian16(hi: Byte, lo: Byte): Int16 {
    ToInt16((hi as int) * 0x100 + lo as int)
  }

  /** `DataInputStream.readInt`: four octets, most significant first. */
  function BigEndian32(bytes: seq<Byte>): Int32
    requires |bytes| == 4
  {
    ToInt32((bytes[0] as int) * 0x100_0000 + (bytes[1] as int) * 0x1_0000 + (bytes[2] as int) * 0x100 + bytes[3] as int)
  }

  class DataSource {
    /** Everything the stream will ever deliver. */
    const data: seq<Byte>
    /** How many octets have been consumed. */
    var pos: nat

    ghost predicate Valid()
      reads this
    {
      pos <= |data|
    }

    constructor (bytes: seq<Byte>)
      ensures Valid() && data == bytes && pos == 0
    {
      data := bytes;
      pos := 0;
    }

    /** `readByte`: one signed byte. A failed read (end of input) has used up
        whatever was left, as `DataInputStream` does before it throws. */
    method ReadByte() returns (r: Result<Int8>)
      requires Valid()
      modifies this
      ensures Valid()
      ensures r.Ok? <==> old(pos) + 1 <= |data|
      ensures r.Ok? ==> pos == old(pos) + 1 && r.value == Int8Of(data[old(pos)])
      ensures r.Failure? ==> pos == |data|
    {
      if pos + 1 <= |data| {
        r := Ok(Int8Of(data[pos]));
        pos := pos + 1;
      } else {
        r := Failure(EndOfInput);
        pos := |data|;
      }
    }

    /** `readShort`: a big-endian 16-bit value. */
    method ReadShort() returns (r: Result<Int16>)
      requires Valid()
      modifies this
      ensures Valid()
      ensures r.Ok? <==> old(pos) + 2 <= |data|
      ensures r.Ok? ==> pos == old(pos) + 2 && r.value == BigEndian16(data[old(pos)], data[old(pos) + 1])
      ensures r.Failure? ==> pos == |data|
    {
      if pos + 2 <= |data| {
        r := Ok(BigEndian16(data[pos], data[pos + 1]));
        pos := pos + 2;
      } else {
        r := Failure(EndOfInput);
        pos := |data|;
      }
    }

    /** `readInt`: a big-endian 32-bit value. */
    method ReadInt() returns (r: Result<Int32>)
      requires Valid()
      modifies this
      ensures Valid()
      ensures r.Ok? <==> old(pos) + 4 <= |data|
      ensures r.Ok? ==> pos == old(pos) + 4 && r.value == BigEndian32(data[old(pos)..pos])
      ensures r.Failure? ==> pos == |data|
    {
      if pos + 4 <= |data| {
        r := Ok(BigEndian32(data[pos..pos + 4]));
        pos := pos + 4;
      } else {
        r := Failure(EndOfInput);
        pos := |data|;
      }
    }

    /** `readFloat`: `Float.intBitsToFloat(readInt())`. */
    method ReadFloat() returns (r: Result<Float32>)
      requires Valid()
      modifies this
      ensures Valid()
      ensures r.Ok? <==> old(pos) + 4 <= |data|
      ensures r.Ok? ==> pos == old(pos) + 4 && r.value == Float32(BigEndian32(data[old(pos)..pos]))
      ensures r.Failure? ==> pos == |data|
    {
      var bits :- ReadInt();
      r := Ok(Float32(bits));
    }

    /** `skipBytes(n)`: skips up to `n` octets, never fails, and reports how
        many it skipped (fewer than `n` only at the end of the input). */
    method SkipBytes(n: Int32) returns (skipped: int)
      requires Valid()
      modifies this
      ensures Valid()
      ensures skipped == if n <= 0 then 0 else if old(pos) + n <= |data| then n else |data| - old(pos)
      ensures pos == old(pos) + skipped
    {
      if n <= 0 {
        skipped := 0;
      } else if pos + n <= |data| {
        skipped := n;
      } else {
        skipped := |data| - pos;
      }
      pos := pos + skipped;
    }
  }
}
