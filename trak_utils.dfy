/** The primitive codec of the reader: byte-order-aware decoding of 16- and
    32-bit integers and floats, fixed-width zero-terminated strings, and the
    byte-order probe on the header's size field. */
module TrakUtils {
  import opened Wrappers
  import opened Primitives
  import opened Input

  // ---------------------------------------------------------------------
  // What a field's octets mean

  /** The 16-bit value stored in `bytes` (in stream order). Little-endian
      assembles `b1 << 8 | b0` (the shifted octets do not overlap, so the
      `|` is a sum); big-endian is `DataInputStream.readShort`. */
  function Int16Of(bytes: seq<Byte>, little: bool): Int16
    requires |bytes| == 2
  {
    if little then ToInt16((bytes[1] as int) * 0x100 + bytes[0] as int)
    else BigEndian16(bytes[0], bytes[1])
  }

  /** The 32-bit value stored in `bytes`: little-endian assembles
      `b3 << 24 | b2 << 16 | b1 << 8 | b0`, big-endian is `readInt`. */
  function Int32Of(bytes: seq<Byte>, little: bool): Int32
    requires |bytes| == 4
  {
    if little then
      ToInt32((bytes[3] as int) * 0x100_0000 + (bytes[2] as int) * 0x1_0000
              + (bytes[1] as int) * 0x100 + bytes[0] as int)
    else BigEndian32(bytes)
  }

  /** The fields at a given offset of the input. */
  function ShortAt(data: seq<Byte>, p: nat, little: bool): Int16
    requires p + 2 <= |data|
  {
    Int16Of(data[p..p + 2], little)
  }

  function IntAt(data: seq<Byte>, p: nat, little: bool): Int32
    requires p + 4 <= |data|
  {
    Int32Of(data[p..p + 4], little)
  }

  function FloatAt(data: seq<Byte>, p: nat, little: bool): Float32
    requires p + 4 <= |data|
  {
    Float32(IntAt(data, p, little))
  }

  /** `s` is what a fixed-width string field holding `bytes` denotes: the
      characters of the octets before the first zero octet, or of all of
      them when there is none. */
  ghost predicate DecodesTo(bytes: seq<Byte>, s: string) {
    && |s| <= |bytes|
    && (forall i :: 0 <= i < |s| ==> bytes[i] != 0 && s[i] == CharOf(Int8Of(bytes[i])))
    && (|s| < |bytes| ==> bytes[|s|] == 0)
  }

  /** The string a fixed-width field holding `bytes` decodes to. */
  function StringOf(bytes: seq<Byte>): (s: string)
    ensures DecodesTo(bytes, s)
    ensures forall c :: c in s ==> c != 0 as char
  {
    if bytes == [] || bytes[0] == 0 then ""
    else [CharOf(Int8Of(bytes[0]))] + StringOf(bytes[1..])
  }

  /** The byte-order probe: the header's size field (offset 996 of the
      1000-byte header at `p`) read big-endian is anything but 1000. */
  function LittleEndianAt(data: seq<Byte>, p: nat): bool
    requires p + 1000 <= |data|
  {
    BigEndian32(data[p + 996..p + 1000]) != 1000
  }

  // ---------------------------------------------------------------------
  // The octets that store a value: the inverses of Int16Of and Int32Of

  function EncodeInt16(v: Int16, little: bool): (bytes: seq<Byte>)
    ensures |bytes| == 2
  {
    var u := if v >= 0 then v else v + 0x1_0000;
    var hi, lo := u / 0x100, u % 0x100;
    if little then [lo, hi] else [hi, lo]
  }

  function EncodeInt32(v: Int32, little: bool): (bytes: seq<Byte>)
    ensures |bytes| == 4
  {
    var u := Unsigned32(v);
    var b3, b2, b1, b0 := u / 0x100_0000, (u / 0x1_0000) % 0x100, (u / 0x100) % 0x100, u % 0x100;
    if little then [b0, b1, b2, b3] else [b3, b2, b1, b0]
  }

  // ---------------------------------------------------------------------
  // Properties of the codec

  /** Decoding what was encoded gives the value back, in either byte order. */
  lemma Int16RoundTrip(v: Int16, little: bool)
    ensures Int16Of(EncodeInt16(v, little), little) == v
  {
    var u := if v >= 0 then v else v + 0x1_0000;
    assert u == (u / 0x100) * 0x100 + u % 0x100;
  }

  /** Every pair of octets is the encoding of the value it decodes to, so the
      16-bit decoder is a bijection. */
  lemma Int16EncodeDecoded(bytes: seq<Byte>, little: bool)
    requires |bytes| == 2
    ensures EncodeInt16(Int16Of(bytes, little), little) == bytes
  {
    var hi, lo := if little then bytes[1] else bytes[0], if little then bytes[0] else bytes[1];
    var u := (hi as int) * 0x100 + lo as int;
    DivMod(hi, lo);
    assert (if Int16Of(bytes, little) >= 0 then Int16Of(bytes, little) else Int16Of(bytes, little) + 0x1_0000) == u;
  }

  /** Little-endian on `[a, b]` is big-endian on `[b, a]`. */
  lemma LittleIsSwappedBig16(a: Byte, b: Byte)
    ensures Int16Of([a, b], true) == Int16Of([b, a], false)
  {
  }

  lemma Int32RoundTrip(v: Int32, little: bool)
    ensures Int32Of(EncodeInt32(v, little), little) == v
  {
    var u := Unsigned32(v);
    Split32(u);
  }

  lemma Int32EncodeDecoded(bytes: seq<Byte>, little: bool)
    requires |bytes| == 4
    ensures EncodeInt32(Int32Of(bytes, little), little) == bytes
  {
    var b3, b2, b1, b0 := if little then bytes[3] else bytes[0], if little then bytes[2] else bytes[1],
                          if little then bytes[1] else bytes[2], if little then bytes[0] else bytes[3];
    var u := (b3 as int) * 0x100_0000 + (b2 as int) * 0x1_0000 + (b1 as int) * 0x100 + b0 as int;
    Join32(b3, b2, b1, b0);
    assert Unsigned32(Int32Of(bytes, little)) == u;
  }

  /** Little-endian on four octets is big-endian on the same octets reversed. */
  lemma LittleIsReversedBig32(bytes: seq<Byte>)
    requires |bytes| == 4
    ensures Int32Of(bytes, true) == Int32Of([bytes[3], bytes[2], bytes[1], bytes[0]], false)
  {
  }

  /** A string field decodes to exactly one string: `StringOf` is the only
      function meeting `DecodesTo`. */
  lemma {:induction false} DecodesToUnique(bytes: seq<Byte>, s: string)
    requires DecodesTo(bytes, s)
    ensures s == StringOf(bytes)
  {
    if bytes == [] || bytes[0] == 0 {
      assert |s| == 0;
    } else {
      assert |s| > 0;
      assert DecodesTo(bytes[1..], s[1..]) by {
        forall i | 0 <= i < |s[1..]|
          ensures bytes[1..][i] != 0 && s[1..][i] == CharOf(Int8Of(bytes[1..][i]))
        {
          assert bytes[1..][i] == bytes[i + 1];
        }
      }
      DecodesToUnique(bytes[1..], s[1..]);
      assert s == [s[0]] + s[1..];
    }
  }

  lemma StringExamples()
    ensures StringOf([0x54, 0x52, 0x41, 0x43, 0x4B, 0x00]) == "TRACK"
    ensures StringOf([0x41, 0x00, 0x42, 0x00, 0x00, 0x00]) == "A"
  {
    DecodesToUnique([0x54, 0x52, 0x41, 0x43, 0x4B, 0x00], "TRACK");
    DecodesToUnique([0x41, 0x00, 0x42, 0x00, 0x00, 0x00], "A");
  }

  /** The probe reports big-endian exactly when the size field holds the
      octets 00 00 03 E8, the big-endian encoding of 1000. */
  lemma {:induction false} ProbeBigEndianIff(data: seq<Byte>, p: nat)
    requires p + 1000 <= |data|
    ensures !LittleEndianAt(data, p) <==> data[p + 996..p + 1000] == [0x00, 0x00, 0x03, 0xE8]
  {
    var field := data[p + 996..p + 1000];
    Int32EncodeDecoded(field, false);
    assert EncodeInt32(1000, false) == [0x00, 0x00, 0x03, 0xE8];
  }

  /** The same field with its octets swapped reads as little-endian. */
  lemma SwappedSizeFieldIsLittle(data: seq<Byte>, p: nat)
    requires p + 1000 <= |data|
    requires data[p + 996..p + 1000] == [0xE8, 0x03, 0x00, 0x00]
    ensures LittleEndianAt(data, p)
    ensures IntAt(data, p + 996, true) == 1000
  {
    ProbeBigEndianIff(data, p);
  }

  // Arithmetic helpers for the codec lemmas.

  lemma DivMod(q: int, r: int)
    requires 0 <= r < 0x100
    ensures (q * 0x100 + r) / 0x100 == q && (q * 0x100 + r) % 0x100 == r
  {
  }

  lemma Split32(u: int)
    requires 0 <= u < 0x1_0000_0000
    ensures u == (u / 0x100_0000) * 0x100_0000 + ((u / 0x1_0000) % 0x100) * 0x1_0000
                 + ((u / 0x100) % 0x100) * 0x100 + u % 0x100
  {
    var a := u / 0x100;
    var b := a / 0x100;
    var c := b / 0x100;
    assert u == a * 0x100 + u % 0x100;
    assert a == b * 0x100 + a % 0x100;
    assert b == c * 0x100 + b % 0x100;
    assert u / 0x1_0000 == b;
    assert u / 0x100_0000 == c;
  }

  lemma Join32(b3: Byte, b2: Byte, b1: Byte, b0: Byte)
    ensures var u := (b3 as int) * 0x100_0000 + (b2 as int) * 0x1_0000 + (b1 as int) * 0x100 + b0 as int;
      && u / 0x100_0000 == b3 && (u / 0x1_0000) % 0x100 == b2
      && (u / 0x100) % 0x100 == b1 && u % 0x100 == b0
  {
    var c := b3 as int;
    var b := c * 0x100 + b2 as int;
    var a := b * 0x100 + b1 as int;
    var u := a * 0x100 + b0 as int;
    DivMod(a, b0);
    DivMod(b, b1);
    DivMod(c, b2);
    assert u / 0x1_0000 == b;
    assert u / 0x100_0000 == c;
  }

  // ---------------------------------------------------------------------
  // The readers: each consumes its fixed width or fails at the end of input

  /** `readByte`: one raw signed byte; the byte order plays no part. */
  method ReadByte(src: DataSource) returns (r: Result<Int8>)
    requires src.Valid()
    modifies src
    ensures src.Valid()
    ensures r.Ok? <==> old(src.pos) + 1 <= |src.data|
    ensures r.Ok? ==> src.pos == old(src.pos) + 1 && r.value == Int8Of(src.data[old(src.pos)])
    ensures r.Failure? ==> src.pos == |src.data|
  {
    r := src.ReadByte();
  }

  method ReadShort(src: DataSource, little: bool) returns (r: Result<Int16>)
    requires src.Valid()
    modifies src
    ensures src.Valid()
    ensures r.Ok? <==> old(src.pos) + 2 <= |src.data|
    ensures r.Ok? ==> src.pos == old(src.pos) + 2 && r.value == ShortAt(src.data, old(src.pos), little)
    ensures r.Failure? ==> src.pos == |src.data|
  {
    if little {
      var x0 :- src.ReadByte();
      var x1 :- src.ReadByte();
      var b0, b1 := Unsigned8(x0), Unsigned8(x1);
      r := Ok(ToInt16((b1 as int) * 0x100 + b0 as int));
    } else {
      r := src.ReadShort();
    }
  }

  method ReadInt(src: DataSource, little: bool) returns (r: Result<Int32>)
    requires src.Valid()
    modifies src
    ensures src.Valid()
    ensures r.Ok? <==> old(src.pos) + 4 <= |src.data|
    ensures r.Ok? ==> src.pos == old(src.pos) + 4 && r.value == IntAt(src.data, old(src.pos), little)
    ensures r.Failure? ==> src.pos == |src.data|
  {
    if little {
      var x0 :- src.ReadByte();
      var x1 :- src.ReadByte();
      var x2 :- src.ReadByte();
      var x3 :- src.ReadByte();
      var b0, b1, b2, b3 := Unsigned8(x0), Unsigned8(x1), Unsigned8(x2), Unsigned8(x3);
      r := Ok(ToInt32((b3 as int) * 0x100_0000 + (b2 as int) * 0x1_0000 + (b1 as int) * 0x100 + b0 as int));
    } else {
      r := src.ReadInt();
    }
  }

  /** `readFloat`: the same four octets and the same bit pattern `readInt`
      would give under the same byte order. */
  method ReadFloat(src: DataSource, little: bool) returns (r: Result<Float32>)
    requires src.Valid()
    modifies src
    ensures src.Valid()
    ensures r.Ok? <==> old(src.pos) + 4 <= |src.data|
    ensures r.Ok? ==> src.pos == old(src.pos) + 4 && r.value.bits == IntAt(src.data, old(src.pos), little)
    ensures r.Failure? ==> src.pos == |src.data|
  {
    if little {
      var x0 :- src.ReadByte();
      var x1 :- src.ReadByte();
      var x2 :- src.ReadByte();
      var x3 :- src.ReadByte();
      var b0, b1, b2, b3 := Unsigned8(x0), Unsigned8(x1), Unsigned8(x2), Unsigned8(x3);
      var intBits := ToInt32((b3 as int) * 0x100_0000 + (b2 as int) * 0x1_0000 + (b1 as int) * 0x100 + b0 as int);
      r := Ok(Float32(intBits));
    } else {
      r := src.ReadFloat();
    }
  }

  /** `readString`: always consumes `maxChars` octets, keeps the characters
      before the first zero octet and reads, but drops, the rest. */
  method ReadString(src: DataSource, maxChars: Int32) returns (r: Result<string>)
    requires src.Valid()
    modifies src
    ensures src.Valid()
    ensures r.Ok? <==> old(src.pos) + Max0(maxChars) <= |src.data|
    ensures r.Ok? ==> src.pos == old(src.pos) + Max0(maxChars)
                      && r.value == StringOf(src.data[old(src.pos)..src.pos])
    ensures r.Failure? ==> src.pos == |src.data|
  {
    ghost var start := src.pos;
    ghost var seen: seq<Byte> := [];
    var sb: string := "";
    var done := false;
    var i := 0;
    while i < maxChars
      invariant 0 <= i <= Max0(maxChars) && |seen| == i
      invariant src.Valid() && src.pos == start + i && seen == src.data[start..src.pos]
      invariant DecodesTo(seen, sb)
      invariant done <==> |sb| < i
    {
      var ch :- src.ReadByte();
      if !done {
        if ch == 0 {
          done := true;
        } else {
          sb := sb + [CharOf(ch)];
        }
      }
      seen := seen + [Unsigned8(ch)];
      i := i + 1;
    }
    DecodesToUnique(seen, sb);
    r := Ok(sb);
  }

  /** `dataIsLittleEndian`: skips to offset 996, reads the size field
      big-endian and compares it with 1000. Fails when fewer than 1000
      octets are left. */
  method DataIsLittleEndian(src: DataSource) returns (r: Result<bool>)
    requires src.Valid()
    modifies src
    ensures src.Valid()
    ensures r.Ok? <==> old(src.pos) + 1000 <= |src.data|
    ensures r.Ok? ==> src.pos == old(src.pos) + 1000 && r.value == LittleEndianAt(src.data, old(src.pos))
    ensures r.Failure? ==> src.pos == |src.data|
  {
    var skipped := src.SkipBytes(996);
    var val :- src.ReadInt();
    r := Ok(val != 1000);
  }

  function Max0(x: int): nat {
    if x < 0 then 0 else x
  }

  // ---------------------------------------------------------------------
  // Octet strings made of chunks one after the other

  function Flatten(chunks: seq<seq<Byte>>): seq<Byte>
    decreases |chunks|
  {
    if chunks == [] then [] else chunks[0] + Flatten(chunks[1..])
  }

  lemma {:induction false} FlattenLength(chunks: seq<seq<Byte>>, w: nat)
    requires forall i :: 0 <= i < |chunks| ==> |chunks[i]| == w
    ensures |Flatten(chunks)| == w * |chunks|
    decreases |chunks|
  {
    if chunks != [] {
      FlattenLength(chunks[1..], w);
      assert w * |chunks| == w + w * (|chunks| - 1);
    }
  }

  /** Chunk `k` lies at offset `w * k`. */
  lemma {:induction false} FlattenChunk(chunks: seq<seq<Byte>>, w: nat, k: nat)
    requires forall i :: 0 <= i < |chunks| ==> |chunks[i]| == w
    requires k < |chunks|
    ensures w * k + w <= |Flatten(chunks)| && Flatten(chunks)[w * k..w * k + w] == chunks[k]
    decreases k
  {
    var rest := Flatten(chunks[1..]);
    assert Flatten(chunks) == chunks[0] + rest;
    FlattenLength(chunks[1..], w);
    if k > 0 {
      FlattenChunk(chunks[1..], w, k - 1);
      var j := w * (k - 1);
      assert w * k == w + j;
      assert j + w <= |rest|;
      AppendSlice(chunks[0], rest, w + j, w + j + w);
    } else {
      assert w * k == 0;
      assert (chunks[0] + rest)[0..w] == chunks[0];
    }
  }

  /** A slice lying wholly in the second part of a concatenation. */
  lemma AppendSlice(u: seq<Byte>, v: seq<Byte>, i: nat, j: nat)
    requires |u| <= i <= j <= |u| + |v|
    ensures (u + v)[i..j] == v[i - |u|..j - |u|]
  {
    forall t | 0 <= t < j - i
      ensures (u + v)[i..j][t] == v[i - |u|..j - |u|][t]
    {
      assert (u + v)[i..j][t] == (u + v)[i + t];
    }
  }
}
