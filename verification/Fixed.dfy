/**
 Fixed-width little-endian integers in byte buffers.
 */
module Fixed {

  const U32: nat := 0x1_0000_0000
  const U64: nat := 0x1_0000_0000_0000_0000

  type byte = x: int | 0 <= x < 256
  type uint32 = x: int | 0 <= x < U32
  type uint64 = x: int | 0 <= x < U64

  /** Least significant byte first. */
  function Encode32(v: uint32): (b: seq<byte>)
    ensures |b| == 4
  {
    [v % 256, v / 256 % 256, v / 65536 % 256, v / 16777216]
  }

  function Decode32(b: seq<byte>): (v: uint32)
    requires |b| == 4
  {
    (b[0] as int) + 256 * (b[1] as int) + 65536 * (b[2] as int) + 16777216 * (b[3] as int)
  }

  lemma Decode32OfEncode32(v: uint32)
    ensures Decode32(Encode32(v)) == v
  {
    assert v / 65536 == v / 256 / 256;
    assert v / 16777216 == v / 65536 / 256;
  }

  lemma Encode32OfDecode32(b: seq<byte>)
    requires |b| == 4
    ensures Encode32(Decode32(b)) == b
  {
    var v := Decode32(b);
    assert v / 256 == (b[1] as int) + 256 * (b[2] as int) + 65536 * (b[3] as int);
    assert v / 65536 == (b[2] as int) + 256 * (b[3] as int);
  }

  function Encode64(v: uint64): (b: seq<byte>)
    ensures |b| == 8
  {
    Encode32(v % U32) + Encode32(v / U32)
  }

  function Decode64(b: seq<byte>): (v: uint64)
    requires |b| == 8
  {
    Decode32(b[..4]) + U32 * Decode32(b[4..])
  }

  lemma Decode64OfEncode64(v: uint64)
    ensures Decode64(Encode64(v)) == v
  {
    assert Encode64(v)[..4] == Encode32(v % U32);
    assert Encode64(v)[4..] == Encode32(v / U32);
    Decode32OfEncode32(v % U32);
    Decode32OfEncode32(v / U32);
  }

  /** Four zero bytes, and only those, read as zero. */
  lemma Decode32Zero(b: seq<byte>)
    requires |b| == 4
    ensures Decode32(b) == 0 <==> b == [0, 0, 0, 0]
  {
  }

  /** Copy `bytes` into the buffer at `offset`, as memcpy, memset and the encoders do. */
  method Store(buf: array<byte>, offset: nat, bytes: seq<byte>)
    requires offset + |bytes| <= buf.Length
    modifies buf
    ensures buf[..offset + |bytes|] == old(buf[..offset]) + bytes
    ensures buf[offset + |bytes|..] == old(buf[offset + |bytes|..])
  {
    var i := 0;
    while i < |bytes|
      invariant 0 <= i <= |bytes|
      invariant buf[..offset + i] == old(buf[..offset]) + bytes[..i]
      invariant buf[offset + |bytes|..] == old(buf[offset + |bytes|..])
    {
      buf[offset + i] := bytes[i];
      assert buf[..offset + i + 1] == buf[..offset + i] + [bytes[i]];
      i := i + 1;
    }
    assert bytes[..|bytes|] == bytes;
  }
}
