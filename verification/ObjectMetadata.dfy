// The metadata record kept beside an object's cached blocks
// (docker/lancedb-go-disk-cache.rs, `encode_meta` and `decode_meta`).
module ObjectMetadata {
  import opened Wrappers
  import opened BlockRanges

  const TWO_TO_63: int := 0x8000_0000_0000_0000
  const TWO_TO_64: int := 0x1_0000_0000_0000_0000

  // `lastModified` is in nanoseconds and may lie outside the 64-bit range.
  datatype Meta = Meta(size: nat, lastModified: int, eTag: Option<seq<byte>>)

  function LittleEndian(n: nat, width: nat): (bytes: seq<byte>)
    ensures |bytes| == width
  {
    if width == 0 then [] else [n % 256] + LittleEndian(n / 256, width - 1)
  }

  function FromLittleEndian(bytes: seq<byte>): nat {
    if bytes == [] then 0 else bytes[0] + 256 * FromLittleEndian(bytes[1..])
  }

  function Power256(width: nat): nat {
    if width == 0 then 1 else 256 * Power256(width - 1)
  }

  lemma {:induction false} LittleEndianRoundTrip(n: nat, width: nat)
    requires n < Power256(width)
    ensures FromLittleEndian(LittleEndian(n, width)) == n
  {
    if width > 0 {
      LittleEndianRoundTrip(n / 256, width - 1);
      assert LittleEndian(n, width)[1..] == LittleEndian(n / 256, width - 1);
    }
  }

  // Two's complement of a signed 64-bit value.
  function SignedToBits(n: int): nat
    requires -TWO_TO_63 <= n < TWO_TO_63
  {
    if n >= 0 then n else n + TWO_TO_64
  }

  function BitsToSigned(bits: nat): int {
    if bits < TWO_TO_63 then bits else bits - TWO_TO_64
  }

  // Size, last-modified nanoseconds (0 when out of range), then the e-tag.
  function Encode(meta: Meta): seq<byte> {
    var nanos := if -TWO_TO_63 <= meta.lastModified < TWO_TO_63 then meta.lastModified else 0;
    LittleEndian(meta.size, 8) + LittleEndian(SignedToBits(nanos), 8)
      + (if meta.eTag.Some? then meta.eTag.value else [])
  }

  function Decode(data: seq<byte>): Option<Meta> {
    if |data| < 16 then None
    else
      Some(Meta(FromLittleEndian(data[..8]), BitsToSigned(FromLittleEndian(data[8..16])),
                if data[16..] == [] then None else Some(data[16..])))
  }

  // What a cached record can still say about an object.
  function Normalised(meta: Meta): Meta {
    Meta(meta.size,
         if -TWO_TO_63 <= meta.lastModified < TWO_TO_63 then meta.lastModified else 0,
         if meta.eTag == Some([]) then None else meta.eTag)
  }

  // A record decodes to the metadata it was written from, up to the normal form.
  lemma MetaRoundTrip(meta: Meta)
    requires meta.size < TWO_TO_64
    ensures Decode(Encode(meta)) == Some(Normalised(meta))
  {
    var nanos := if -TWO_TO_63 <= meta.lastModified < TWO_TO_63 then meta.lastModified else 0;
    var tag := if meta.eTag.Some? then meta.eTag.value else [];
    var data := Encode(meta);
    assert Power256(8) == TWO_TO_64 by {
      assert Power256(4) == 0x1_0000_0000;
    }
    LittleEndianRoundTrip(meta.size, 8);
    LittleEndianRoundTrip(SignedToBits(nanos), 8);
    assert data[..8] == LittleEndian(meta.size, 8);
    assert data[8..16] == LittleEndian(SignedToBits(nanos), 8);
    assert data[16..] == tag;
  }
}
