/** Bytes and the little-endian integer encodings of Node's `Buffer` writers. */
module Bytes {

  type Byte = x: int | 0 <= x < 256

  const TWO_16: int := 0x1_0000
  const TWO_32: int := 0x1_0000_0000

  /** `buf.writeUInt16LE(v)`: two bytes, least significant first. */
  function LE16(v: nat): (r: seq<Byte>)
    requires v < TWO_16
    ensures |r| == 2
  {
    [v % 256, v / 256]
  }

  /** `buf.writeUInt32LE(v)`: four bytes, least significant first. */
  function LE32(v: nat): (r: seq<Byte>)
    requires v < TWO_32
    ensures |r| == 4
  {
    [v % 256, (v / 256) % 256, (v / 0x1_0000) % 256, v / 0x100_0000]
  }

  /** `buf.readUInt16LE(0)`. */
  function ReadLE16(b: seq<Byte>): (v: nat)
    requires |b| == 2
    ensures v < TWO_16
  {
    b[0] as int + 256 * (b[1] as int)
  }

  /** `buf.readUInt32LE(0)`. */
  function ReadLE32(b: seq<Byte>): (v: nat)
    requires |b| == 4
    ensures v < TWO_32
  {
    b[0] as int + 256 * (b[1] as int) + 0x1_0000 * (b[2] as int) + 0x100_0000 * (b[3] as int)
  }

  lemma LE16RoundTrip(v: nat)
    requires v < TWO_16
    ensures ReadLE16(LE16(v)) == v
  {
  }

  lemma LE32RoundTrip(v: nat)
    requires v < TWO_32
    ensures ReadLE32(LE32(v)) == v
  {
    var b := LE32(v);
    var q1 := v / 256;
    var q2 := q1 / 256;
    assert v == b[0] + 256 * q1;
    assert q1 == b[1] + 256 * q2;
    assert v / 0x1_0000 == q2;
    assert q2 == b[2] as int + 256 * (b[3] as int);
  }

  /** The bytes of an all-ASCII string, one per character (`buf.write(s)` for such `s`). */
  function Ascii(s: string): (r: seq<Byte>)
    requires forall i :: 0 <= i < |s| ==> s[i] as int < 128
    ensures |r| == |s|
    ensures forall i :: 0 <= i < |s| ==> r[i] == s[i] as int
  {
    seq(|s|, i requires 0 <= i < |s| => s[i] as int)
  }
}
