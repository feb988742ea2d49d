/**
 * UTF-8 encoding of Unicode scalar values (what `Buffer.from(s)` and
 * `encodeURIComponent` do with a string), with its decoder.
 */
module Utf8 {
  import opened Bytes
  import opened Wrappers

  predicate IsContinuation(b: Byte) {
    0x80 <= b < 0xC0
  }

  /** The one to four bytes of one scalar value. */
  function EncodeChar(c: char): (r: seq<Byte>)
    ensures 1 <= |r| <= 4
    ensures c as int < 0x80 <==> |r| == 1
    ensures |r| == 1 ==> r[0] == c as int
    ensures forall i :: 1 <= i < |r| ==> IsContinuation(r[i])
    ensures r[0] < 0x80 || 0xC0 <= r[0] < 0xF8
  {
    var n := c as int;
    if n < 0x80 then [n]
    else if n < 0x800 then [0xC0 + n / 64, 0x80 + n % 64]
    else if n < 0x1_0000 then [0xE0 + n / 4096, 0x80 + (n / 64) % 64, 0x80 + n % 64]
    else [0xF0 + n / 0x4_0000, 0x80 + (n / 4096) % 64, 0x80 + (n / 64) % 64, 0x80 + n % 64]
  }

  function Encode(s: string): (r: seq<Byte>)
    ensures |r| >= |s|
  {
    if s == [] then [] else EncodeChar(s[0]) + Encode(s[1..])
  }

  /** Number of bytes of the sequence a leading byte starts. */
  function SequenceLength(lead: Byte): nat {
    if lead < 0x80 then 1 else if lead < 0xE0 then 2 else if lead < 0xF0 then 3 else 4
  }

  /** The code point an encoded sequence spells out, ignoring its marker bits. */
  function CodePoint(b: seq<Byte>): int
    requires 1 <= |b| <= 4
  {
    var b0: int := b[0];
    if |b| == 1 then b0
    else
      var b1: int := b[1];
      if |b| == 2 then (b0 - 0xC0) * 64 + (b1 - 0x80)
      else
        var b2: int := b[2];
        if |b| == 3 then (b0 - 0xE0) * 4096 + (b1 - 0x80) * 64 + (b2 - 0x80)
        else
          var b3: int := b[3];
          (b0 - 0xF0) * 0x4_0000 + (b1 - 0x80) * 4096 + (b2 - 0x80) * 64 + (b3 - 0x80)
  }

  /** The scalar value of one encoded sequence, when it denotes one. */
  function DecodeChar(b: seq<Byte>): Option<char>
    requires 1 <= |b| <= 4
  {
    var n := CodePoint(b);
    if 0 <= n < 0xD800 || 0xE000 <= n < 0x11_0000 then Some(n as char) else None
  }

  function Decode(b: seq<Byte>): Option<string>
    decreases |b|
  {
    if b == [] then Some([])
    else
      var k := SequenceLength(b[0]);
      if |b| < k then None
      else match DecodeChar(b[..k])
        case None => None
        case Some(c) =>
          match Decode(b[k..])
          case None => None
          case Some(rest) => Some([c] + rest)
  }

  lemma DecodeEncodeChar(c: char)
    ensures SequenceLength(EncodeChar(c)[0]) == |EncodeChar(c)|
    ensures DecodeChar(EncodeChar(c)) == Some(c)
  {
    var n := c as int;
    var e := EncodeChar(c);
    if n < 0x80 {
    } else if n < 0x800 {
      Split2(n);
      assert CodePoint(e) == n;
    } else if n < 0x1_0000 {
      Split3(n);
      assert CodePoint(e) == n;
    } else {
      Split4(n);
      assert CodePoint(e) == n;
    }
  }

  lemma Split2(n: int)
    requires 0x80 <= n < 0x800
    ensures (n / 64) * 64 + n % 64 == n
    ensures 0xC0 <= 0xC0 + n / 64 < 0xE0
  {
  }

  lemma Split3(n: int)
    requires 0x800 <= n < 0x1_0000
    ensures (n / 4096) * 4096 + ((n / 64) % 64) * 64 + n % 64 == n
    ensures 0xE0 <= 0xE0 + n / 4096 < 0xF0
  {
    var q := n / 64;
    assert n == q * 64 + n % 64;
    assert q == (q / 64) * 64 + q % 64;
    assert q / 64 == n / 4096;
  }

  lemma Split4(n: int)
    requires 0x1_0000 <= n < 0x11_0000
    ensures (n / 0x4_0000) * 0x4_0000 + ((n / 4096) % 64) * 4096 + ((n / 64) % 64) * 64 + n % 64 == n
    ensures 0xF0 <= 0xF0 + n / 0x4_0000 < 0xF8
  {
    var q := n / 64;
    var q2 := q / 64;
    assert n == q * 64 + n % 64;
    assert q == q2 * 64 + q % 64;
    assert q2 == n / 4096;
    assert q2 == (q2 / 64) * 64 + q2 % 64;
    assert q2 / 64 == n / 0x4_0000;
  }

  /** Decoding undoes encoding: the encoding is injective. */
  lemma {:induction false} DecodeEncode(s: string)
    ensures Decode(Encode(s)) == Some(s)
  {
    if s != [] {
      var e := EncodeChar(s[0]);
      var b := Encode(s);
      DecodeEncodeChar(s[0]);
      assert b[..|e|] == e;
      assert b[|e|..] == Encode(s[1..]);
      DecodeEncode(s[1..]);
      assert [s[0]] + s[1..] == s;
    }
  }

  /** On ASCII text the encoding is one byte per character, equal to its code. */
  lemma {:induction false} EncodeAscii(s: string)
    requires forall i :: 0 <= i < |s| ==> s[i] as int < 0x80
    ensures Encode(s) == Ascii(s)
  {
    if s != [] {
      EncodeAscii(s[1..]);
    }
  }
}
