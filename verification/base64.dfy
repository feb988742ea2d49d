/**
 * Base64 with padding, the encoding of section 4 of RFC 4648 that
 * `buf.toString('base64')` produces, and its decoder.
 */
module Base64 {
  import opened Bytes
  import opened Wrappers

  type Sextet = x: int | 0 <= x < 64

  /** The 64-character alphabet of section 4 of RFC 4648. */
  function Letter(v: Sextet): (c: char)
    ensures c != '='
  {
    if v < 26 then ('A' as int + v) as char
    else if v < 52 then ('a' as int + (v - 26)) as char
    else if v < 62 then ('0' as int + (v - 52)) as char
    else if v == 62 then '+'
    else '/'
  }

  predicate IsLetter(c: char) {
    ('A' <= c <= 'Z') || ('a' <= c <= 'z') || ('0' <= c <= '9') || c == '+' || c == '/'
  }

  function LetterValue(c: char): (v: Sextet)
    requires IsLetter(c)
  {
    if 'A' <= c <= 'Z' then c as int - 'A' as int
    else if 'a' <= c <= 'z' then c as int - 'a' as int + 26
    else if '0' <= c <= '9' then c as int - '0' as int + 52
    else if c == '+' then 62
    else 63
  }

  lemma LetterRoundTrip(v: Sextet)
    ensures IsLetter(Letter(v)) && LetterValue(Letter(v)) == v
  {
  }

  /** Three bytes as four letters. */
  function Quad(b0: Byte, b1: Byte, b2: Byte): (r: string)
    ensures |r| == 4
  {
    [Letter(b0 / 4), Letter((b0 % 4) * 16 + b1 / 16), Letter((b1 % 16) * 4 + b2 / 64), Letter(b2 % 64)]
  }

  /** Every full group of three bytes gives four letters; a final one or two bytes are padded with `=`. */
  function Encode(b: seq<Byte>): (r: string)
    ensures |r| == 4 * ((|b| + 2) / 3)
    decreases |b|
  {
    if |b| >= 3 then Quad(b[0], b[1], b[2]) + Encode(b[3..])
    else if |b| == 2 then Quad(b[0], b[1], 0)[..3] + "="
    else if |b| == 1 then Quad(b[0], 0, 0)[..2] + "=="
    else ""
  }

  function Decode(s: string): Option<seq<Byte>>
    decreases |s|
  {
    if s == [] then Some([])
    else if |s| < 4 then None
    else if |s| == 4 && s[2] == '=' && s[3] == '=' then
      if IsLetter(s[0]) && IsLetter(s[1]) then
        var v0, v1 := LetterValue(s[0]), LetterValue(s[1]);
        Some([v0 * 4 + v1 / 16])
      else None
    else if |s| == 4 && s[3] == '=' then
      if IsLetter(s[0]) && IsLetter(s[1]) && IsLetter(s[2]) then
        var v0, v1, v2 := LetterValue(s[0]), LetterValue(s[1]), LetterValue(s[2]);
        Some([v0 * 4 + v1 / 16, (v1 % 16) * 16 + v2 / 4])
      else None
    else if IsLetter(s[0]) && IsLetter(s[1]) && IsLetter(s[2]) && IsLetter(s[3]) then
      var v0, v1, v2, v3 := LetterValue(s[0]), LetterValue(s[1]), LetterValue(s[2]), LetterValue(s[3]);
      match Decode(s[4..])
      case None => None
      case Some(rest) => Some([v0 * 4 + v1 / 16, (v1 % 16) * 16 + v2 / 4, (v2 % 4) * 64 + v3] + rest)
    else None
  }

  /** The bit regrouping of one quad is undone by the decoder's regrouping. */
  lemma QuadArithmetic(b0: Byte, b1: Byte, b2: Byte)
    ensures (b0 / 4) * 4 + ((b0 % 4) * 16 + b1 / 16) / 16 == b0
    ensures (((b0 % 4) * 16 + b1 / 16) % 16) * 16 + ((b1 % 16) * 4 + b2 / 64) / 4 == b1
    ensures (((b1 % 16) * 4 + b2 / 64) % 4) * 64 + b2 % 64 == b2
  {
  }

  /** A full quad in front of `t` decodes to its three bytes in front of `t`'s bytes. */
  lemma DecodeQuad(b0: Byte, b1: Byte, b2: Byte, t: string, rest: seq<Byte>)
    requires Decode(t) == Some(rest)
    ensures Decode(Quad(b0, b1, b2) + t) == Some([b0, b1, b2] + rest)
  {
    var s := Quad(b0, b1, b2) + t;
    var v0, v1, v2, v3 := b0 / 4, (b0 % 4) * 16 + b1 / 16, (b1 % 16) * 4 + b2 / 64, b2 % 64;
    assert s[0] == Letter(v0) && s[1] == Letter(v1) && s[2] == Letter(v2) && s[3] == Letter(v3) && s[4..] == t;
    DecodeStep(s, v0, v1, v2, v3);
    QuadArithmetic(b0, b1, b2);
  }

  /** The decoder reads a quad of letters as three bytes and goes on after it. */
  lemma DecodeStep(s: string, v0: Sextet, v1: Sextet, v2: Sextet, v3: Sextet)
    requires |s| >= 4 && s[0] == Letter(v0) && s[1] == Letter(v1) && s[2] == Letter(v2) && s[3] == Letter(v3)
    ensures Decode(s) == match Decode(s[4..])
      case None => None
      case Some(r) => Some([v0 * 4 + v1 / 16, (v1 % 16) * 16 + v2 / 4, (v2 % 4) * 64 + v3] + r)
  {
    LetterRoundTrip(v0);
    LetterRoundTrip(v1);
    LetterRoundTrip(v2);
    LetterRoundTrip(v3);
  }

  lemma DecodeTwo(b0: Byte, b1: Byte)
    ensures Decode(Quad(b0, b1, 0)[..3] + "=") == Some([b0, b1])
  {
    QuadArithmetic(b0, b1, 0);
    LetterRoundTrip(b0 / 4);
    LetterRoundTrip((b0 % 4) * 16 + b1 / 16);
    LetterRoundTrip((b1 % 16) * 4);
  }

  lemma DecodeOne(b0: Byte)
    ensures Decode(Quad(b0, 0, 0)[..2] + "==") == Some([b0])
  {
    QuadArithmetic(b0, 0, 0);
    LetterRoundTrip(b0 / 4);
    LetterRoundTrip((b0 % 4) * 16);
  }

  /** Decoding undoes encoding, for every byte string. */
  lemma {:induction false} DecodeEncode(b: seq<Byte>)
    ensures Decode(Encode(b)) == Some(b)
    decreases |b|
  {
    if |b| >= 3 {
      assert Decode(Encode(b)) == Some([b[0], b[1], b[2]] + b[3..]) by {
        assert Encode(b) == Quad(b[0], b[1], b[2]) + Encode(b[3..]);
        DecodeEncode(b[3..]);
        DecodeQuad(b[0], b[1], b[2], Encode(b[3..]), b[3..]);
      }
      assert [b[0], b[1], b[2]] + b[3..] == b;
    } else if |b| == 2 {
      assert Decode(Encode(b)) == Some([b[0], b[1]]) by {
        DecodeTwo(b[0], b[1]);
      }
      assert b == [b[0], b[1]];
    } else if |b| == 1 {
      assert Decode(Encode(b)) == Some([b[0]]) by {
        DecodeOne(b[0]);
      }
      assert b == [b[0]];
    }
  }

  /** Every character of an encoding is an alphabet letter or padding, and padding only ends it. */
  lemma {:induction false} EncodeAlphabet(b: seq<Byte>)
    ensures forall i :: 0 <= i < |Encode(b)| ==> IsLetter(Encode(b)[i]) || (Encode(b)[i] == '=' && i >= |Encode(b)| - 2)
    decreases |b|
  {
    var s := Encode(b);
    if |b| >= 3 {
      var q := Quad(b[0], b[1], b[2]);
      var t := Encode(b[3..]);
      EncodeAlphabet(b[3..]);
      QuadLetters(b[0], b[1], b[2]);
      assert s == q + t;
      forall i | 0 <= i < |s| ensures IsLetter(s[i]) || (s[i] == '=' && i >= |s| - 2) {
        if i < 4 {
          assert s[i] == q[i];
        } else {
          assert s[i] == t[i - 4];
        }
      }
    } else if |b| == 2 {
      QuadLetters(b[0], b[1], 0);
    } else if |b| == 1 {
      QuadLetters(b[0], 0, 0);
    }
  }

  lemma QuadLetters(b0: Byte, b1: Byte, b2: Byte)
    ensures forall i :: 0 <= i < 4 ==> IsLetter(Quad(b0, b1, b2)[i])
  {
    LetterRoundTrip(b0 / 4);
    LetterRoundTrip((b0 % 4) * 16 + b1 / 16);
    LetterRoundTrip((b1 % 16) * 4 + b2 / 64);
    LetterRoundTrip(b2 % 64);
  }
}
