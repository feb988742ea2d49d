/**
 * `encodeURIComponent`: the UTF-8 bytes of a string, with every byte that
 * is not an unreserved character written as `%XX` (upper-case hex).
 */
module Uri {
  import opened Bytes
  import opened Wrappers
  import Utf8

  /** The characters `encodeURIComponent` leaves as they are. */
  predicate Unreserved(c: char) {
    ('A' <= c <= 'Z') || ('a' <= c <= 'z') || ('0' <= c <= '9')
    || c == '-' || c == '_' || c == '.' || c == '!' || c == '~' || c == '*' || c == '\'' || c == '(' || c == ')'
  }

  function HexDigit(v: int): (c: char)
    requires 0 <= v < 16
    ensures !Unreserved(c) || ('0' <= c <= '9') || ('A' <= c <= 'F')
  {
    if v < 10 then ('0' as int + v) as char else ('A' as int + (v - 10)) as char
  }

  predicate IsHex(c: char) {
    ('0' <= c <= '9') || ('A' <= c <= 'F') || ('a' <= c <= 'f')
  }

  function HexValue(c: char): (v: int)
    requires IsHex(c)
    ensures 0 <= v < 16
  {
    if '0' <= c <= '9' then c as int - '0' as int
    else if 'A' <= c <= 'F' then c as int - 'A' as int + 10
    else c as int - 'a' as int + 10
  }

  /** One byte as it appears in the output. */
  function EscapeByte(b: Byte): (r: string)
    ensures |r| == 1 ==> Unreserved(r[0]) && r[0] as int == b
    ensures |r| != 1 ==> |r| == 3 && r[0] == '%' && IsHex(r[1]) && IsHex(r[2])
  {
    if b < 0x80 && Unreserved(b as char) then [b as char] else ['%', HexDigit(b / 16), HexDigit(b % 16)]
  }

  function EscapeBytes(bs: seq<Byte>): string {
    if bs == [] then "" else EscapeByte(bs[0]) + EscapeBytes(bs[1..])
  }

  /** `encodeURIComponent(s)`. */
  function EncodeComponent(s: string): string {
    EscapeBytes(Utf8.Encode(s))
  }

  /** The bytes a percent-encoded string stands for, when it is well formed. */
  function UnescapeBytes(t: string): Option<seq<Byte>>
    decreases |t|
  {
    if t == [] then Some([])
    else if t[0] == '%' then
      if |t| >= 3 && IsHex(t[1]) && IsHex(t[2]) then
        match UnescapeBytes(t[3..])
        case None => None
        case Some(rest) => Some([HexValue(t[1]) * 16 + HexValue(t[2])] + rest)
      else None
    else if Unreserved(t[0]) then
      match UnescapeBytes(t[1..])
      case None => None
      case Some(rest) => Some([t[0] as int] + rest)
    else None
  }

  /** `decodeURIComponent(t)`, on the strings the encoder produces. */
  function DecodeComponent(t: string): Option<string> {
    match UnescapeBytes(t)
    case None => None
    case Some(bs) => Utf8.Decode(bs)
  }

  lemma UnescapeEscapeByte(b: Byte, t: string)
    ensures UnescapeBytes(EscapeByte(b) + t) ==
      (match UnescapeBytes(t) case None => None case Some(rest) => Some([b] + rest))
  {
    var e := EscapeByte(b);
    assert (e + t)[|e|..] == t;
    if |e| == 3 {
      assert HexValue(e[1]) == b / 16 && HexValue(e[2]) == b % 16;
    }
  }

  lemma {:induction false} UnescapeEscape(bs: seq<Byte>)
    ensures UnescapeBytes(EscapeBytes(bs)) == Some(bs)
  {
    if bs != [] {
      UnescapeEscape(bs[1..]);
      UnescapeEscapeByte(bs[0], EscapeBytes(bs[1..]));
      assert [bs[0]] + bs[1..] == bs;
    }
  }

  /** Decoding the encoding gives the string back. */
  lemma DecodeEncode(s: string)
    ensures DecodeComponent(EncodeComponent(s)) == Some(s)
  {
    UnescapeEscape(Utf8.Encode(s));
    Utf8.DecodeEncode(s);
  }

  /** The encoding contains only unreserved characters and `%XX` escapes; in particular no `/`. */
  lemma {:induction false} EscapeBytesSafe(bs: seq<Byte>)
    ensures forall i :: 0 <= i < |EscapeBytes(bs)| ==> Unreserved(EscapeBytes(bs)[i]) || EscapeBytes(bs)[i] == '%'
  {
    if bs != [] {
      EscapeBytesSafe(bs[1..]);
      var e := EscapeByte(bs[0]);
      var r := EscapeBytes(bs);
      forall i | 0 <= i < |r| ensures Unreserved(r[i]) || r[i] == '%' {
        if i >= |e| {
          assert r[i] == EscapeBytes(bs[1..])[i - |e|];
        } else if |e| == 3 && i > 0 {
          assert IsHex(r[i]);
        }
      }
    }
  }

  /** A string of unreserved characters is its own encoding. */
  lemma {:induction false} EncodeUnreserved(s: string)
    requires forall i :: 0 <= i < |s| ==> Unreserved(s[i])
    ensures EncodeComponent(s) == s
  {
    if s != [] {
      EncodeUnreserved(s[1..]);
      assert Utf8.Encode(s) == Utf8.EncodeChar(s[0]) + Utf8.Encode(s[1..]);
      assert Utf8.EncodeChar(s[0]) == [s[0] as int];
      assert EncodeComponent(s) == EscapeByte(s[0] as int) + EscapeBytes(Utf8.Encode(s[1..]));
    }
  }
}
