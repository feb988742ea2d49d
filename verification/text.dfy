/**
 * `String.prototype.trim` and the `\s` character class of JavaScript
 * regular expressions, which both use the WhiteSpace and LineTerminator
 * code points of ECMAScript.
 */
module Text {

  /** ECMAScript WhiteSpace or LineTerminator (the set `\s` matches and `trim` strips). */
  predicate IsSpace(c: char) {
    var n := c as int;
    (0x09 <= n <= 0x0D) || n == 0x20 || n == 0xA0 || n == 0x1680
    || (0x2000 <= n <= 0x200A) || n == 0x2028 || n == 0x2029
    || n == 0x202F || n == 0x205F || n == 0x3000 || n == 0xFEFF
  }

  /** True iff `s` is empty or starts and ends with a non-space character. */
  predicate Trimmed(s: string) {
    s == [] || (!IsSpace(s[0]) && !IsSpace(s[|s| - 1]))
  }

  /** True iff every character of `s` is a space. */
  predicate Blank(s: string) {
    forall i :: 0 <= i < |s| ==> IsSpace(s[i])
  }

  /** The number of spaces `s` starts with. */
  function LeadingSpaces(s: string): (k: nat)
    ensures k <= |s|
  {
    if s != [] && IsSpace(s[0]) then LeadingSpaces(s[1..]) + 1 else 0
  }

  /** Where the run of spaces that `s` ends with begins. */
  function TrailingStart(s: string): (k: nat)
    ensures k <= |s|
  {
    if s != [] && IsSpace(s[|s| - 1]) then TrailingStart(s[..|s| - 1]) else |s|
  }

  /** `LeadingSpaces` counts the longest run of spaces at the start. */
  lemma {:induction false} LeadingSpacesSpec(s: string)
    ensures forall i :: 0 <= i < LeadingSpaces(s) ==> IsSpace(s[i])
    ensures LeadingSpaces(s) < |s| ==> !IsSpace(s[LeadingSpaces(s)])
  {
    if s != [] && IsSpace(s[0]) {
      LeadingSpacesSpec(s[1..]);
      assert forall i :: 1 <= i < LeadingSpaces(s) ==> s[i] == s[1..][i - 1];
    }
  }

  /** `TrailingStart` finds the longest run of spaces at the end. */
  lemma {:induction false} TrailingStartSpec(s: string)
    ensures forall i :: TrailingStart(s) <= i < |s| ==> IsSpace(s[i])
    ensures TrailingStart(s) > 0 ==> !IsSpace(s[TrailingStart(s) - 1])
  {
    if s != [] && IsSpace(s[|s| - 1]) {
      TrailingStartSpec(s[..|s| - 1]);
    }
  }

  function TrimStart(s: string): string {
    s[LeadingSpaces(s)..]
  }

  function TrimEnd(s: string): string {
    s[..TrailingStart(s)]
  }

  /** `s.trim()`: `s` without its leading and trailing spaces. */
  function Trim(s: string): string {
    TrimEnd(TrimStart(s))
  }

  /** The result of `trim` is trimmed and is a contiguous slice of the input framed by spaces. */
  lemma TrimSpec(s: string)
    ensures Trimmed(Trim(s))
    ensures exists i, j :: 0 <= i <= j <= |s| && Trim(s) == s[i..j] && Blank(s[..i]) && Blank(s[j..])
  {
    var i := LeadingSpaces(s);
    var t := TrimStart(s);
    var k := TrailingStart(t);
    var r := Trim(s);
    LeadingSpacesSpec(s);
    TrailingStartSpec(t);
    assert r == s[i..i + k];
    assert Blank(s[..i]);
    assert s[i + k..] == t[k..];
    assert Blank(s[i + k..]);
    if r != [] {
      assert r[0] == t[0];
      assert r[|r| - 1] == t[k - 1];
    }
  }

  /** A string that is already trimmed is left unchanged. */
  lemma TrimOfTrimmed(s: string)
    requires Trimmed(s)
    ensures Trim(s) == s
  {
    assert LeadingSpaces(s) == 0;
    assert s[0..] == s;
    assert TrailingStart(s) == |s|;
  }

  /** Trimming twice is trimming once. */
  lemma TrimIdempotent(s: string)
    ensures Trim(Trim(s)) == Trim(s)
  {
    TrimSpec(s);
    TrimOfTrimmed(Trim(s));
  }

  /** `trim` yields the empty string exactly on blank input. */
  lemma TrimEmptyIffBlank(s: string)
    ensures Trim(s) == [] <==> Blank(s)
  {
    var i := LeadingSpaces(s);
    var t := TrimStart(s);
    LeadingSpacesSpec(s);
    TrailingStartSpec(t);
    if Blank(s) {
      assert i == |s|;
    } else {
      assert i < |s| && t[0] == s[i] && !IsSpace(t[0]);
      assert TrailingStart(t) > 0;
    }
  }

  /** Spaces around a trimmed core are exactly what `trim` removes. */
  lemma TrimFramed(pre: string, core: string, post: string)
    requires Blank(pre) && Blank(post)
    requires core != [] && Trimmed(core)
    ensures Trim(pre + core + post) == core
  {
    var s := pre + core + post;
    TrimStartFramed(pre, core + post);
    assert s == pre + (core + post);
    assert TrimStart(s) == core + post;
    TrimEndFramed(core, post);
  }

  lemma {:induction false} TrimStartFramed(pre: string, rest: string)
    requires Blank(pre)
    requires rest != [] && !IsSpace(rest[0])
    ensures TrimStart(pre + rest) == rest
    decreases |pre|
  {
    if pre != [] {
      assert (pre + rest)[1..] == pre[1..] + rest;
      TrimStartFramed(pre[1..], rest);
      assert LeadingSpaces(pre + rest) == 1 + LeadingSpaces(pre[1..] + rest);
    } else {
      assert pre + rest == rest;
    }
  }

  lemma {:induction false} TrimEndFramed(rest: string, post: string)
    requires Blank(post)
    requires rest != [] && !IsSpace(rest[|rest| - 1])
    ensures TrimEnd(rest + post) == rest
    decreases |post|
  {
    if post != [] {
      var s := rest + post;
      assert s[..|s| - 1] == rest + post[..|post| - 1];
      TrimEndFramed(rest, post[..|post| - 1]);
    } else {
      assert rest + post == rest;
    }
  }

  // ---- `a:b` keys ----

  /** True iff `s` holds no `:`. */
  predicate NoColon(s: string) {
    forall i :: 0 <= i < |s| ==> s[i] != ':'
  }

  /** Position of the first `:` in `s`, or `|s|` when there is none. */
  function ColonIndex(s: string): (i: nat)
    ensures i <= |s|
  {
    if s == [] || s[0] == ':' then 0 else 1 + ColonIndex(s[1..])
  }

  /** The first `:` of `a:b` is the one after `a` when `a` has none. */
  lemma {:induction false} ColonIndexOfJoin(a: string, b: string)
    requires NoColon(a)
    ensures ColonIndex(a + ":" + b) == |a|
  {
    if a != [] {
      assert (a + ":" + b)[1..] == a[1..] + ":" + b;
      ColonIndexOfJoin(a[1..], b);
    }
  }

  /** With no `:` in the first parts, `a:b` determines `a` and `b`. */
  lemma ColonJoinInjective(a1: string, b1: string, a2: string, b2: string)
    requires NoColon(a1) && NoColon(a2)
    requires a1 + ":" + b1 == a2 + ":" + b2
    ensures a1 == a2 && b1 == b2
  {
    var k := a1 + ":" + b1;
    ColonIndexOfJoin(a1, b1);
    ColonIndexOfJoin(a2, b2);
    assert a1 == k[..|a1|] == a2;
    assert b1 == k[|a1| + 1..] == b2;
  }
}
