/**
 * `escapeXml`: the five predefined entities of section 4.6 of XML 1.0,
 * substituted by five global replacements in the order `&`, `<`, `>`, `"`,
 * `'`, together with the unescaping that inverts it.
 */
module XmlEscape {
  import opened Wrappers

  /** The characters that have a predefined entity. */
  predicate Special(c: char) {
    c == '&' || c == '<' || c == '>' || c == '"' || c == '\''
  }

  /** What a character becomes in escaped text. */
  function Entity(c: char): (e: string)
    ensures !Special(c) ==> e == [c]
    ensures Special(c) ==> |e| >= 4 && e[0] == '&' && e[|e| - 1] == ';'
  {
    if c == '&' then "&amp;"
    else if c == '<' then "&lt;"
    else if c == '>' then "&gt;"
    else if c == '"' then "&quot;"
    else if c == '\'' then "&apos;"
    else [c]
  }

  /** `s.replace(/c/g, rep)` for a single-character pattern. */
  function ReplaceAll(s: string, c: char, rep: string): string {
    if s == [] then [] else (if s[0] == c then rep else [s[0]]) + ReplaceAll(s[1..], c, rep)
  }

  /** `escapeXml(text)`: the five replacements applied one after another. */
  function EscapeXml(s: string): string {
    ReplaceAll(ReplaceAll(ReplaceAll(ReplaceAll(ReplaceAll(s, '&', "&amp;"), '<', "&lt;"), '>', "&gt;"), '"', "&quot;"), '\'', "&apos;")
  }

  /** The reference definition: each character replaced by its entity in one pass. */
  function EscapeEach(s: string): string {
    if s == [] then [] else Entity(s[0]) + EscapeEach(s[1..])
  }

  lemma {:induction false} ReplaceAllConcat(a: string, b: string, c: char, rep: string)
    ensures ReplaceAll(a + b, c, rep) == ReplaceAll(a, c, rep) + ReplaceAll(b, c, rep)
  {
    if a == [] {
      assert a + b == b;
    } else {
      assert (a + b)[1..] == a[1..] + b;
      ReplaceAllConcat(a[1..], b, c, rep);
    }
  }

  lemma {:induction false} ReplaceAllAbsent(s: string, c: char, rep: string)
    requires forall i :: 0 <= i < |s| ==> s[i] != c
    ensures ReplaceAll(s, c, rep) == s
  {
    if s != [] {
      ReplaceAllAbsent(s[1..], c, rep);
      assert [s[0]] + s[1..] == s;
    }
  }

  lemma ReplaceAllOne(c: char, d: char, rep: string)
    ensures ReplaceAll([c], d, rep) == if c == d then rep else [c]
  {
    assert [c][1..] == [];
  }

  /** Each replacement after the first leaves the entities introduced so far alone. */
  lemma EscapeXmlChar(c: char)
    ensures EscapeXml([c]) == Entity(c)
  {
    if c == '&' {
      EscapeAmp(c);
    } else if c == '<' {
      EscapeLt(c);
    } else if c == '>' {
      EscapeGt(c);
    } else if c == '"' {
      EscapeQuot(c);
    } else if c == '\'' {
      EscapeApos(c);
    } else {
      EscapePlain(c);
    }
  }

  lemma EscapeAmp(c: char)
    requires c == '&'
    ensures EscapeXml([c]) == "&amp;"
  {
    var s1 := ReplaceAll([c], '&', "&amp;");
    assert s1 == "&amp;" by { ReplaceAllOne(c, '&', "&amp;"); }
    var s2 := ReplaceAll(s1, '<', "&lt;");
    assert s2 == "&amp;" by { ReplaceAllAbsent("&amp;", '<', "&lt;"); }
    var s3 := ReplaceAll(s2, '>', "&gt;");
    assert s3 == "&amp;" by { ReplaceAllAbsent("&amp;", '>', "&gt;"); }
    var s4 := ReplaceAll(s3, '"', "&quot;");
    assert s4 == "&amp;" by { ReplaceAllAbsent("&amp;", '"', "&quot;"); }
    var s5 := ReplaceAll(s4, '\'', "&apos;");
    assert s5 == "&amp;" by { ReplaceAllAbsent("&amp;", '\'', "&apos;"); }
  }

  lemma EscapeLt(c: char)
    requires c == '<'
    ensures EscapeXml([c]) == "&lt;"
  {
    var s1 := ReplaceAll([c], '&', "&amp;");
    assert s1 == [c] by { ReplaceAllOne(c, '&', "&amp;"); }
    var s2 := ReplaceAll(s1, '<', "&lt;");
    assert s2 == "&lt;" by { ReplaceAllOne(c, '<', "&lt;"); }
    var s3 := ReplaceAll(s2, '>', "&gt;");
    assert s3 == "&lt;" by { ReplaceAllAbsent("&lt;", '>', "&gt;"); }
    var s4 := ReplaceAll(s3, '"', "&quot;");
    assert s4 == "&lt;" by { ReplaceAllAbsent("&lt;", '"', "&quot;"); }
    var s5 := ReplaceAll(s4, '\'', "&apos;");
    assert s5 == "&lt;" by { ReplaceAllAbsent("&lt;", '\'', "&apos;"); }
  }

  lemma EscapeGt(c: char)
    requires c == '>'
    ensures EscapeXml([c]) == "&gt;"
  {
    var s1 := ReplaceAll([c], '&', "&amp;");
    assert s1 == [c] by { ReplaceAllOne(c, '&', "&amp;"); }
    var s2 := ReplaceAll(s1, '<', "&lt;");
    assert s2 == [c] by { ReplaceAllOne(c, '<', "&lt;"); }
    var s3 := ReplaceAll(s2, '>', "&gt;");
    assert s3 == "&gt;" by { ReplaceAllOne(c, '>', "&gt;"); }
    var s4 := ReplaceAll(s3, '"', "&quot;");
    assert s4 == "&gt;" by { ReplaceAllAbsent("&gt;", '"', "&quot;"); }
    var s5 := ReplaceAll(s4, '\'', "&apos;");
    assert s5 == "&gt;" by { ReplaceAllAbsent("&gt;", '\'', "&apos;"); }
  }

  lemma EscapeQuot(c: char)
    requires c == '"'
    ensures EscapeXml([c]) == "&quot;"
  {
    var s1 := ReplaceAll([c], '&', "&amp;");
    assert s1 == [c] by { ReplaceAllOne(c, '&', "&amp;"); }
    var s2 := ReplaceAll(s1, '<', "&lt;");
    assert s2 == [c] by { ReplaceAllOne(c, '<', "&lt;"); }
    var s3 := ReplaceAll(s2, '>', "&gt;");
    assert s3 == [c] by { ReplaceAllOne(c, '>', "&gt;"); }
    var s4 := ReplaceAll(s3, '"', "&quot;");
    assert s4 == "&quot;" by { ReplaceAllOne(c, '"', "&quot;"); }
    var s5 := ReplaceAll(s4, '\'', "&apos;");
    assert s5 == "&quot;" by { ReplaceAllAbsent("&quot;", '\'', "&apos;"); }
  }

  lemma EscapeApos(c: char)
    requires c == '\''
    ensures EscapeXml([c]) == "&apos;"
  {
    var s1 := ReplaceAll([c], '&', "&amp;");
    assert s1 == [c] by { ReplaceAllOne(c, '&', "&amp;"); }
    var s2 := ReplaceAll(s1, '<', "&lt;");
    assert s2 == [c] by { ReplaceAllOne(c, '<', "&lt;"); }
    var s3 := ReplaceAll(s2, '>', "&gt;");
    assert s3 == [c] by { ReplaceAllOne(c, '>', "&gt;"); }
    var s4 := ReplaceAll(s3, '"', "&quot;");
    assert s4 == [c] by { ReplaceAllOne(c, '"', "&quot;"); }
    var s5 := ReplaceAll(s4, '\'', "&apos;");
    assert s5 == "&apos;" by { ReplaceAllOne(c, '\'', "&apos;"); }
  }

  lemma EscapePlain(c: char)
    requires !Special(c)
    ensures EscapeXml([c]) == [c]
  {
    ReplaceAllOne(c, '&', "&amp;");
    ReplaceAllOne(c, '<', "&lt;");
    ReplaceAllOne(c, '>', "&gt;");
    ReplaceAllOne(c, '"', "&quot;");
    ReplaceAllOne(c, '\'', "&apos;");
  }

  lemma EscapeXmlConcat(a: string, b: string)
    ensures EscapeXml(a + b) == EscapeXml(a) + EscapeXml(b)
  {
    var a1, b1 := ReplaceAll(a, '&', "&amp;"), ReplaceAll(b, '&', "&amp;");
    ReplaceAllConcat(a, b, '&', "&amp;");
    var a2, b2 := ReplaceAll(a1, '<', "&lt;"), ReplaceAll(b1, '<', "&lt;");
    ReplaceAllConcat(a1, b1, '<', "&lt;");
    var a3, b3 := ReplaceAll(a2, '>', "&gt;"), ReplaceAll(b2, '>', "&gt;");
    ReplaceAllConcat(a2, b2, '>', "&gt;");
    var a4, b4 := ReplaceAll(a3, '"', "&quot;"), ReplaceAll(b3, '"', "&quot;");
    ReplaceAllConcat(a3, b3, '"', "&quot;");
    ReplaceAllConcat(a4, b4, '\'', "&apos;");
  }

  /**
   * Because `&` is replaced first, the chain of replacements is the same
   * as escaping every character once.
   */
  lemma {:induction false} EscapeXmlIsPerCharacter(s: string)
    ensures EscapeXml(s) == EscapeEach(s)
  {
    if s != [] {
      assert s == [s[0]] + s[1..];
      EscapeXmlConcat([s[0]], s[1..]);
      EscapeXmlChar(s[0]);
      EscapeXmlIsPerCharacter(s[1..]);
    }
  }

  /** True iff `t` holds `e` at position `i`. */
  predicate At(t: string, i: int, e: string) {
    0 <= i && i + |e| <= |t| && t[i..i + |e|] == e
  }

  /** True iff an entity begins at position `i` of `t`. */
  predicate EntityAt(t: string, i: int) {
    At(t, i, "&amp;") || At(t, i, "&lt;") || At(t, i, "&gt;") || At(t, i, "&quot;") || At(t, i, "&apos;")
  }

  /** `<`, `>`, `"` and `'`: the specials other than `&`. */
  predicate Markup(c: char) {
    c == '<' || c == '>' || c == '"' || c == '\''
  }

  /** No markup character anywhere, and every `&` begins an entity. */
  predicate SafeText(t: string) {
    && (forall i :: 0 <= i < |t| ==> !Markup(t[i]))
    && (forall i :: 0 <= i < |t| && t[i] == '&' ==> EntityAt(t, i))
  }

  lemma AtExtend(t: string, post: string, i: int, e: string)
    requires At(t, i, e)
    ensures At(t + post, i, e)
  {
    assert (t + post)[i..i + |e|] == t[i..i + |e|];
  }

  lemma AtShift(pre: string, t: string, i: int, e: string)
    requires At(t, i, e)
    ensures At(pre + t, i + |pre|, e)
  {
    assert (pre + t)[i + |pre|..i + |pre| + |e|] == t[i..i + |e|];
  }

  lemma EntityAtExtend(t: string, post: string, i: int)
    requires EntityAt(t, i)
    ensures EntityAt(t + post, i)
  {
    if At(t, i, "&amp;") { AtExtend(t, post, i, "&amp;"); }
    else if At(t, i, "&lt;") { AtExtend(t, post, i, "&lt;"); }
    else if At(t, i, "&gt;") { AtExtend(t, post, i, "&gt;"); }
    else if At(t, i, "&quot;") { AtExtend(t, post, i, "&quot;"); }
    else { AtExtend(t, post, i, "&apos;"); }
  }

  lemma EntityAtShift(pre: string, t: string, i: int)
    requires EntityAt(t, i)
    ensures EntityAt(pre + t, i + |pre|)
  {
    if At(t, i, "&amp;") { AtShift(pre, t, i, "&amp;"); }
    else if At(t, i, "&lt;") { AtShift(pre, t, i, "&lt;"); }
    else if At(t, i, "&gt;") { AtShift(pre, t, i, "&gt;"); }
    else if At(t, i, "&quot;") { AtShift(pre, t, i, "&quot;"); }
    else { AtShift(pre, t, i, "&apos;"); }
  }

  lemma SafeTextConcat(a: string, b: string)
    requires SafeText(a) && SafeText(b)
    ensures SafeText(a + b)
  {
    var t := a + b;
    forall i | 0 <= i < |t| ensures !Markup(t[i]) && (t[i] == '&' ==> EntityAt(t, i)) {
      if i < |a| {
        assert t[i] == a[i];
        if a[i] == '&' { EntityAtExtend(a, b, i); }
      } else {
        assert t[i] == b[i - |a|];
        if b[i - |a|] == '&' { EntityAtShift(a, b, i - |a|); }
      }
    }
  }

  lemma EntitySafe(c: char)
    ensures SafeText(Entity(c))
  {
    var e := Entity(c);
    if Special(c) {
      assert At(e, 0, e);
    }
  }

  /**
   * Escaped text holds no `<`, `>`, `"` or `'`, and every `&` in it begins
   * one of the five entities.
   */
  lemma EscapeXmlSafe(s: string)
    ensures SafeText(EscapeXml(s))
  {
    EscapeXmlIsPerCharacter(s);
    EscapeEachSafe(s);
  }

  lemma {:induction false} EscapeEachSafe(s: string)
    ensures SafeText(EscapeEach(s))
  {
    if s != [] {
      EscapeEachSafe(s[1..]);
      EntitySafe(s[0]);
      SafeTextConcat(Entity(s[0]), EscapeEach(s[1..]));
    }
  }

  /** Text without special characters is left as it is. */
  /** Nothing in `s` is one of the five characters `escapeXml` replaces. */
  predicate NoSpecial(s: string) {
    forall i :: 0 <= i < |s| ==> !Special(s[i])
  }

  lemma {:induction false} EscapeXmlIdentity(s: string)
    requires NoSpecial(s)
    ensures EscapeXml(s) == s
  {
    EscapeXmlIsPerCharacter(s);
    EscapeEachIdentity(s);
  }

  lemma {:induction false} EscapeEachIdentity(s: string)
    requires forall i :: 0 <= i < |s| ==> !Special(s[i])
    ensures EscapeEach(s) == s
  {
    if s != [] {
      EscapeEachIdentity(s[1..]);
      assert [s[0]] + s[1..] == s;
    }
  }

  /** The entity at the start of `t`, as the character it stands for and its length. */
  function LeadingEntity(t: string): Option<(char, nat)> {
    if At(t, 0, "&amp;") then Some(('&', 5))
    else if At(t, 0, "&lt;") then Some(('<', 4))
    else if At(t, 0, "&gt;") then Some(('>', 4))
    else if At(t, 0, "&quot;") then Some(('"', 6))
    else if At(t, 0, "&apos;") then Some(('\'', 6))
    else None
  }

  function Prepend(c: char, rest: Option<string>): Option<string> {
    match rest
    case None => None
    case Some(r) => Some([c] + r)
  }

  /** Replaces each entity by its character; `None` on a bare special character or an unknown entity. */
  function Unescape(t: string): Option<string>
    decreases |t|
  {
    if t == [] then Some([])
    else if t[0] == '&' then
      match LeadingEntity(t)
      case None => None
      case Some((c, n)) => if n <= |t| then Prepend(c, Unescape(t[n..])) else None
    else if Special(t[0]) then None
    else Prepend(t[0], Unescape(t[1..]))
  }

  lemma UnescapeEntity(c: char, rest: string)
    ensures Unescape(Entity(c) + rest) == Prepend(c, Unescape(rest))
  {
    var e := Entity(c);
    var t := e + rest;
    LeadsWith(e, rest);
    if !Special(c) {
      assert t[0] == c && t[1..] == rest;
    } else if c == '&' {
      UnescapeLeading(t, c, 5, rest);
    } else if c == '<' {
      Differs(t, "&amp;", 1);
      UnescapeLeading(t, c, 4, rest);
    } else if c == '>' {
      Differs(t, "&amp;", 1);
      Differs(t, "&lt;", 1);
      UnescapeLeading(t, c, 4, rest);
    } else if c == '"' {
      Differs(t, "&amp;", 1);
      Differs(t, "&lt;", 1);
      Differs(t, "&gt;", 1);
      UnescapeLeading(t, c, 6, rest);
    } else {
      Differs(t, "&amp;", 2);
      Differs(t, "&lt;", 1);
      Differs(t, "&gt;", 1);
      Differs(t, "&quot;", 1);
      UnescapeLeading(t, c, 6, rest);
    }
  }

  lemma LeadsWith(e: string, rest: string)
    ensures At(e + rest, 0, e) && (e + rest)[|e|..] == rest
  {
    assert (e + rest)[0..|e|] == e;
  }

  lemma Differs(t: string, e: string, i: nat)
    requires i < |e| && i < |t| && t[i] != e[i]
    ensures !At(t, 0, e)
  {
    if |e| <= |t| {
      assert t[0..|e|][i] == t[i];
    }
  }

  lemma UnescapeLeading(t: string, c: char, n: nat, rest: string)
    requires t != [] && t[0] == '&' && LeadingEntity(t) == Some((c, n)) && n <= |t| && t[n..] == rest
    ensures Unescape(t) == Prepend(c, Unescape(rest))
  {
  }

  lemma {:induction false} UnescapeEscapeEach(s: string)
    ensures Unescape(EscapeEach(s)) == Some(s)
  {
    if s != [] {
      UnescapeEscapeEach(s[1..]);
      UnescapeEntity(s[0], EscapeEach(s[1..]));
      assert [s[0]] + s[1..] == s;
    }
  }

  /** Unescaping recovers the text. */
  lemma UnescapeEscape(s: string)
    ensures Unescape(EscapeXml(s)) == Some(s)
  {
    EscapeXmlIsPerCharacter(s);
    UnescapeEscapeEach(s);
  }
}
