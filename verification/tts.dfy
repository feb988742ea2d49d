/**
 * Azure text-to-speech: the SSML document `synthesize` posts, the request
 * it makes, and the sentence buffer of `streamDeltas`, which cuts streamed
 * text at sentence ends and hands each sentence to `synthesize`.
 */
module Tts {
  import opened Wrappers
  import opened Text
  import opened XmlEscape

  const DEFAULT_VOICE: string := "en-US-EmmaMultilingualNeural"
  /** The default voice holds nothing XML would escape, so it reads back even unescaped. */
  lemma DefaultVoicePlain()
    ensures NoSpecial(DEFAULT_VOICE)
  {
  }

  const DEFAULT_REGION: string := "eastus"
  const OUTPUT_FORMAT: string := "audio-48khz-96kbitrate-mono-mp3"

  // ---- The SSML document ----

  /** Everything up to the voice name, as it stands in the trimmed template. */
  const SSML_OPEN: string := ['<'] + "speak version=\"1.0\" xmlns=\"http://www.w3.org/2001/10/synthesis\" xml:lang=\"en-US\">\n        <voice name=\""
  /** From the end of the voice name to the text. */
  const SSML_MID: string := ['"'] + ">\n          "
  /** The line break and indentation between the text and the closing tags. */
  const INDENT: string := "\n        "
  const CLOSE_TAGS: string := ['<'] + "/voice>\n      </speak" + ['>']
  /** From the end of the text to the end of the document. */
  const SSML_CLOSE: string := INDENT + CLOSE_TAGS
  /** The line break and indentation around the template, removed by `trim()`. */
  const LEAD: string := "\n      "
  const TRAIL: string := "\n    "

  /** The template literal with `voice` and `inner` substituted, before `trim()`. */
  function Template(voice: string, inner: string): string {
    LEAD + SSML_OPEN + voice + SSML_MID + inner + SSML_CLOSE + TRAIL
  }

  /** The document `synthesize` builds as written: the text is escaped, the voice is not. */
  function SsmlAsWritten(text: string, voice: string): string {
    Trim(Template(voice, EscapeXml(text)))
  }

  /** The document with the voice name escaped as well. */
  function Ssml(text: string, voice: string): string {
    Trim(Template(EscapeXml(voice), EscapeXml(text)))
  }

  /** `trim()` removes exactly the template's outer whitespace. */
  lemma TemplateTrim(voice: string, inner: string)
    ensures Trim(Template(voice, inner)) == SSML_OPEN + (voice + (SSML_MID + (inner + SSML_CLOSE)))
  {
    var tail := inner + SSML_CLOSE;
    var core := SSML_OPEN + (voice + (SSML_MID + tail));
    TemplateRegroup(voice, inner);
    TemplateFrame();
    Ends(SSML_OPEN, voice + (SSML_MID + tail));
    Ends(voice + SSML_MID + inner, SSML_CLOSE);
    Ends(INDENT, CLOSE_TAGS);
    assert voice + (SSML_MID + tail) == (voice + SSML_MID + inner) + SSML_CLOSE;
    TrimFramed(LEAD, core, TRAIL);
  }

  lemma TemplateRegroup(voice: string, inner: string)
    ensures Template(voice, inner) == LEAD + (SSML_OPEN + (voice + (SSML_MID + (inner + SSML_CLOSE)))) + TRAIL
  {
    Regroup(LEAD, SSML_OPEN, voice, SSML_MID, inner, SSML_CLOSE, TRAIL);
  }

  lemma Regroup(a: string, b: string, c: string, d: string, e: string, f: string, g: string)
    ensures a + b + c + d + e + f + g == a + (b + (c + (d + (e + f)))) + g
  {
  }

  /** The fixed parts: blank margins, and markup that starts with `<` and ends with `>`. */
  lemma TemplateFrame()
    ensures Blank(LEAD) && Blank(TRAIL)
    ensures SSML_OPEN != [] && SSML_OPEN[0] == '<'
    ensures CLOSE_TAGS != [] && CLOSE_TAGS[|CLOSE_TAGS| - 1] == '>'
  {
  }

  /** The first and last characters of a concatenation. */
  lemma Ends(a: string, b: string)
    ensures a != [] ==> (a + b)[0] == a[0]
    ensures b != [] ==> (a + b)[|a + b| - 1] == b[|b| - 1]
  {
  }

  /** The part of `s` before the first `c` (all of `s` when there is none). */
  function UpTo(s: string, c: char): (r: string)
    ensures |r| <= |s| && r == s[..|r|]
    ensures forall i :: 0 <= i < |r| ==> r[i] != c
    ensures |r| < |s| ==> s[|r|] == c
  {
    if s == [] || s[0] == c then [] else [s[0]] + UpTo(s[1..], c)
  }

  lemma {:induction false} UpToFramed(a: string, c: char, b: string)
    requires forall i :: 0 <= i < |a| ==> a[i] != c
    requires b != [] && b[0] == c
    ensures UpTo(a + b, c) == a
  {
    if a == [] {
      assert a + b == b;
    } else {
      assert (a + b)[1..] == a[1..] + b;
      UpToFramed(a[1..], c, b);
      assert [a[0]] + a[1..] == a;
    }
  }

  lemma DropPrefix(a: string, b: string)
    ensures |a + b| >= |a| && (a + b)[|a|..] == b
  {
  }

  /** The `name` attribute as an XML parser reads it: up to the closing quote. */
  function VoiceAttribute(doc: string): string {
    if |doc| >= |SSML_OPEN| then UpTo(doc[|SSML_OPEN|..], '"') else []
  }

  /**
   * The characters at the position where the template puts the text, given
   * the length of what was inserted as the voice: from there to the next `<`.
   * This is positional; it is what a parser reads only when the inserted
   * voice leaves the start tag intact (see `ReaderContent`).
   */
  function VoiceContent(doc: string, voiceLength: nat): string {
    var start := |SSML_OPEN| + voiceLength + |SSML_MID|;
    if |doc| >= start then UpTo(doc[start..], '<') else []
  }

  /**
   * The voice element's character data as a parser finds it: the `name`
   * attribute ends at the first quote, the rest of the start tag follows,
   * and the data runs to the next `<`.
   */
  function ReaderContent(doc: string): string {
    VoiceContent(doc, |VoiceAttribute(doc)|)
  }

  /** The attribute is read from just after the fixed opening. */
  lemma AttributeAfterOpen(rest: string)
    ensures VoiceAttribute(SSML_OPEN + rest) == UpTo(rest, '"')
  {
    DropPrefix(SSML_OPEN, rest);
  }

  /**
   * As written, a voice name holding `"` ends the attribute early: the name
   * the parser sees is not the one requested, and the rest of the value
   * lands in the tag as further attributes.
   */
  lemma VoiceBreaksAttribute(text: string)
    ensures var voice := "x" + ['"'] + " xml:lang=fr";
      VoiceAttribute(SsmlAsWritten(text, voice)) == "x" != voice
  {
    var voice := "x" + ['"'] + " xml:lang=fr";
    SsmlShape(text, voice);
    AttributeEndsAtQuote("x", " xml:lang=fr", SSML_MID + (EscapeXml(text) + SSML_CLOSE));
  }

  /** A voice `a"b` yields the attribute `a`. */
  lemma AttributeEndsAtQuote(a: string, b: string, tail: string)
    requires forall i :: 0 <= i < |a| ==> a[i] != '"'
    ensures VoiceAttribute(SSML_OPEN + ((a + ['"'] + b) + tail)) == a
  {
    var rest := ['"'] + (b + tail);
    assert (a + ['"'] + b) + tail == a + rest;
    AttributeAfterOpen(a + rest);
    UpToFramed(a, '"', rest);
  }

  /**
   * With the voice escaped, the attribute always reads back as the voice
   * requested and the character data as the text: neither can add markup.
   */
  lemma SsmlReadsBack(text: string, voice: string)
    ensures Unescape(VoiceAttribute(Ssml(text, voice))) == Some(voice)
    ensures Unescape(VoiceContent(Ssml(text, voice), |EscapeXml(voice)|)) == Some(text + INDENT)
    ensures Unescape(ReaderContent(Ssml(text, voice))) == Some(text + INDENT)
  {
    var ev, et := EscapeXml(voice), EscapeXml(text);
    var tail := SSML_MID + (et + SSML_CLOSE);
    SsmlShape(text, voice);
    EscapeXmlSafe(voice);
    AttributeAfterOpen(ev + tail);
    UpToFramed(ev, '"', tail);
    assert VoiceAttribute(Ssml(text, voice)) == ev;
    UnescapeEscape(voice);
    EscapeXmlSafe(text);
    ContentReadsBack(Ssml(text, voice), ev, text);
  }

  /** Nothing in `t` is a `<`. */
  predicate NoOpenAngle(t: string) {
    forall i :: 0 <= i < |t| ==> t[i] != '<'
  }

  lemma ContentAfterStartTag(ev: string, rest: string)
    ensures VoiceContent(SSML_OPEN + (ev + (SSML_MID + rest)), |ev|) == UpTo(rest, '<')
  {
    assert SSML_OPEN + (ev + (SSML_MID + rest)) == (SSML_OPEN + ev + SSML_MID) + rest;
    DropPrefix(SSML_OPEN + ev + SSML_MID, rest);
  }

  /** Character data without `<` runs exactly up to the closing tags. */
  lemma ContentEndsAtTag(ev: string, body: string)
    requires NoOpenAngle(body)
    ensures VoiceContent(SSML_OPEN + (ev + (SSML_MID + (body + CLOSE_TAGS))), |ev|) == body
  {
    ContentAfterStartTag(ev, body + CLOSE_TAGS);
    UpToFramed(body, '<', CLOSE_TAGS);
  }

  lemma EscapedIndentNoAngle(et: string)
    requires SafeText(et)
    ensures NoOpenAngle(et + INDENT)
  {
    var body := et + INDENT;
    forall i | 0 <= i < |body| ensures body[i] != '<' {
      if i < |et| {
        assert body[i] == et[i] && !Markup(et[i]);
      } else {
        assert body[i] == INDENT[i - |et|];
      }
    }
  }

  lemma ContentReadsBack(doc: string, ev: string, text: string)
    requires doc == SSML_OPEN + (ev + (SSML_MID + (EscapeXml(text) + SSML_CLOSE)))
    requires SafeText(EscapeXml(text))
    ensures Unescape(VoiceContent(doc, |ev|)) == Some(text + INDENT)
  {
    var body := EscapeXml(text) + INDENT;
    CloseSplit(EscapeXml(text));
    EscapedIndentNoAngle(EscapeXml(text));
    ContentEndsAtTag(ev, body);
    EscapeIndent(text);
    UnescapeEscape(text + INDENT);
  }

  lemma CloseSplit(et: string)
    ensures et + SSML_CLOSE == (et + INDENT) + CLOSE_TAGS
  {
  }

  /** The indentation before the closing tag has nothing to escape. */
  lemma EscapeIndent(text: string)
    ensures EscapeXml(text + INDENT) == EscapeXml(text) + INDENT
  {
    EscapePlainSuffix(text, INDENT);
  }

  lemma EscapePlainSuffix(text: string, plain: string)
    requires forall i :: 0 <= i < |plain| ==> !Special(plain[i])
    ensures EscapeXml(text + plain) == EscapeXml(text) + plain
  {
    EscapeXmlConcat(text, plain);
    EscapeXmlIdentity(plain);
  }

  /** The document is the fixed wrapper around the escaped voice and text. */
  lemma SsmlShape(text: string, voice: string)
    ensures Ssml(text, voice) == SSML_OPEN + (EscapeXml(voice) + (SSML_MID + (EscapeXml(text) + SSML_CLOSE)))
    ensures SsmlAsWritten(text, voice) == SSML_OPEN + (voice + (SSML_MID + (EscapeXml(text) + SSML_CLOSE)))
  {
    TemplateTrim(EscapeXml(voice), EscapeXml(text));
    TemplateTrim(voice, EscapeXml(text));
  }

  // ---- The Azure request ----

  /** The service settings: subscription key and region. */
  datatype Config = Config(subscriptionKey: string, region: string)

  /**
   * `new AzureTTS(AZURE_SPEECH_KEY || '', AZURE_SPEECH_REGION || 'eastus')`:
   * a set region is kept, an unset one falls back to `eastus`.
   */
  function FromEnv(key: string, region: string): (c: Config)
    ensures c.subscriptionKey == key
    ensures region != "" ==> c.region == region
    ensures region == "" ==> c.region == "eastus"
  {
    Config(key, if region == "" then DEFAULT_REGION else region)
  }

  function Endpoint(cfg: Config): string {
    "https://" + cfg.region + ".tts.speech.microsoft.com/cognitiveservices/v1"
  }

  /** The POST `synthesize` makes. */
  datatype SynthCall = SynthCall(url: string, subscriptionKey: string, outputFormat: string, ssml: string)

  /** Azure's answer: on success an opaque handle on the MP3 stream, otherwise the error text. */
  datatype AzureReply = Audio(stream: nat) | Rejected(status: int, text: string)

  datatype TtsError = AzureError(status: int, text: string)

  /**
   * As written, the escaped text follows the raw voice at its fixed offset,
   * whatever the voice. A parser reads the voice name and the text back
   * only when the voice holds nothing to escape, and then the document is
   * the one with the voice escaped.
   */
  lemma AsWrittenReadsBack(text: string, voice: string)
    ensures Unescape(VoiceContent(SsmlAsWritten(text, voice), |voice|)) == Some(text + INDENT)
    ensures NoSpecial(voice) ==> SsmlAsWritten(text, voice) == Ssml(text, voice)
    ensures NoSpecial(voice) ==> Unescape(VoiceAttribute(SsmlAsWritten(text, voice))) == Some(voice)
    ensures NoSpecial(voice) ==> Unescape(ReaderContent(SsmlAsWritten(text, voice))) == Some(text + INDENT)
  {
    SsmlShape(text, voice);
    EscapeXmlSafe(text);
    ContentReadsBack(SsmlAsWritten(text, voice), voice, text);
    if NoSpecial(voice) {
      EscapeXmlIdentity(voice);
      SsmlReadsBack(text, voice);
    }
  }

  /** The POST `synthesize(text, voice)` makes, with the voice inserted as given. */
  function SynthesizeCall(cfg: Config, text: string, voice: string): (c: SynthCall)
    ensures c.url == Endpoint(cfg) && c.subscriptionKey == cfg.subscriptionKey && c.outputFormat == OUTPUT_FORMAT
    ensures Unescape(VoiceContent(c.ssml, |voice|)) == Some(text + INDENT)
    ensures NoSpecial(voice) ==> Unescape(VoiceAttribute(c.ssml)) == Some(voice)
    ensures NoSpecial(voice) ==> Unescape(ReaderContent(c.ssml)) == Some(text + INDENT)
  {
    AsWrittenReadsBack(text, voice);
    SynthCall(Endpoint(cfg), cfg.subscriptionKey, OUTPUT_FORMAT, SsmlAsWritten(text, voice))
  }

  /**
   * The same POST with the voice escaped: a parser reads the voice name and
   * the text back for every voice, and for a voice with nothing to escape
   * the call is the one made as written.
   */
  function SafeSynthesizeCall(cfg: Config, text: string, voice: string): (c: SynthCall)
    ensures c.url == Endpoint(cfg) && c.subscriptionKey == cfg.subscriptionKey && c.outputFormat == OUTPUT_FORMAT
    ensures Unescape(VoiceAttribute(c.ssml)) == Some(voice)
    ensures Unescape(ReaderContent(c.ssml)) == Some(text + INDENT)
    ensures NoSpecial(voice) ==> c == SynthesizeCall(cfg, text, voice)
  {
    SsmlReadsBack(text, voice);
    AsWrittenReadsBack(text, voice);
    SynthCall(Endpoint(cfg), cfg.subscriptionKey, OUTPUT_FORMAT, Ssml(text, voice))
  }

  /** The server's synthesizer posts to its region's host, `eastus` when none is set, with the key given. */
  lemma FromEnvEndpoint(key: string, region: string, text: string, voice: string)
    ensures var call := SynthesizeCall(FromEnv(key, region), text, voice);
      && call.url == "https://" + (if region == "" then "eastus" else region) + ".tts.speech.microsoft.com/cognitiveservices/v1"
      && call.subscriptionKey == key
  {
  }

  function Synthesize(cfg: Config, text: string, voice: string, azure: SynthCall -> AzureReply): (r: Result<nat, TtsError>)
    ensures azure(SynthesizeCall(cfg, text, voice)).Audio? <==> r.Ok?
    ensures r.Ok? ==> r.value == azure(SynthesizeCall(cfg, text, voice)).stream
    ensures r.Err? ==> r.error == AzureError(azure(SynthesizeCall(cfg, text, voice)).status, azure(SynthesizeCall(cfg, text, voice)).text)
  {
    match azure(SynthesizeCall(cfg, text, voice))
    case Audio(stream) => Ok(stream)
    case Rejected(status, t) => Err(AzureError(status, t))
  }

  // ---- Sentence splitting ----

  predicate Ender(c: char) {
    c == '.' || c == '!' || c == '?'
  }

  /** `/[.!?]\s/` matches at position `i` of `s`. */
  predicate MatchAt(s: string, i: int) {
    0 <= i && i + 1 < |s| && Ender(s[i]) && IsSpace(s[i + 1])
  }

  /** `sentenceEnders.test(s)`. */
  predicate HasMatch(s: string) {
    exists i :: 0 <= i < |s| && MatchAt(s, i)
  }

  /** `s.split(sentenceEnders)`: the pieces between successive leftmost matches. */
  function Split(s: string): (r: seq<string>)
    ensures |r| >= 1
    decreases |s|
  {
    if |s| < 2 then [s]
    else if MatchAt(s, 0) then [""] + Split(s[2..])
    else
      var r := Split(s[1..]);
      [[s[0]] + r[0]] + r[1..]
  }

  function Init(r: seq<string>): seq<string>
    requires |r| >= 1
  {
    r[..|r| - 1]
  }

  function Last(r: seq<string>): string
    requires |r| >= 1
  {
    r[|r| - 1]
  }

  /** The first piece is a prefix of the text. */
  lemma {:induction false} FirstPiecePrefix(s: string)
    ensures |Split(s)[0]| <= |s| && Split(s)[0] == s[..|Split(s)[0]|]
    decreases |s|
  {
    if |s| >= 2 && !MatchAt(s, 0) {
      FirstPiecePrefix(s[1..]);
    }
  }

  lemma {:induction false} NoMatchShift(c: char, t: string)
    requires !HasMatch([c] + t)
    ensures !HasMatch(t)
  {
    if HasMatch(t) {
      var i :| 0 <= i < |t| && MatchAt(t, i);
      assert MatchAt([c] + t, i + 1);
    }
  }

  /** No piece contains a sentence end: `split` consumed them all. */
  lemma {:induction false} PiecesHaveNoMatch(s: string)
    ensures forall k :: 0 <= k < |Split(s)| ==> !HasMatch(Split(s)[k])
    decreases |s|
  {
    if |s| < 2 {
      assert !HasMatch(s);
    } else if MatchAt(s, 0) {
      PiecesHaveNoMatch(s[2..]);
      assert !HasMatch("");
    } else {
      var r := Split(s[1..]);
      PiecesHaveNoMatch(s[1..]);
      FirstPiecePrefix(s[1..]);
      var p := [s[0]] + r[0];
      if HasMatch(p) {
        var i :| 0 <= i < |p| && MatchAt(p, i);
        if i > 0 {
          assert MatchAt(r[0], i - 1);
        }
      }
    }
  }

  /** Text without a sentence end is a single piece, and only such text is. */
  lemma {:induction false} SplitSingle(s: string)
    ensures |Split(s)| == 1 <==> !HasMatch(s)
    ensures |Split(s)| == 1 ==> Split(s) == [s]
    decreases |s|
  {
    if |s| >= 2 {
      if MatchAt(s, 0) {
        assert HasMatch(s);
      } else {
        SplitSingle(s[1..]);
        var r := Split(s[1..]);
        assert Split(s) == [[s[0]] + r[0]] + r[1..];
        assert [s[0]] + s[1..] == s;
        if !HasMatch(s) {
          NoMatchShift(s[0], s[1..]);
        }
        if |Split(s)| == 1 {
          assert |r| == 1 && r[0] == s[1..];
          assert Split(s) == [s];
          PiecesHaveNoMatch(s);
          assert !HasMatch(Split(s)[0]);
        }
      }
    } else {
      assert !HasMatch(s);
    }
  }

  /**
   * Splitting `s + d` cuts `s` as before, except that its last piece is
   * split again together with `d`.
   */
  lemma {:induction false} SplitAppend(s: string, d: string)
    ensures Split(s + d) == Init(Split(s)) + Split(Last(Split(s)) + d)
    decreases |s|
  {
    if |s| < 2 {
      assert Init(Split(s)) == [];
    } else if MatchAt(s, 0) {
      SplitAppend(s[2..], d);
      SplitAppendAtMatch(s, d);
    } else {
      SplitAppend(s[1..], d);
      SplitAppendPastChar(s, d);
    }
  }

  /** The step of `SplitAppend` when `s` starts with a sentence end. */
  lemma SplitAppendAtMatch(s: string, d: string)
    requires |s| >= 2 && MatchAt(s, 0)
    requires Split(s[2..] + d) == Init(Split(s[2..])) + Split(Last(Split(s[2..])) + d)
    ensures Split(s + d) == Init(Split(s)) + Split(Last(Split(s)) + d)
  {
    var r := Split(s[2..]);
    assert Split(s) == [""] + r by {
      SplitAtMatch(s);
    }
    assert Split(s + d) == [""] + Split(s[2..] + d) by {
      assert MatchAt(s + d, 0) && (s + d)[2..] == s[2..] + d;
      SplitAtMatch(s + d);
    }
    ConsInitLast("", r, Split(Last(r) + d));
  }

  /** Putting a piece in front commutes with splitting off the last one. */
  lemma ConsInitLast(h: string, r: seq<string>, tail: seq<string>)
    requires |r| >= 1
    ensures [h] + (Init(r) + tail) == Init([h] + r) + tail
    ensures Last([h] + r) == Last(r)
  {
    assert Init([h] + r) == [h] + Init(r);
  }

  lemma SplitAtMatch(s: string)
    requires |s| >= 2 && MatchAt(s, 0)
    ensures Split(s) == [""] + Split(s[2..])
  {
  }

  /** The step of `SplitAppend` when `s` does not start with a sentence end. */
  lemma SplitAppendPastChar(s: string, d: string)
    requires |s| >= 2 && !MatchAt(s, 0)
    requires Split(s[1..] + d) == Init(Split(s[1..])) + Split(Last(Split(s[1..])) + d)
    ensures Split(s + d) == Init(Split(s)) + Split(Last(Split(s)) + d)
  {
    var r := Split(s[1..]);
    assert Split(s) == [[s[0]] + r[0]] + r[1..] by {
      SplitPastChar(s);
    }
    assert Split(s + d) == [[s[0]] + Split(s[1..] + d)[0]] + Split(s[1..] + d)[1..] by {
      assert (s + d)[1..] == s[1..] + d && (s + d)[0] == s[0];
      assert !MatchAt(s + d, 0);
      SplitPastChar(s + d);
    }
    if |r| == 1 {
      assert Split(s) == [s] by {
        SplitSingle(s[1..]);
        assert [s[0]] + s[1..] == s;
      }
      assert Init(Split(s)) == [] && Last(Split(s)) == s;
    } else {
      HeadMerge([s[0]], r, Split(Last(r) + d));
    }
  }

  lemma SplitPastChar(s: string)
    requires |s| >= 2 && !MatchAt(s, 0)
    ensures Split(s) == [[s[0]] + Split(s[1..])[0]] + Split(s[1..])[1..]
  {
  }

  /** Prefixing the first of several pieces commutes with splitting off the last one. */
  lemma HeadMerge(c: string, r: seq<string>, tail: seq<string>)
    requires |r| >= 2
    ensures var q := Init(r) + tail;
      [c + q[0]] + q[1..] == Init([c + r[0]] + r[1..]) + tail
    ensures Last([c + r[0]] + r[1..]) == Last(r)
  {
    var q := Init(r) + tail;
    assert q[0] == r[0];
    assert q[1..] == Init(r)[1..] + tail;
    assert Init([c + r[0]] + r[1..]) == [c + r[0]] + Init(r)[1..];
  }

  // ---- The streaming buffer ----

  /** The sentences synthesised from a list of pieces: each trimmed, blank ones skipped, in order. */
  function Sentences(pieces: seq<string>): seq<string> {
    if pieces == [] then []
    else (if Trim(pieces[0]) != "" then [Trim(pieces[0])] else []) + Sentences(pieces[1..])
  }

  /** Every sentence handed to `synthesize` is trimmed and non-empty. */
  lemma {:induction false} SentencesTrimmed(pieces: seq<string>)
    ensures forall i :: 0 <= i < |Sentences(pieces)| ==> Sentences(pieces)[i] != "" && Trimmed(Sentences(pieces)[i])
  {
    if pieces != [] {
      SentencesTrimmed(pieces[1..]);
      TrimSpec(pieces[0]);
      var head := if Trim(pieces[0]) != "" then [Trim(pieces[0])] else [];
      var r := Sentences(pieces);
      assert r == head + Sentences(pieces[1..]);
      forall i | 0 <= i < |r| ensures r[i] != "" && Trimmed(r[i]) {
        if i >= |head| {
          assert r[i] == Sentences(pieces[1..])[i - |head|];
        }
      }
    }
  }

  lemma {:induction false} SentencesConcat(a: seq<string>, b: seq<string>)
    ensures Sentences(a + b) == Sentences(a) + Sentences(b)
  {
    if a == [] {
      assert a + b == b;
    } else {
      assert (a + b)[1..] == a[1..] + b;
      SentencesConcat(a[1..], b);
    }
  }

  /** All the deltas joined, as the buffer accumulates them. */
  function Concat(deltas: seq<string>): string {
    if deltas == [] then "" else Concat(deltas[..|deltas| - 1]) + deltas[|deltas| - 1]
  }

  lemma ConcatStep(deltas: seq<string>, k: nat)
    requires k < |deltas|
    ensures Concat(deltas[..k + 1]) == Concat(deltas[..k]) + deltas[k]
  {
    assert deltas[..k + 1][..k] == deltas[..k];
  }

  /**
   * One delta against the whole text so far: when the buffer plus the delta
   * holds a sentence end, its finished pieces follow the earlier ones and
   * its last piece becomes the buffer; otherwise the buffer just grows.
   */
  lemma StreamStep(consumed: string, d: string)
    ensures var next := Last(Split(consumed)) + d;
      && (HasMatch(next) ==>
            Init(Split(consumed + d)) == Init(Split(consumed)) + Init(Split(next))
            && Last(Split(consumed + d)) == Last(Split(next)))
      && (!HasMatch(next) ==>
            Init(Split(consumed + d)) == Init(Split(consumed))
            && Last(Split(consumed + d)) == next)
  {
    var next := Last(Split(consumed)) + d;
    SplitAppend(consumed, d);
    SplitSingle(next);
  }

  /** The sentences of all pieces: the finished ones, then the trimmed buffer if it is not blank. */
  lemma SentencesSplit(pieces: seq<string>)
    requires |pieces| >= 1
    ensures Sentences(pieces) == Sentences(Init(pieces)) + (if Trim(Last(pieces)) != "" then [Trim(Last(pieces))] else [])
  {
    InitLast(pieces);
    SentencesConcat(Init(pieces), [Last(pieces)]);
    SentencesOne(Last(pieces));
  }

  lemma InitLast(pieces: seq<string>)
    requires |pieces| >= 1
    ensures Init(pieces) + [Last(pieces)] == pieces
  {
  }

  lemma SentencesOne(piece: string)
    ensures Sentences([piece]) == if Trim(piece) != "" then [Trim(piece)] else []
  {
    assert [piece][1..] == [];
  }

  /**
   * `streamDeltas(deltas, onAudioChunk)`: the texts passed to `synthesize`,
   * in call order. They are the sentences of the whole text, however it was
   * cut into deltas.
   */
  method StreamDeltas(deltas: seq<string>) returns (texts: seq<string>)
    ensures texts == Sentences(Split(Concat(deltas)))
  {
    var buffer := "";
    texts := [];
    var k := 0;
    while k < |deltas|
      invariant 0 <= k <= |deltas|
      invariant buffer == Last(Split(Concat(deltas[..k])))
      invariant texts == Sentences(Init(Split(Concat(deltas[..k]))))
    {
      var consumed := Concat(deltas[..k]);
      ConcatStep(deltas, k);
      StreamStep(consumed, deltas[k]);
      var next := buffer + deltas[k];
      if HasMatch(next) {
        var sentences := Split(next);
        SentencesConcat(Init(Split(consumed)), Init(sentences));
        texts := texts + Sentences(Init(sentences));
        buffer := Last(sentences);
      } else {
        buffer := next;
      }
      k := k + 1;
    }
    assert deltas[..k] == deltas;
    SentencesSplit(Split(Concat(deltas)));
    if Trim(buffer) != "" {
      texts := texts + [Trim(buffer)];
    }
  }

  /** However the text is cut into deltas, the same sentences are synthesised, trimmed and non-empty. */
  method StreamDeltasChunking(d1: seq<string>, d2: seq<string>) returns (t1: seq<string>, t2: seq<string>)
    requires Concat(d1) == Concat(d2)
    ensures t1 == t2
    ensures forall i :: 0 <= i < |t1| ==> t1[i] != "" && Trimmed(t1[i])
  {
    t1 := StreamDeltas(d1);
    t2 := StreamDeltas(d2);
    SentencesTrimmed(Split(Concat(d1)));
  }

  /** The buffer's last piece holds no sentence end: only an unfinished sentence waits. */
  lemma BufferHasNoSentenceEnd(s: string)
    ensures !HasMatch(Last(Split(s)))
  {
    PiecesHaveNoMatch(s);
  }
}
