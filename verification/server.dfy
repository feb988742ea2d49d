/**
 * The HTTP routes of the voice server: persona selection, conversation
 * boot and the three conversation routes over the conversation store,
 * `/respond` (one OpenAI Responses call, then the assistant's text appended
 * to the conversation) and the two text-to-speech routes. Request bodies and
 * query strings are parsed JSON values; OpenAI and Azure are oracles.
 */
module Server {
  import opened Wrappers
  import opened JsValue
  import opened Text
  import Conversations
  import Tts
  import Http
  import XmlEscape

  // ---- Persona ----

  /**
   * The opening line of the boot instructions used when the boot PDF is
   * present. The persona texts are written in two parts so that the verifier
   * can see their first characters.
   */
  const BOOT_PERSONA: string := "You are Moneypenny - " + "Miss Moneypenny, the Quadruple Legend."
  const FALLBACK_PERSONA: string := "You are Moneypenny, " + "a concise voice copilot. No filler."

  /** What `loadPersona` finds on disk: whether the PDF exists, and the contents of each markdown file that exists. */
  datatype PersonaFiles = PersonaFiles(bootPdf: bool, persona: Option<string>, example: Option<string>)

  /** `loadPersona()`. */
  function LoadPersona(f: PersonaFiles): (p: string)
    ensures Trimmed(p)
  {
    TrimSpec(f.persona.GetOr(""));
    TrimSpec(f.example.GetOr(""));
    assert FALLBACK_PERSONA[0] == 'Y' && FALLBACK_PERSONA[|FALLBACK_PERSONA| - 1] == '.';
    assert BOOT_PERSONA[0] == 'Y' && BOOT_PERSONA[|BOOT_PERSONA| - 1] == '.';
    if f.bootPdf then BOOT_PERSONA
    else if f.persona.Some? then Trim(f.persona.value)
    else if f.example.Some? then Trim(f.example.value)
    else FALLBACK_PERSONA
  }

  /** The candidates in priority order, as `loadPersona` would produce each. */
  function PersonaCandidates(f: PersonaFiles): seq<string> {
    (if f.bootPdf then [BOOT_PERSONA] else [])
    + (if f.persona.Some? then [Trim(f.persona.value)] else [])
    + (if f.example.Some? then [Trim(f.example.value)] else [])
    + [FALLBACK_PERSONA]
  }

  /** The persona is the first available candidate: PDF, then `persona.md`, then `persona.example.md`, then the fallback. */
  lemma PersonaPriority(f: PersonaFiles)
    ensures LoadPersona(f) == PersonaCandidates(f)[0]
  {
  }

  /** A present file shadows everything after it, whatever its contents. */
  lemma PersonaShadows(f: PersonaFiles, g: PersonaFiles)
    ensures f.bootPdf && g.bootPdf ==> LoadPersona(f) == LoadPersona(g)
    ensures !f.bootPdf && !g.bootPdf && f.persona.Some? && f.persona == g.persona ==> LoadPersona(f) == LoadPersona(g)
    ensures LoadPersona(PersonaFiles(false, None, None)) == FALLBACK_PERSONA
  {
  }

  // ---- Replies ----

  /** What a route answers: JSON with a status, an audio stream, one NDJSON delta, or the tool-call follow-up. */
  datatype Reply =
    | Json(status: int, body: Value)
    | AudioStream(stream: nat)
    | Ndjson(delta: Value)
    | FollowUp

  function ErrorBody(message: string): Value {
    Obj(map["error" := Str(message)])
  }

  /** A route's reply together with the conversation store after it. */
  datatype Handled = Handled(store: Conversations.Store, reply: Reply)

  /** `Array.isArray(v) ? v : []`. */
  function ArrayOrEmpty(v: Value): (items: seq<Value>)
    ensures v.Arr? ==> items == v.items
    ensures !v.Arr? ==> items == []
  {
    if v.Arr? then v.items else []
  }

  // ---- /boot and the conversation routes ----

  function SystemMessage(persona: string): Value {
    Obj(map["role" := Str("system"), "text" := Str(persona)])
  }

  /** POST `/boot` under the generated id `id`. */
  function Boot(store: Conversations.Store, id: string, body: Value, files: PersonaFiles): (h: Handled)
    ensures id in h.store && |h.store[id]| >= 1
    ensures var seed := ArrayOrEmpty(OptProp(body, "seed"));
      h.store[id] == if seed != [] then seed else [SystemMessage(LoadPersona(files))]
    ensures forall k :: k != id ==> (k in h.store <==> k in store) && (k in h.store ==> h.store[k] == store[k])
    ensures h.reply == Json(200, Obj(map["conversation_id" := Str(id), "seeded" := Bool(true)]))
  {
    var seed := OptProp(body, "seed");
    var initial := if seed.Arr? && |seed.items| > 0 then seed else Arr([SystemMessage(LoadPersona(files))]);
    Handled(Conversations.Create(store, id, initial), Json(200, Obj(map["conversation_id" := Str(id), "seeded" := Bool(true)])))
  }

  /** Without a seed, a booted conversation holds one well-formed system message carrying the persona. */
  lemma BootDefaultWellFormed(store: Conversations.Store, id: string, body: Value, files: PersonaFiles)
    requires !OptProp(body, "seed").Arr? || OptProp(body, "seed").items == []
    ensures var conv := Conversations.Snapshot(Boot(store, id, body, files).store, id);
      && |conv| == 1 && Conversations.WellFormed(conv[0])
      && conv[0].fields["role"] == Str("system") && conv[0].fields["text"] == Str(LoadPersona(files))
  {
  }

  /** POST `/conversation/init` under the generated id `id`. */
  function ConversationInit(store: Conversations.Store, id: string, body: Value): (h: Handled)
    ensures id in h.store && h.store[id] == ArrayOrEmpty(OptProp(body, "seed"))
    ensures forall k :: k != id ==> (k in h.store <==> k in store) && (k in h.store ==> h.store[k] == store[k])
    ensures h.reply == Json(200, Obj(map["conversation_id" := Str(id)]))
  {
    var seed := OptProp(body, "seed");
    Handled(Conversations.Create(store, id, if seed.Arr? then seed else Arr([])),
            Json(200, Obj(map["conversation_id" := Str(id)])))
  }

  /** POST `/conversation/append`. */
  function ConversationAppend(store: Conversations.Store, body: Value): (h: Handled)
    ensures var id := ParamString(OptProp(body, "conversation_id"));
      && (id == "" ==> h == Handled(store, Json(400, ErrorBody("conversation_id required"))))
      && (id != "" ==> h.reply == Json(200, Obj(map["ok" := Bool(true)]))
                       && h.store == Conversations.Append(store, id, ArrayOrEmpty(OptProp(body, "msgs"))))
  {
    var id := ParamString(OptProp(body, "conversation_id"));
    var msgs := ArrayOrEmpty(OptProp(body, "msgs"));
    if id == "" then Handled(store, Json(400, ErrorBody("conversation_id required")))
    else Handled(Conversations.Append(store, id, msgs), Json(200, Obj(map["ok" := Bool(true)])))
  }

  /** GET `/conversation/snapshot`: the store is only read. */
  function ConversationSnapshot(store: Conversations.Store, query: Value): (r: Reply)
    ensures var id := ParamString(OptProp(query, "id"));
      && (id == "" ==> r == Json(400, ErrorBody("id required")))
      && (id != "" ==> r == Json(200, Obj(map["items" := Arr(Conversations.Snapshot(store, id))])))
  {
    var id := ParamString(OptProp(query, "id"));
    if id == "" then Json(400, ErrorBody("id required"))
    else Json(200, Obj(map["items" := Arr(Conversations.Snapshot(store, id))]))
  }

  /** A snapshot after an append through the route shows the accepted messages at the end, and no other conversation changes. */
  lemma AppendThenSnapshot(store: Conversations.Store, body: Value, other: string)
    requires ParamString(OptProp(body, "conversation_id")) != ""
    requires ParamString(OptProp(body, "conversation_id")) in store
    ensures var id := ParamString(OptProp(body, "conversation_id"));
      var after := ConversationAppend(store, body).store;
      && ConversationSnapshot(after, Obj(map["id" := Str(id)]))
         == Json(200, Obj(map["items" := Arr(store[id] + Conversations.Accepted(ArrayOrEmpty(OptProp(body, "msgs"))))]))
      && (other != id ==> Conversations.Snapshot(after, other) == Conversations.Snapshot(store, other))
  {
    var id := ParamString(OptProp(body, "conversation_id"));
    var msgs := ArrayOrEmpty(OptProp(body, "msgs"));
    var after := ConversationAppend(store, body).store;
    assert after == Conversations.Append(store, id, msgs);
    assert ParamString(OptProp(Obj(map["id" := Str(id)]), "id")) == id;
    if other != id {
      Conversations.AppendFrames(store, id, other, msgs);
    }
  }

  // ---- /respond ----

  /** The Responses API content type for a history message's role. */
  function ContentType(role: Value): string {
    if role == Str("assistant") then "output_text" else "input_text"
  }

  /** The `map` callback: `{ role, content: [{ type, text }] }`, or the TypeError of a `null` item. */
  function ToInput(m: Value): (r: Result<Value, TypeError>)
    ensures r.Err? <==> m.Null? || m.Undefined?
  {
    match Prop(m, "role")
    case Err(e) => Err(e)
    case Ok(role) =>
      var text := Prop(m, "text").value;
      Ok(Obj(map["role" := role,
                 "content" := Arr([Obj(map["type" := Str(ContentType(role)), "text" := text])])]))
  }

  /** The callback over the list, stopping at the first TypeError. */
  function ToInputs(items: seq<Value>): (r: Result<seq<Value>, TypeError>)
    ensures r.Ok? ==> |r.value| == |items|
    ensures r.Ok? <==> forall i :: 0 <= i < |items| ==> !items[i].Null? && !items[i].Undefined?
  {
    if items == [] then Ok([])
    else match ToInput(items[0])
      case Err(e) => Err(e)
      case Ok(v) =>
        match ToInputs(items[1..])
        case Err(e) => Err(e)
        case Ok(rest) =>
          assert forall i :: 1 <= i < |items| ==> items[i] == items[1..][i - 1];
          Ok([v] + rest)
  }

  /** The message's role, the content type `output_text` exactly for `assistant`, and its text. */
  predicate InputOf(m: Value, v: Value) {
    && v.Obj? && v.fields.Keys == {"role", "content"}
    && v.fields["role"] == OptProp(m, "role")
    && v.fields["content"] == Arr([Obj(map["type" := Str(if OptProp(m, "role") == Str("assistant") then "output_text" else "input_text"),
                                           "text" := OptProp(m, "text")])])
  }

  /** Each input message carries its history message's role and text; only `assistant` maps to `output_text`. */
  lemma {:induction false} ToInputsSpec(items: seq<Value>)
    requires ToInputs(items).Ok?
    ensures forall i :: 0 <= i < |items| ==> InputOf(items[i], ToInputs(items).value[i])
  {
    if items != [] {
      ToInputsSpec(items[1..]);
      var r := ToInputs(items).value;
      assert r == [ToInput(items[0]).value] + ToInputs(items[1..]).value;
      forall i | 0 <= i < |items| ensures InputOf(items[i], r[i]) {
        if i > 0 {
          assert items[i] == items[1..][i - 1];
        }
      }
    }
  }

  /** The Responses API: the `input` sent, and the reply. */
  type OpenAi = seq<Value> -> Http.Response

  /** The history followed by the new user turn. */
  function Turn(history: seq<Value>, text: string): seq<Value> {
    history + [Obj(map["role" := Str("user"), "text" := Str(text)])]
  }

  /** `tc.function?.name === 'searchMemory'`. */
  predicate NamesSearchMemory(tc: Value) {
    OptProp(OptProp(tc, "function"), "name") == Str("searchMemory")
  }

  /** `null` or `undefined`: reading `tc.function` on it throws. */
  predicate Nullish(v: Value) {
    v.Null? || v.Undefined?
  }

  /**
   * The `for … of data.tool_calls` loop: whether it reaches an entry naming
   * searchMemory (`Ok(true)`), throws on a `null` or `undefined` entry
   * first (`Err`), or runs out (`Ok(false)`).
   */
  function SearchMemoryRequested(calls: seq<Value>): (r: Result<bool, TypeError>)
    ensures r == Ok(true) <==>
      exists i :: 0 <= i < |calls| && NamesSearchMemory(calls[i]) && forall j :: 0 <= j < i ==> !Nullish(calls[j])
    ensures r.Err? <==>
      exists i :: 0 <= i < |calls| && Nullish(calls[i]) && forall j :: 0 <= j < i ==> !NamesSearchMemory(calls[j])
  {
    if calls == [] then Ok(false)
    else
      var rest := SearchMemoryRequested(calls[1..]);
      assert forall i :: 1 <= i < |calls| ==> calls[i] == calls[1..][i - 1];
      match Prop(calls[0], "function")
      case Err(e) => Err(e)
      case Ok(fn) => if OptProp(fn, "name") == Str("searchMemory") then Ok(true) else rest
  }

  /** `{ role: 'assistant', text }`. */
  function AssistantMessage(text: Value): Value {
    Obj(map["role" := Str("assistant"), "text" := text])
  }

  /** The outcome of POST `/respond` and the `input` lists sent upstream. */
  datatype Responded = Responded(store: Conversations.Store, reply: Reply, sent: seq<seq<Value>>)

  const RESPOND_FAILED: Reply := Json(500, ErrorBody("respond failed"))

  /** POST `/respond` up to the tool-call follow-up, which is not modelled. */
  function Respond(store: Conversations.Store, body: Value, openai: OpenAi): (r: Responded)
    ensures var id := ParamString(OptProp(body, "conversation_id"));
      var text := ParamString(OptProp(body, "text"));
      && (id == "" || text == "" ==> r == Responded(store, Json(400, ErrorBody("conversation_id and text required")), []))
      && (id != "" && text != "" ==> |r.sent| <= 1)
    ensures r.store == store || r.reply.Ndjson?
  {
    var id := ParamString(OptProp(body, "conversation_id"));
    var text := ParamString(OptProp(body, "text"));
    if id == "" || text == "" then Responded(store, Json(400, ErrorBody("conversation_id and text required")), [])
    else match ToInputs(Turn(Conversations.Snapshot(store, id), text))
      case Err(_) => Responded(store, RESPOND_FAILED, [])
      case Ok(input) => Answer(store, id, input, openai(input))
  }

  /**
   * What `/respond` does with OpenAI's answer `res` to the `input` it sent.
   * On the direct path the delta is `output_text || ''`, and the
   * conversation gains one assistant message exactly when that text is a
   * non-empty string and the conversation exists; otherwise it is unchanged.
   */
  function Answer(store: Conversations.Store, id: string, input: seq<Value>, res: Http.Response): (r: Responded)
    ensures r.sent == [input]
    ensures !res.ok ==> r == Responded(store, Json(if res.status != 0 then res.status else 502, ErrorBody("openai responses failed")), [input])
    ensures r.store == store || r.reply.Ndjson?
    ensures res.ok ==>
      var toolCalls := OptProp(res.json, "tool_calls");
      var scan := if toolCalls.Arr? then SearchMemoryRequested(toolCalls.items) else Ok(false);
      && (scan == Ok(false) ==> r.reply.Ndjson?)
      && (scan == Ok(true) ==> r == Responded(store, FollowUp, [input]))
      && (scan.Err? ==> r == Responded(store, RESPOND_FAILED, [input]))
    ensures r.reply.Ndjson? ==>
      var out := OptProp(res.json, "output_text");
      && res.ok
      && r.reply.delta == (if Truthy(out) then out else Str(""))
      && (out.Str? && out.s != "" && id in store ==>
            Conversations.Snapshot(r.store, id) == Conversations.Snapshot(store, id) + [AssistantMessage(out)])
      && (!(out.Str? && out.s != "" && id in store) ==> r.store == store)
  {
    if !res.ok then
      Responded(store, Json(if res.status != 0 then res.status else 502, ErrorBody("openai responses failed")), [input])
    else
      var data := res.json;
      var toolCalls := OptProp(data, "tool_calls");
      var scan := if toolCalls.Arr? then SearchMemoryRequested(toolCalls.items) else Ok(false);
      match scan
      case Err(_) => Responded(store, RESPOND_FAILED, [input])
      case Ok(true) => Responded(store, FollowUp, [input])
      case Ok(false) =>
        var assistantText := Or(OptProp(data, "output_text"), Str(""));
        if Truthy(assistantText) then
          AssistantAppend(store, id, assistantText);
          Responded(Conversations.Append(store, id, [AssistantMessage(assistantText)]), Ndjson(assistantText), [input])
        else
          Responded(store, Ndjson(assistantText), [input])
  }

  /**
   * With both fields present and no stored message `null` or `undefined`,
   * exactly one call carries the history plus the user turn, mapped message by message.
   */
  lemma RespondSendsTurn(store: Conversations.Store, body: Value, openai: OpenAi)
    requires ParamString(OptProp(body, "conversation_id")) != "" && ParamString(OptProp(body, "text")) != ""
    requires forall i :: 0 <= i < |Conversations.Snapshot(store, ParamString(OptProp(body, "conversation_id")))| ==>
      var m := Conversations.Snapshot(store, ParamString(OptProp(body, "conversation_id")))[i]; !m.Null? && !m.Undefined?
    ensures var id := ParamString(OptProp(body, "conversation_id"));
      var items := Turn(Conversations.Snapshot(store, id), ParamString(OptProp(body, "text")));
      var r := Respond(store, body, openai);
      && |r.sent| == 1 && |r.sent[0]| == |items|
      && (forall i :: 0 <= i < |items| ==> InputOf(items[i], r.sent[0][i]))
  {
    var id := ParamString(OptProp(body, "conversation_id"));
    var items := Turn(Conversations.Snapshot(store, id), ParamString(OptProp(body, "text")));
    assert forall i :: 0 <= i < |items| ==> !items[i].Null? && !items[i].Undefined?;
    ToInputsSpec(items);
  }

  /** A `null` or `undefined` stored message throws inside the mapping: nothing is sent and the route answers 500. */
  lemma RespondNullHistory(store: Conversations.Store, body: Value, openai: OpenAi, k: nat)
    requires ParamString(OptProp(body, "conversation_id")) != "" && ParamString(OptProp(body, "text")) != ""
    requires var h := Conversations.Snapshot(store, ParamString(OptProp(body, "conversation_id")));
      k < |h| && (h[k].Null? || h[k].Undefined?)
    ensures Respond(store, body, openai) == Responded(store, RESPOND_FAILED, [])
  {
    var id := ParamString(OptProp(body, "conversation_id"));
    var items := Turn(Conversations.Snapshot(store, id), ParamString(OptProp(body, "text")));
    assert items[k] == Conversations.Snapshot(store, id)[k];
  }

  /**
   * A failed upstream call answers with its status, or 502 when it has
   * none, and leaves the conversation alone.
   */
  lemma RespondUpstreamFailure(store: Conversations.Store, body: Value, openai: OpenAi)
    requires var r := Respond(store, body, openai); r.sent != [] && !openai(r.sent[0]).ok
    ensures var r := Respond(store, body, openai);
      var status := openai(r.sent[0]).status;
      r.store == store && r.reply == Json(if status != 0 then status else 502, ErrorBody("openai responses failed"))
  {
  }

  /** No entry of `tool_calls` names searchMemory or is `null`/`undefined`; a non-array skips the loop. */
  predicate NoSearchRequest(toolCalls: Value) {
    !toolCalls.Arr? || forall i :: 0 <= i < |toolCalls.items| ==> !NamesSearchMemory(toolCalls.items[i]) && !Nullish(toolCalls.items[i])
  }

  /**
   * Once the call is made and accepted, a reply whose `tool_calls` request
   * no memory search takes the direct path and streams its text.
   */
  lemma RespondTakesDirectPath(store: Conversations.Store, body: Value, openai: OpenAi)
    ensures var r := Respond(store, body, openai);
      r.sent != [] && openai(r.sent[0]).ok && NoSearchRequest(OptProp(openai(r.sent[0]).json, "tool_calls")) ==>
        r.reply.Ndjson?
  {
    var id := ParamString(OptProp(body, "conversation_id"));
    var text := ParamString(OptProp(body, "text"));
    var r := Respond(store, body, openai);
    if r.sent != [] {
      var input := ToInputs(Turn(Conversations.Snapshot(store, id), text)).value;
      assert r == Answer(store, id, input, openai(input));
    }
  }

  /**
   * On the direct path the reply's `output_text` is streamed back, and the
   * conversation gains one assistant message exactly when that text is a
   * non-empty string; otherwise it is unchanged.
   */
  lemma RespondAppendsAssistant(store: Conversations.Store, body: Value, openai: OpenAi)
    requires Respond(store, body, openai).reply.Ndjson?
    ensures var id := ParamString(OptProp(body, "conversation_id"));
      var r := Respond(store, body, openai);
      var out := OptProp(openai(r.sent[0]).json, "output_text");
      && |r.sent| == 1
      && r.reply.delta == (if Truthy(out) then out else Str(""))
      && (out.Str? && out.s != "" && id in store ==>
            Conversations.Snapshot(r.store, id) == Conversations.Snapshot(store, id) + [AssistantMessage(out)])
      && (!(out.Str? && out.s != "") ==> r.store == store)
  {
    var id := ParamString(OptProp(body, "conversation_id"));
    var text := ParamString(OptProp(body, "text"));
    var input := ToInputs(Turn(Conversations.Snapshot(store, id), text)).value;
    var r := Respond(store, body, openai);
    assert r == Answer(store, id, input, openai(input));
    var out := OptProp(openai(input).json, "output_text");
    if Truthy(out) {
      AssistantAppend(store, id, out);
    }
  }

  /**
   * Appending `{ role: 'assistant', text: out }` for a truthy `out` adds one
   * message when `out` is a string and nothing otherwise.
   */
  lemma AssistantAppend(store: Conversations.Store, id: string, out: Value)
    requires Truthy(out)
    ensures out.Str? && out.s != "" && id in store ==>
      Conversations.Snapshot(Conversations.Append(store, id, [AssistantMessage(out)]), id) == Conversations.Snapshot(store, id) + [AssistantMessage(out)]
    ensures !(out.Str? && out.s != "") ==> Conversations.Append(store, id, [AssistantMessage(out)]) == store
  {
    var m := AssistantMessage(out);
    if out.Str? && out.s != "" {
      assert Conversations.Acceptable(m);
      assert Conversations.Reduce(m) == m;
      assert Conversations.Accepted([m]) == [m];
    } else {
      assert !Conversations.Acceptable(m);
      assert Conversations.Accepted([m]) == [];
      if id in store {
        assert store[id] + [] == store[id];
        assert store[id := store[id]] == store;
      }
    }
  }

  // ---- /tts-azure and /tts-dia ----

  /** The audio, or `500 { error, detail }` when synthesis fails. */
  function Speak(cfg: Tts.Config, text: string, voice: string, azure: Tts.SynthCall -> Tts.AzureReply, failure: string): (r: Reply)
    ensures r.AudioStream? <==> azure(Tts.SynthesizeCall(cfg, text, voice)).Audio?
    ensures r.AudioStream? ==> r.stream == azure(Tts.SynthesizeCall(cfg, text, voice)).stream
    ensures !r.AudioStream? ==> r == Json(500, ErrorBody(failure))
  {
    match Tts.Synthesize(cfg, text, voice, azure)
    case Ok(stream) => AudioStream(stream)
    case Err(_) => Json(500, ErrorBody(failure))
  }

  /** GET `/tts-azure` and the synthesis calls it makes. */
  function TtsAzure(cfg: Tts.Config, query: Value, azure: Tts.SynthCall -> Tts.AzureReply): (r: (Reply, seq<Tts.SynthCall>))
    ensures ParamString(OptProp(query, "text")) == "" <==> r.1 == []
    ensures ParamString(OptProp(query, "text")) == "" ==> r.0 == Json(400, ErrorBody("text required"))
    ensures |r.1| <= 1
  {
    var text := ParamString(OptProp(query, "text"));
    var voice := ParamString(Or(OptProp(query, "voice"), Str(Tts.DEFAULT_VOICE)));
    if text == "" then (Json(400, ErrorBody("text required")), [])
    else (Speak(cfg, text, voice, azure, "Azure TTS failed"), [Tts.SynthesizeCall(cfg, text, voice)])
  }

  /** GET `/tts-dia`: the same with the voice fixed. */
  function TtsDia(cfg: Tts.Config, query: Value, azure: Tts.SynthCall -> Tts.AzureReply): (r: (Reply, seq<Tts.SynthCall>))
    ensures ParamString(OptProp(query, "text")) == "" <==> r.1 == []
    ensures ParamString(OptProp(query, "text")) == "" ==> r.0 == Json(400, ErrorBody("text required"))
    ensures |r.1| <= 1
  {
    var text := ParamString(OptProp(query, "text"));
    if text == "" then (Json(400, ErrorBody("text required")), [])
    else (Speak(cfg, text, Tts.DEFAULT_VOICE, azure, "tts-dia failed"), [Tts.SynthesizeCall(cfg, text, Tts.DEFAULT_VOICE)])
  }

  /** `voice || 'en-US-EmmaMultilingualNeural'` as the string the route passes on. */
  lemma VoiceParam(v: Value)
    ensures ParamString(Or(v, Str(Tts.DEFAULT_VOICE))) == if Truthy(v) then ToJsString(v) else Tts.DEFAULT_VOICE
  {
  }

  /**
   * One synthesis for `voice`: the escaped text follows the raw voice at its
   * fixed offset; when the voice holds nothing to escape, a parser reads
   * back the voice name and the text; audio comes back exactly when Azure
   * supplies it.
   */
  lemma SpeakCall(cfg: Tts.Config, text: string, voice: string, azure: Tts.SynthCall -> Tts.AzureReply, failure: string)
    ensures var call := Tts.SynthesizeCall(cfg, text, voice);
      && XmlEscape.Unescape(Tts.VoiceContent(call.ssml, |voice|)) == Some(text + Tts.INDENT)
      && (XmlEscape.NoSpecial(voice) ==> XmlEscape.Unescape(Tts.VoiceAttribute(call.ssml)) == Some(voice))
      && (XmlEscape.NoSpecial(voice) ==> XmlEscape.Unescape(Tts.ReaderContent(call.ssml)) == Some(text + Tts.INDENT))
      && (Speak(cfg, text, voice, azure, failure).AudioStream? <==> azure(call).Audio?)
  {
  }

  /**
   * The voice Azure is asked for is the `voice` parameter, or Emma when it
   * is absent or empty: the document names it whenever it holds none of
   * the five characters XML escapes, since the route inserts it unescaped,
   * and a parser then reads the text back too. Whatever the voice, the
   * escaped text follows it at its fixed offset. The audio is returned
   * exactly when Azure supplies it.
   */
  lemma TtsAzureVoice(cfg: Tts.Config, query: Value, azure: Tts.SynthCall -> Tts.AzureReply)
    requires ParamString(OptProp(query, "text")) != ""
    ensures var (reply, calls) := TtsAzure(cfg, query, azure);
      var v := OptProp(query, "voice");
      var voice := if Truthy(v) then ToJsString(v) else Tts.DEFAULT_VOICE;
      && |calls| == 1
      && XmlEscape.Unescape(Tts.VoiceContent(calls[0].ssml, |voice|)) == Some(ParamString(OptProp(query, "text")) + Tts.INDENT)
      && (XmlEscape.NoSpecial(voice) ==> XmlEscape.Unescape(Tts.VoiceAttribute(calls[0].ssml)) == Some(voice))
      && (XmlEscape.NoSpecial(voice) ==> XmlEscape.Unescape(Tts.ReaderContent(calls[0].ssml)) == Some(ParamString(OptProp(query, "text")) + Tts.INDENT))
      && (reply.AudioStream? <==> azure(calls[0]).Audio?)
  {
    var text := ParamString(OptProp(query, "text"));
    var v := OptProp(query, "voice");
    var voice := ParamString(Or(v, Str(Tts.DEFAULT_VOICE)));
    VoiceParam(v);
    SpeakCall(cfg, text, voice, azure, "Azure TTS failed");
    assert TtsAzure(cfg, query, azure) == (Speak(cfg, text, voice, azure, "Azure TTS failed"), [Tts.SynthesizeCall(cfg, text, voice)]);
  }

  /** `/tts-dia` always asks for Emma, and a parser reads the text back. */
  lemma TtsDiaVoice(cfg: Tts.Config, query: Value, azure: Tts.SynthCall -> Tts.AzureReply)
    requires ParamString(OptProp(query, "text")) != ""
    ensures var (reply, calls) := TtsDia(cfg, query, azure);
      && |calls| == 1
      && XmlEscape.Unescape(Tts.VoiceAttribute(calls[0].ssml)) == Some(Tts.DEFAULT_VOICE)
      && XmlEscape.Unescape(Tts.ReaderContent(calls[0].ssml)) == Some(ParamString(OptProp(query, "text")) + Tts.INDENT)
      && (reply.AudioStream? <==> azure(calls[0]).Audio?)
  {
    var text := ParamString(OptProp(query, "text"));
    Tts.DefaultVoicePlain();
    SpeakCall(cfg, text, Tts.DEFAULT_VOICE, azure, "tts-dia failed");
    assert TtsDia(cfg, query, azure) == (Speak(cfg, text, Tts.DEFAULT_VOICE, azure, "tts-dia failed"), [Tts.SynthesizeCall(cfg, text, Tts.DEFAULT_VOICE)]);
  }
}
