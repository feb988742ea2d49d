/**
 * The MCP hub: the tool registry built from the mounted providers, the
 * usage-recording invocation wrapper, the shared-secret guard and the two
 * session maps (streamable `/mcp` and legacy `/sse` + `/messages`).
 * Transports are opaque handles; what the MCP SDK does inside a transport
 * is outside the model.
 */
module Hub {
  import opened Wrappers
  import opened JsValue
  import UsageStore

  // ---- Providers and the tool registry ----

  datatype ToolDef = ToolDef(name: string, title: string)

  datatype Provider = Provider(name: string, tools: seq<ToolDef>)

  /** One registered tool, remembering the provider it was registered for. */
  datatype Registration = Registration(provider: string, tool: string)

  /** `buildServer()`: every tool of every provider, providers in mount order. */
  function Registry(ps: seq<Provider>): (reg: seq<Registration>)
    ensures forall r :: r in reg <==> exists j, t :: 0 <= j < |ps| && t in ps[j].tools && r == Registration(ps[j].name, t.name)
  {
    if ps == [] then []
    else
      var head := seq(|ps[0].tools|, i requires 0 <= i < |ps[0].tools| => Registration(ps[0].name, ps[0].tools[i].name));
      assert forall r :: r in head <==> exists t :: t in ps[0].tools && r == Registration(ps[0].name, t.name) by {
        forall r ensures r in head <==> exists t :: t in ps[0].tools && r == Registration(ps[0].name, t.name) {
          if exists t :: t in ps[0].tools && r == Registration(ps[0].name, t.name) {
            var t :| t in ps[0].tools && r == Registration(ps[0].name, t.name);
            var i :| 0 <= i < |ps[0].tools| && ps[0].tools[i] == t;
            assert head[i] == r;
          }
        }
      }
      var tail := Registry(ps[1..]);
      assert forall r :: r in tail <==> exists j, t :: 1 <= j < |ps| && t in ps[j].tools && r == Registration(ps[j].name, t.name) by {
        forall r ensures r in tail <==> exists j, t :: 1 <= j < |ps| && t in ps[j].tools && r == Registration(ps[j].name, t.name) {
          if r in tail {
            var j, t :| 0 <= j < |ps[1..]| && t in ps[1..][j].tools && r == Registration(ps[1..][j].name, t.name);
            assert ps[1..][j] == ps[j + 1];
          }
          if exists j, t :: 1 <= j < |ps| && t in ps[j].tools && r == Registration(ps[j].name, t.name) {
            var j, t :| 1 <= j < |ps| && t in ps[j].tools && r == Registration(ps[j].name, t.name);
            assert ps[1..][j - 1] == ps[j];
          }
        }
      }
      head + tail
  }

  /** The tool names of a provider list, flattened in mount order. */
  function ToolNames(ps: seq<Provider>): (names: seq<string>)
  {
    if ps == [] then []
    else seq(|ps[0].tools|, i requires 0 <= i < |ps[0].tools| => ps[0].tools[i].name) + ToolNames(ps[1..])
  }

  /** The body of `GET /providers`. */
  datatype Listing = Listing(providers: seq<string>, tools: seq<string>)

  /** `GET /providers`: provider names in mount order and the flattened tool names. */
  function ListProviders(ps: seq<Provider>): (l: Listing)
    ensures |l.providers| == |ps|
    ensures forall i :: 0 <= i < |ps| ==> l.providers[i] == ps[i].name
  {
    Listing(seq(|ps|, i requires 0 <= i < |ps| => ps[i].name), ToolNames(ps))
  }

  /** The providers `mountMCP` mounts, in order, with their tools. */
  const MOUNTED: seq<Provider> := [
    Provider("notion", [
      ToolDef("notion.getSelf", "Notion: Get Bot User"),
      ToolDef("notion.search", "Notion: Search"),
      ToolDef("notion.fetchPage", "Notion: Fetch Page"),
      ToolDef("notion.queryDatabase", "Notion: Query Database"),
      ToolDef("notion.createPage", "Notion: Create Page")]),
    Provider("pinecone", [
      ToolDef("pinecone.upsert", "Pinecone: Upsert Vectors"),
      ToolDef("pinecone.query", "Pinecone: Query"),
      ToolDef("pinecone.describeIndex", "Pinecone: Describe Index"),
      ToolDef("pineconeAssistant.chat", "Pinecone Assistant: Chat")]),
    Provider("nova-memory", [
      ToolDef("novaMemory.store", "Nova Memory: Store"),
      ToolDef("novaMemory.search", "Nova Memory: Search"),
      ToolDef("novaMemory.fetch", "Nova Memory: Fetch"),
      ToolDef("novaMemory.delete", "Nova Memory: Delete"),
      ToolDef("novaMemory.stats", "Nova Memory: Stats")])
  ]

  const MOUNTED_TOOLS: seq<string> := ["notion.getSelf", "notion.search", "notion.fetchPage", "notion.queryDatabase", "notion.createPage",
      "pinecone.upsert", "pinecone.query", "pinecone.describeIndex", "pineconeAssistant.chat",
      "novaMemory.store", "novaMemory.search", "novaMemory.fetch", "novaMemory.delete", "novaMemory.stats"]

  /** The mounted hub lists three providers and fourteen distinct tools. */
  lemma MountedListing()
    ensures ListProviders(MOUNTED).providers == ["notion", "pinecone", "nova-memory"]
    ensures |ListProviders(MOUNTED).tools| == 14
    ensures forall i, j :: 0 <= i < j < 14 ==> ListProviders(MOUNTED).tools[i] != ListProviders(MOUNTED).tools[j]
  {
    assert ListProviders(MOUNTED).tools == MOUNTED_TOOLS;
    MountedToolsDistinct();
  }

  lemma MountedToolsDistinct()
    ensures |MOUNTED_TOOLS| == 14
    ensures forall i, j :: 0 <= i < j < 14 ==> MOUNTED_TOOLS[i] != MOUNTED_TOOLS[j]
  {
  }

  /** The listed tool names are exactly the registered tools, in registration order. */
  lemma {:induction false} ListingMatchesRegistry(ps: seq<Provider>)
    ensures |ListProviders(ps).tools| == |Registry(ps)|
    ensures forall i :: 0 <= i < |Registry(ps)| ==> ListProviders(ps).tools[i] == Registry(ps)[i].tool
  {
    if ps != [] {
      ListingMatchesRegistry(ps[1..]);
    }
  }

  /** Appending a provider appends its tool names to the listing. */
  lemma {:induction false} ToolNamesAppend(ps: seq<Provider>, p: Provider)
    ensures ToolNames(ps + [p]) == ToolNames(ps) + seq(|p.tools|, i requires 0 <= i < |p.tools| => p.tools[i].name)
  {
    if ps != [] {
      assert (ps + [p])[1..] == ps[1..] + [p];
      ToolNamesAppend(ps[1..], p);
    } else {
      assert ToolNames([]) == [];
    }
  }

  /** `tool` resolves to its first registration. */
  function Resolve(reg: seq<Registration>, tool: string): (r: Option<Registration>)
    ensures r.Some? <==> exists i :: 0 <= i < |reg| && reg[i].tool == tool
    ensures r.Some? ==> r.value in reg && r.value.tool == tool
  {
    if reg == [] then None
    else if reg[0].tool == tool then Some(reg[0])
    else
      var r := Resolve(reg[1..], tool);
      assert forall i :: 1 <= i < |reg| ==> reg[i] == reg[1..][i - 1];
      r
  }

  // ---- The invocation wrapper ----

  /** An error thrown by a tool handler. */
  datatype JsError = JsError(message: string)

  /** `e?.message || String(e)` for an `Error` object. */
  function ErrorText(e: JsError): (s: string)
    ensures s != ""
    ensures e.message != "" ==> s == e.message
  {
    if e.message != "" then e.message else "Error"
  }

  type Outcome = Result<Value, JsError>

  /**
   * The handler registered for a tool: it awaits the tool's own handler,
   * appends exactly one usage record, and then returns the output or
   * rethrows the same error.
   */
  function Invoke(reg: Registration, handler: Value -> Outcome, args: Value, latencyMs: nat, log: UsageStore.Log)
    : (res: (Outcome, UsageStore.Log))
    ensures res.0 == handler(args)
    ensures |res.1| == |log| + 1 && res.1[..|log|] == log
    ensures var rec := res.1[|log|];
      && rec.provider == reg.provider
      && rec.toolName == reg.tool
      && rec.latencyMs == Num(latencyMs)
      && (rec.success == Bool(true) <==> handler(args).Ok?)
      && (handler(args).Ok? ==> rec.errorMessage == Undefined)
      && (handler(args).Err? ==> rec.success == Bool(false) && rec.errorMessage == Str(ErrorText(handler(args).error)))
  {
    var out := handler(args);
    var rec :=
      if out.Ok? then UsageStore.UsageRecord(reg.provider, reg.tool, Undefined, Bool(true), Num(latencyMs), Undefined)
      else UsageStore.UsageRecord(reg.provider, reg.tool, Undefined, Bool(false), Num(latencyMs), Str(ErrorText(out.error)));
    (out, UsageStore.Append(log, rec))
  }

  /** How a `tools/call` ends: the handler's outcome, or no such tool. */
  datatype CallResult = Handled(outcome: Outcome) | UnknownTool(name: string)

  /** Some mounted provider declares a tool called `name`. */
  predicate Declared(ps: seq<Provider>, name: string) {
    exists j, t :: 0 <= j < |ps| && t in ps[j].tools && t.name == name
  }

  /** A name resolves on the built server exactly when some provider declares it, and to that provider's registration. */
  lemma ResolveDeclared(ps: seq<Provider>, name: string)
    ensures Resolve(Registry(ps), name).Some? <==> Declared(ps, name)
    ensures Resolve(Registry(ps), name).Some? ==>
      exists j, t :: 0 <= j < |ps| && t in ps[j].tools && t.name == name && Resolve(Registry(ps), name).value.provider == ps[j].name
  {
    if Declared(ps, name) {
      var j, t :| 0 <= j < |ps| && t in ps[j].tools && t.name == name;
      assert Registration(ps[j].name, t.name) in Registry(ps);
      var k :| 0 <= k < |Registry(ps)| && Registry(ps)[k] == Registration(ps[j].name, t.name);
      assert Registry(ps)[k].tool == name;
    }
  }

  /**
   * A `tools/call` on a server built from `ps`: an unknown name is refused
   * without a usage record; a known one runs its handler through `Invoke`,
   * and the one record appended names the tool and a provider declaring it.
   */
  function CallTool(ps: seq<Provider>, name: string, handlers: (string, Value) -> Outcome, args: Value, latencyMs: nat, log: UsageStore.Log)
    : (res: (CallResult, UsageStore.Log))
    ensures !Declared(ps, name) ==> res == (UnknownTool(name), log)
    ensures Declared(ps, name) ==>
      && res.0 == Handled(handlers(name, args))
      && |res.1| == |log| + 1 && res.1[..|log|] == log
      && var rec := res.1[|log|];
      && rec.toolName == name
      && (exists j, t :: 0 <= j < |ps| && t in ps[j].tools && t.name == name && rec.provider == ps[j].name)
      && rec.latencyMs == Num(latencyMs)
      && (rec.success == Bool(true) <==> handlers(name, args).Ok?)
  {
    ResolveDeclared(ps, name);
    match Resolve(Registry(ps), name)
    case None => (UnknownTool(name), log)
    case Some(reg) =>
      var (out, log') := Invoke(reg, a => handlers(name, a), args, latencyMs, log);
      (Handled(out), log')
  }

  /** Over any sequence of calls, the log grows by exactly the number of handled calls. */
  lemma {:induction false} UsageCountsHandledCalls(
    ps: seq<Provider>, names: seq<string>, handlers: (string, Value) -> Outcome, args: Value, log: UsageStore.Log)
    ensures |RunCalls(ps, names, handlers, args, log).1| == |log| + RunCalls(ps, names, handlers, args, log).0
    ensures RunCalls(ps, names, handlers, args, log).1[..|log|] == log
  {
    if names != [] {
      var (r, log1) := CallTool(ps, names[0], handlers, args, 0, log);
      UsageCountsHandledCalls(ps, names[1..], handlers, args, log1);
      var (n, log2) := RunCalls(ps, names[1..], handlers, args, log1);
      assert log2[..|log|] == log2[..|log1|][..|log|];
    }
  }

  /** Runs a sequence of calls; returns how many reached a handler and the final log. */
  function RunCalls(ps: seq<Provider>, names: seq<string>, handlers: (string, Value) -> Outcome, args: Value, log: UsageStore.Log)
    : (nat, UsageStore.Log)
  {
    if names == [] then (0, log)
    else
      var (r, log1) := CallTool(ps, names[0], handlers, args, 0, log);
      var (n, log2) := RunCalls(ps, names[1..], handlers, args, log1);
      (n + (if r.Handled? then 1 else 0), log2)
  }

  // ---- Shared-secret guard ----

  /** `requireSharedSecret`: true when the request may proceed. */
  function GuardPasses(secret: string, key: Option<string>): (pass: bool)
    ensures secret == "" ==> pass
    ensures secret != "" ==> (pass <==> key == Some(secret))
  {
    secret == "" || key == Some(secret)
  }

  // ---- Session maps ----

  /** An opaque transport object. */
  type Handle = nat

  datatype Sessions = Sessions(streamable: map<string, Handle>, sse: map<string, Handle>)

  datatype Reply =
    | Delegated(handle: Handle, sessionHeader: Option<string>)   // the transport answers the request
    | JsonRpcError(status: nat, code: int, message: string)
    | TextError(status: nat, text: string)
    | Unauthorized
    | Thrown   // the handler throws a TypeError before answering; what the client then sees is not modelled

  /** JSON-RPC 2.0 server error code (section 5.1 of the JSON-RPC 2.0 specification). */
  const SERVER_ERROR: int := -32000

  /** The session named by the `mcp-session-id` header, when it is set and known. */
  function Known(m: map<string, Handle>, header: Option<string>): (h: Option<Handle>)
    ensures h.Some? <==> header.Some? && header.value != "" && header.value in m
    ensures h.Some? ==> h.value == m[header.value]
  {
    if header.Some? && header.value != "" && header.value in m then Some(m[header.value]) else None
  }

  /** True when a JSON-RPC body is an `initialize` request (`req.body?.method === 'initialize'`). */
  predicate IsInitialize(body: Value) {
    OptProp(body, "method") == Str("initialize")
  }

  // The members below without a suffix look a session id up among the map's
  // own keys only. The `AsWritten` members further down follow the source's
  // plain-object lookup, which also finds inherited members, and its DELETE,
  // which leaves the session in the map; `Serve` is built on those.

  /**
   * `POST /mcp`. A known session reuses its transport. Otherwise only an
   * `initialize` body is accepted: a new transport `newHandle` is created and
   * enters the map under `initialized`, the id the transport generated,
   * if the transport initialised the session.
   */
  function McpPost(s: Sessions, header: Option<string>, body: Value, newHandle: Handle, initialized: Option<string>)
    : (res: (Sessions, Reply))
    ensures Known(s.streamable, header).Some? ==> res == (s, Delegated(Known(s.streamable, header).value, None))
    ensures Known(s.streamable, header).None? && !IsInitialize(body) ==>
      res == (s, JsonRpcError(400, SERVER_ERROR, "Bad Request: No valid session ID provided"))
    ensures Known(s.streamable, header).None? && IsInitialize(body) ==>
      && res.1 == Delegated(newHandle, initialized)
      && res.0.sse == s.sse
      && (initialized.None? ==> res.0 == s)
      && (initialized.Some? ==> res.0.streamable == s.streamable[initialized.value := newHandle])
  {
    match Known(s.streamable, header)
    case Some(h) => (s, Delegated(h, None))
    case None =>
      if !IsInitialize(body) then (s, JsonRpcError(400, SERVER_ERROR, "Bad Request: No valid session ID provided"))
      else
        match initialized
        case None => (s, Delegated(newHandle, None))
        case Some(sid) => (s.(streamable := s.streamable[sid := newHandle]), Delegated(newHandle, Some(sid)))
  }

  /** `GET /mcp`: a known session's transport drains output; anything else is a 400. */
  function McpGet(s: Sessions, header: Option<string>): (r: Reply)
    ensures Known(s.streamable, header).None? <==> r == TextError(400, "Invalid or missing session ID")
    ensures Known(s.streamable, header).Some? ==> r == Delegated(Known(s.streamable, header).value, None)
  {
    match Known(s.streamable, header)
    case Some(h) => Delegated(h, None)
    case None => TextError(400, "Invalid or missing session ID")
  }

  /**
   * `DELETE /mcp` with the session removed once its transport is terminated,
   * as session teardown requires; an unknown id is a 400 that changes nothing.
   */
  function McpDelete(s: Sessions, header: Option<string>): (res: (Sessions, Reply))
    ensures Known(s.streamable, header).None? ==> res == (s, TextError(400, "Invalid or missing session ID"))
    ensures Known(s.streamable, header).Some? ==>
      && res.1 == Delegated(Known(s.streamable, header).value, None)
      && res.0 == s.(streamable := s.streamable - {header.value})
  {
    match Known(s.streamable, header)
    case Some(h) => (s.(streamable := s.streamable - {header.value}), Delegated(h, None))
    case None => (s, TextError(400, "Invalid or missing session ID"))
  }

  /** Once deleted, a session id is refused by every verb except a new `initialize`. */
  lemma DeletedSessionRefused(s: Sessions, sid: string, body: Value, newHandle: Handle)
    requires sid != "" && sid in s.streamable
    requires !IsInitialize(body)
    ensures var s' := McpDelete(s, Some(sid)).0;
      && McpGet(s', Some(sid)) == TextError(400, "Invalid or missing session ID")
      && McpPost(s', Some(sid), body, newHandle, None).1 == JsonRpcError(400, SERVER_ERROR, "Bad Request: No valid session ID provided")
      && McpDelete(s', Some(sid)).1 == TextError(400, "Invalid or missing session ID")
  {
  }

  /** `GET /sse`: a new transport with session id `sid` is registered. */
  function SseOpen(s: Sessions, sid: string, newHandle: Handle): (s': Sessions)
    ensures s'.streamable == s.streamable
    ensures s'.sse == s.sse[sid := newHandle]
  {
    s.(sse := s.sse[sid := newHandle])
  }

  /** The `close` event of an SSE response: its session leaves the map. */
  function SseClose(s: Sessions, sid: string): (s': Sessions)
    ensures s'.streamable == s.streamable
    ensures s'.sse.Keys == s.sse.Keys - {sid}
    ensures forall k :: k in s'.sse ==> s'.sse[k] == s.sse[k]
  {
    s.(sse := s.sse - {sid})
  }

  /** `POST /messages?sessionId=…`: forwarded to the open stream, or a 400. */
  function SsePost(s: Sessions, sessionId: Value): (r: Reply)
    ensures ParamString(sessionId) in s.sse ==> r == Delegated(s.sse[ParamString(sessionId)], None)
    ensures ParamString(sessionId) !in s.sse ==> r == TextError(400, "No transport found for sessionId")
  {
    var id := ParamString(sessionId);
    if id in s.sse then Delegated(s.sse[id], None) else TextError(400, "No transport found for sessionId")
  }

  /** Opening a stream under a newHandle id adds exactly one session; closing it restores the map. */
  lemma SseLifecycle(s: Sessions, sid: string, h: Handle)
    requires sid !in s.sse
    ensures |SseOpen(s, sid, h).sse| == |s.sse| + 1
    ensures SsePost(SseOpen(s, sid, h), Str(sid)) == Delegated(h, None) || sid == ""
    ensures SseClose(SseOpen(s, sid, h), sid) == s
    ensures SsePost(SseClose(SseOpen(s, sid, h), sid), Str(sid)).TextError?
  {
    assert SseClose(SseOpen(s, sid, h), sid).sse == s.sse;
  }

  // ---- Plain-object lookup in the source's session maps ----

  /** Members every plain JavaScript object inherits from `Object.prototype`. */
  const INHERITED: set<string> := {
    "constructor", "hasOwnProperty", "isPrototypeOf", "propertyIsEnumerable",
    "toLocaleString", "toString", "valueOf", "__proto__",
    "__defineGetter__", "__defineSetter__", "__lookupGetter__", "__lookupSetter__" }

  /** What `transports[id]` yields on the source's `{}` maps. */
  datatype Lookup = Own(handle: Handle) | InheritedMember | Missing

  function LookupAsWritten(m: map<string, Handle>, id: string): (r: Lookup)
    ensures id in m ==> r == Own(m[id])
    ensures id !in m && id in INHERITED ==> r == InheritedMember
    ensures id !in m && id !in INHERITED ==> r == Missing
  {
    if id in m then Own(m[id]) else if id in INHERITED then InheritedMember else Missing
  }

  /**
   * `sessionId && transports[sessionId]`: a missing or empty header
   * short-circuits to a miss. Agrees with `Known` except on inherited names.
   */
  function FindAsWritten(m: map<string, Handle>, header: Option<string>): (r: Lookup)
    ensures r.Own? <==> Known(m, header).Some?
    ensures r.Own? ==> r.handle == Known(m, header).value
    ensures r.InheritedMember? <==> header.Some? && header.value != "" && header.value !in m && header.value in INHERITED
  {
    if header.None? || header.value == "" then Missing else LookupAsWritten(m, header.value)
  }

  /**
   * `POST /mcp` as the source writes it. An inherited member passes the
   * `transports[sessionId]` test and is taken for a transport, so calling
   * `handleRequest` on it throws; every other request goes as in `McpPost`.
   */
  function McpPostAsWritten(s: Sessions, header: Option<string>, body: Value, newHandle: Handle, initialized: Option<string>)
    : (res: (Sessions, Reply))
    ensures FindAsWritten(s.streamable, header).InheritedMember? ==> res == (s, Thrown)
    ensures !FindAsWritten(s.streamable, header).InheritedMember? ==> res == McpPost(s, header, body, newHandle, initialized)
  {
    match FindAsWritten(s.streamable, header)
    case Own(h) => (s, Delegated(h, None))
    case InheritedMember => (s, Thrown)
    case Missing =>
      if !IsInitialize(body) then (s, JsonRpcError(400, SERVER_ERROR, "Bad Request: No valid session ID provided"))
      else
        match initialized
        case None => (s, Delegated(newHandle, None))
        case Some(sid) => (s.(streamable := s.streamable[sid := newHandle]), Delegated(newHandle, Some(sid)))
  }

  /** `GET /mcp` as the source writes it: an inherited member throws instead of the 400. */
  function McpGetAsWritten(s: Sessions, header: Option<string>): (r: Reply)
    ensures FindAsWritten(s.streamable, header).InheritedMember? ==> r == Thrown
    ensures !FindAsWritten(s.streamable, header).InheritedMember? ==> r == McpGet(s, header)
  {
    match FindAsWritten(s.streamable, header)
    case Own(h) => Delegated(h, None)
    case InheritedMember => Thrown
    case Missing => TextError(400, "Invalid or missing session ID")
  }

  /**
   * `DELETE /mcp` as the source writes it: the request goes to the
   * transport, but nothing removes the session from the map; an inherited
   * member throws as in GET.
   */
  function McpDeleteAsWritten(s: Sessions, header: Option<string>): (res: (Sessions, Reply))
    ensures res.0 == s
    ensures res.1 == McpGetAsWritten(s, header)
    ensures !FindAsWritten(s.streamable, header).InheritedMember? ==> res.1 == McpDelete(s, header).1
  {
    match FindAsWritten(s.streamable, header)
    case Own(h) => (s, Delegated(h, None))
    case InheritedMember => (s, Thrown)
    case Missing => (s, TextError(400, "Invalid or missing session ID"))
  }

  /** `POST /messages` as the source writes it: an inherited member throws instead of the 400. */
  function SsePostAsWritten(s: Sessions, sessionId: Value): (r: Reply)
    ensures LookupAsWritten(s.sse, ParamString(sessionId)).InheritedMember? ==> r == Thrown
    ensures !LookupAsWritten(s.sse, ParamString(sessionId)).InheritedMember? ==> r == SsePost(s, sessionId)
  {
    match LookupAsWritten(s.sse, ParamString(sessionId))
    case Own(h) => Delegated(h, None)
    case InheritedMember => Thrown
    case Missing => TextError(400, "No transport found for sessionId")
  }

  /** After a successful DELETE the same id is still routed to the terminated transport. */
  lemma DeletedSessionStillRouted(s: Sessions, sid: string)
    requires sid != "" && sid in s.streamable
    ensures McpDeleteAsWritten(s, Some(sid)).1.Delegated?
    ensures McpGetAsWritten(McpDeleteAsWritten(s, Some(sid)).0, Some(sid)) == Delegated(s.streamable[sid], None)
  {
  }

  /** `constructor` as a session id on a hub without sessions is not answered with a 400 by any route. */
  lemma InheritedIdEscapesCheck(body: Value, h: Handle, init: Option<string>)
    ensures var s := Sessions(map[], map[]);
      && McpPostAsWritten(s, Some("constructor"), body, h, init) == (s, Thrown)
      && McpGetAsWritten(s, Some("constructor")) == Thrown
      && McpDeleteAsWritten(s, Some("constructor")) == (s, Thrown)
      && SsePostAsWritten(s, Str("constructor")) == Thrown
    ensures var s := Sessions(map[], map[]);
      && McpGet(s, Some("constructor")) == TextError(400, "Invalid or missing session ID")
      && McpDelete(s, Some("constructor")) == (s, TextError(400, "Invalid or missing session ID"))
      && SsePost(s, Str("constructor")) == TextError(400, "No transport found for sessionId")
  {
  }

  // ---- The guarded endpoints ----

  datatype Request =
    | PostMcp(header: Option<string>, body: Value)
    | GetMcp(header: Option<string>)
    | DeleteMcp(header: Option<string>)
    | GetSse
    | PostMessages(sessionId: Value)

  /** What the environment supplies to a request: a new transport and the ids it generates. */
  datatype Fresh = Fresh(handle: Handle, sseId: string, initialized: Option<string>)

  /**
   * One request to a session endpoint, behind `requireSharedSecret`, as the
   * source routes it. No request removes a session from either map.
   */
  function Serve(s: Sessions, secret: string, key: Option<string>, req: Request, env: Fresh): (res: (Sessions, Reply))
    ensures !GuardPasses(secret, key) ==> res == (s, Unauthorized)
    ensures !res.1.Delegated? ==> res.0 == s
    ensures s.streamable.Keys <= res.0.streamable.Keys && s.sse.Keys <= res.0.sse.Keys
  {
    if !GuardPasses(secret, key) then (s, Unauthorized)
    else match req
      case PostMcp(h, body) => McpPostAsWritten(s, h, body, env.handle, env.initialized)
      case GetMcp(h) => (s, McpGetAsWritten(s, h))
      case DeleteMcp(h) => McpDeleteAsWritten(s, h)
      case GetSse => (SseOpen(s, env.sseId, env.handle), Delegated(env.handle, Some(env.sseId)))
      case PostMessages(id) => (s, SsePostAsWritten(s, id))
  }

  /** The same endpoints with own-key lookup and a DELETE that removes the session. */
  function ServeCorrected(s: Sessions, secret: string, key: Option<string>, req: Request, env: Fresh): (res: (Sessions, Reply))
    ensures !GuardPasses(secret, key) ==> res == (s, Unauthorized)
    ensures !res.1.Delegated? ==> res.0 == s
    ensures !res.1.Thrown?
    ensures GuardPasses(secret, key) && req.DeleteMcp? && Known(s.streamable, req.header).Some? ==>
      res.0.streamable.Keys == s.streamable.Keys - {req.header.value}
  {
    if !GuardPasses(secret, key) then (s, Unauthorized)
    else match req
      case PostMcp(h, body) => McpPost(s, h, body, env.handle, env.initialized)
      case GetMcp(h) => (s, McpGet(s, h))
      case DeleteMcp(h) => McpDelete(s, h)
      case GetSse => (SseOpen(s, env.sseId, env.handle), Delegated(env.handle, Some(env.sseId)))
      case PostMessages(id) => (s, SsePost(s, id))
  }

  /** A request on which the two lookups and the two DELETEs cannot differ. */
  predicate Ordinary(s: Sessions, req: Request) {
    match req
    case PostMcp(h, _) => !FindAsWritten(s.streamable, h).InheritedMember?
    case GetMcp(h) => !FindAsWritten(s.streamable, h).InheritedMember?
    case DeleteMcp(h) => FindAsWritten(s.streamable, h).Missing?
    case GetSse => true
    case PostMessages(id) => !LookupAsWritten(s.sse, ParamString(id)).InheritedMember?
  }

  /**
   * The source's router and the corrected one agree on a request exactly
   * when it is ordinary: they part only on inherited names and on the
   * DELETE of a live session.
   */
  lemma ServeAgreesIffOrdinary(s: Sessions, secret: string, key: Option<string>, req: Request, env: Fresh)
    requires GuardPasses(secret, key)
    ensures Serve(s, secret, key, req, env) == ServeCorrected(s, secret, key, req, env) <==> Ordinary(s, req)
  {
    match req
    case PostMcp(h, body) =>
    case GetMcp(h) =>
    case DeleteMcp(h) =>
      if Known(s.streamable, h).Some? {
        assert h.value in s.streamable;
        assert h.value !in McpDelete(s, h).0.streamable;
      }
    case GetSse =>
    case PostMessages(id) =>
  }
}
