/**
 * The Pinecone provider: API-key and index-host resolution, and the four
 * tools (vector upsert and query against an index host, index description
 * and assistant chat against the control plane). Each tool makes at most
 * one upstream call; upstream HTTP is an oracle.
 */
module Pinecone {
  import opened Wrappers
  import opened JsValue
  import opened Schema
  import opened Http
  import Uri

  const NAME: string := "pinecone"
  const BASE_API: string := "https://api.pinecone.io"

  /** `PINECONE_API_KEY` and `PINECONE_INDEX_HOST`; an unset variable is the empty string. */
  datatype Config = Config(apiKey: string, defaultHost: string)

  /** One HTTP request to Pinecone, with the `Api-Key` header it carries. */
  datatype Call = Call(httpMethod: string, url: string, apiKey: string, body: Option<map<string, Value>>)

  /** The upstream oracle: the response to the `i`-th call of a run. */
  type Net = (nat, Call) -> Response

  /** Why a tool call fails after its arguments were accepted. */
  datatype Failure =
    | KeyMissing                               // `PINECONE_API_KEY missing…`
    | HostRequired                             // `index_host required…`
    | ToolFailed(verb: string, json: Value)    // `<verb> failed: <json>`

  /** A handler run: its outcome and the calls it made. */
  datatype Run = Run(outcome: Result<Value, Failure>, calls: seq<Call>)

  // ---- Key and host ----

  /** `args.api_key || API_KEY`, for an argument that is a string or absent. */
  function KeyFor(cfg: Config, a: Args): (k: string)
    requires OptString(a, "api_key")
    ensures Arg(a, "api_key").Str? && Arg(a, "api_key").s != "" ==> k == Arg(a, "api_key").s
    ensures !(Arg(a, "api_key").Str? && Arg(a, "api_key").s != "") ==> k == cfg.apiKey
  {
    match Or(Arg(a, "api_key"), Str(cfg.apiKey))
    case Str(s) => s
    case _ => cfg.apiKey
  }

  predicate EndsWithSlash(s: string) {
    |s| > 0 && s[|s| - 1] == '/'
  }

  /** `s.replace(/\/+$/, '')`: drops the run of `/` at the end. */
  function TrimTrailingSlashes(s: string): (r: string)
    ensures |r| <= |s| && r == s[..|r|]
    ensures !EndsWithSlash(r)
    ensures forall i :: |r| <= i < |s| ==> s[i] == '/'
  {
    if EndsWithSlash(s) then TrimTrailingSlashes(s[..|s| - 1]) else s
  }

  /** Trimming twice is trimming once. */
  lemma TrimTrailingSlashesIdempotent(s: string)
    ensures TrimTrailingSlashes(TrimTrailingSlashes(s)) == TrimTrailingSlashes(s)
  {
  }

  /** Extra slashes on a host make no difference to the URL built from it. */
  lemma {:induction false} TrailingSlashIgnored(s: string, n: nat)
    ensures TrimTrailingSlashes(s + seq(n, _ => '/')) == TrimTrailingSlashes(s)
  {
    if n > 0 {
      var t := s + seq(n, _ => '/');
      assert EndsWithSlash(t);
      assert t[..|t| - 1] == s + seq(n - 1, _ => '/');
      TrailingSlashIgnored(s, n - 1);
    } else {
      assert s + seq(n, _ => '/') == s;
    }
  }

  /** `getHost(index_host)`: the argument or the configured default, without trailing slashes. */
  function GetHost(cfg: Config, indexHost: Value): (r: Result<string, Failure>)
    requires indexHost.Undefined? || indexHost.Str?
    ensures indexHost.Str? && indexHost.s != "" ==> r == Ok(TrimTrailingSlashes(indexHost.s))
    ensures !(indexHost.Str? && indexHost.s != "") && cfg.defaultHost != "" ==> r == Ok(TrimTrailingSlashes(cfg.defaultHost))
    ensures !(indexHost.Str? && indexHost.s != "") && cfg.defaultHost == "" ==> r == Err(HostRequired)
  {
    var h := Or(indexHost, Str(cfg.defaultHost));
    if !Truthy(h) then Err(HostRequired)
    else match h
      case Str(s) => Ok(TrimTrailingSlashes(s))
      case _ => Err(HostRequired)
  }

  // ---- One request ----

  function Finish(verb: string, r: Response): (o: Result<Value, Failure>)
    ensures r.ok <==> o.Ok?
    ensures r.ok ==> o.value == r.json
  {
    if r.ok then Ok(r.json) else Err(ToolFailed(verb, r.json))
  }

  /**
   * `pineFetch` followed by the handler's `ok` check: without a key nothing
   * is sent; otherwise one call, whose failure is reported under `verb`.
   */
  function Exchange(verb: string, httpMethod: string, url: string, key: string, body: Option<map<string, Value>>, net: Net)
    : (run: Run)
    ensures key == "" <==> run.calls == []
    ensures key == "" ==> run.outcome == Err(KeyMissing)
    ensures key != "" ==>
      && run.calls == [Call(httpMethod, url, key, body)]
      && run.outcome == Finish(verb, net(0, Call(httpMethod, url, key, body)))
  {
    if key == "" then Run(Err(KeyMissing), [])
    else
      var call := Call(httpMethod, url, key, body);
      Run(Finish(verb, net(0, call)), [call])
  }

  /** A data-plane handler: resolve the host first, then send to `<host><path>`. */
  function HostExchange(cfg: Config, verb: string, indexHost: Value, path: string, key: string, body: map<string, Value>, net: Net)
    : (run: Run)
    requires indexHost.Undefined? || indexHost.Str?
    ensures GetHost(cfg, indexHost).Err? ==> run == Run(Err(HostRequired), [])
    ensures GetHost(cfg, indexHost).Ok? ==>
      run == Exchange(verb, "POST", GetHost(cfg, indexHost).value + path, key, Some(body), net)
  {
    match GetHost(cfg, indexHost)
    case Err(f) => Run(Err(f), [])
    case Ok(host) => Exchange(verb, "POST", host + path, key, Some(body), net)
  }

  // ---- pinecone.upsert ----

  /** One element of `vectors`: `{ id: string, values: number[], metadata?: object }`. */
  predicate ValidVector(v: Value) {
    && v.Obj?
    && Arg(v.fields, "id").Str?
    && NumberArray(Arg(v.fields, "values"))
    && (Arg(v.fields, "metadata").Undefined? || Arg(v.fields, "metadata").Obj?)
  }

  predicate ValidUpsert(a: Args) {
    && OptString(a, "api_key") && OptString(a, "index_host") && OptString(a, "namespace")
    && Arg(a, "vectors").Arr?
    && forall i :: 0 <= i < |Arg(a, "vectors").items| ==> ValidVector(Arg(a, "vectors").items[i])
  }

  /** The keys the vector schema names; zod drops every other key of a vector. */
  const VECTOR_FIELDS: set<string> := {"id", "values", "metadata"}

  /** `w` is `v` with only the schema's keys kept, and only those `v` sets. */
  predicate Stripped(v: Value, w: Value) {
    && v.Obj? && w.Obj?
    && w.fields.Keys == (set k | k in VECTOR_FIELDS && !Arg(v.fields, k).Undefined?)
    && (forall k :: k in w.fields ==> w.fields[k] == Arg(v.fields, k))
  }

  /** One vector as the parsed arguments hold it. */
  function StripVector(v: Value): (w: Value)
    requires v.Obj?
    ensures Stripped(v, w)
  {
    Obj(map k | k in VECTOR_FIELDS && !Arg(v.fields, k).Undefined? :: Arg(v.fields, k))
  }

  /**
   * A valid vector stays valid once stripped, keeps its `id` and `values`,
   * keeps `metadata` exactly when it has one, and stripping it again changes nothing.
   */
  lemma StripVectorKeeps(v: Value)
    requires ValidVector(v)
    ensures var w := StripVector(v);
      && ValidVector(w)
      && w.fields["id"] == v.fields["id"] && w.fields["values"] == v.fields["values"]
      && ("metadata" in w.fields <==> "metadata" in v.fields && !v.fields["metadata"].Undefined?)
      && StripVector(w) == w
  {
    var w := StripVector(v);
    assert "id" in w.fields && "values" in w.fields;
    assert Arg(w.fields, "metadata") == Arg(v.fields, "metadata");
    assert StripVector(w).fields == w.fields;
  }

  /** `{ vectors, ...(namespace ? { namespace } : {}) }` over the parsed arguments. */
  function UpsertBody(a: Args): (body: map<string, Value>)
    requires ValidUpsert(a)
    ensures "vectors" in body && body["vectors"].Arr?
    ensures |body["vectors"].items| == |Arg(a, "vectors").items|
    ensures forall i :: 0 <= i < |body["vectors"].items| ==> Stripped(Arg(a, "vectors").items[i], body["vectors"].items[i])
    ensures "namespace" in body <==> Truthy(Arg(a, "namespace"))
    ensures "namespace" in body ==> body["namespace"] == Arg(a, "namespace")
    ensures body.Keys <= {"vectors", "namespace"}
  {
    var items := Arg(a, "vectors").items;
    var stripped := seq(|items|, i requires 0 <= i < |items| => StripVector(items[i]));
    IfTruthy(map["vectors" := Arr(stripped)], "namespace", Arg(a, "namespace"))
  }

  /** `pinecone.upsert`: `POST <host>/vectors/upsert`. */
  function Upsert(cfg: Config, a: Args, net: Net): (r: Result<Run, ArgsError>)
    ensures r.Ok? <==> ValidUpsert(a)
    ensures r.Ok? ==> r.value == HostExchange(cfg, "upsert", Arg(a, "index_host"), "/vectors/upsert", KeyFor(cfg, a), UpsertBody(a), net)
  {
    if !ValidUpsert(a) then Err(InvalidArgument(if !Arg(a, "vectors").Arr? then "vectors" else "args"))
    else Ok(HostExchange(cfg, "upsert", Arg(a, "index_host"), "/vectors/upsert", KeyFor(cfg, a), UpsertBody(a), net))
  }

  // ---- pinecone.query ----

  /** The query schema, after `topK` takes its default, with the `vector || id` refinement. */
  predicate ValidQuery(a: Args) {
    && OptString(a, "api_key") && OptString(a, "index_host") && OptString(a, "namespace")
    && (Arg(a, "vector").Undefined? || NumberArray(Arg(a, "vector")))
    && OptString(a, "id")
    && IntInRange(Arg(a, "topK"), 1, 100)
    && (Arg(a, "filter").Undefined? || Arg(a, "filter").Obj?)
    && OptBool(a, "includeValues") && OptBool(a, "includeMetadata")
    && (Truthy(Arg(a, "vector")) || Truthy(Arg(a, "id")))
  }

  /** `...(typeof v === 'boolean' ? { k: v } : {})`. */
  function IfBool(body: map<string, Value>, k: string, v: Value): (b: map<string, Value>)
    ensures v.Bool? ==> b == body[k := v]
    ensures !v.Bool? ==> b == body
  {
    if v.Bool? then body[k := v] else body
  }

  /** `topK` and the search fields the query names, each only when truthy. */
  function QuerySearchFields(a: Args): (body: map<string, Value>)
    ensures "topK" in body && body["topK"] == Arg(a, "topK")
    ensures ("vector" in body <==> Truthy(Arg(a, "vector"))) && ("id" in body <==> Truthy(Arg(a, "id")))
    ensures ("namespace" in body <==> Truthy(Arg(a, "namespace"))) && ("filter" in body <==> Truthy(Arg(a, "filter")))
    ensures body.Keys <= {"topK", "vector", "id", "namespace", "filter"}
    ensures forall k :: k in body ==> body[k] == Arg(a, k)
  {
    var b0 := map["topK" := Arg(a, "topK")];
    var b1 := IfTruthy(b0, "vector", Arg(a, "vector"));
    var b2 := IfTruthy(b1, "id", Arg(a, "id"));
    var b3 := IfTruthy(b2, "namespace", Arg(a, "namespace"));
    IfTruthy(b3, "filter", Arg(a, "filter"))
  }

  /** The query body: the search fields, then the two flags when they are booleans. */
  function QueryBody(a: Args): (body: map<string, Value>)
    ensures "topK" in body && body["topK"] == Arg(a, "topK")
    ensures ("vector" in body <==> Truthy(Arg(a, "vector"))) && ("id" in body <==> Truthy(Arg(a, "id")))
    ensures ("namespace" in body <==> Truthy(Arg(a, "namespace"))) && ("filter" in body <==> Truthy(Arg(a, "filter")))
    ensures ("includeValues" in body <==> Arg(a, "includeValues").Bool?) && ("includeMetadata" in body <==> Arg(a, "includeMetadata").Bool?)
    ensures body.Keys <= {"topK", "vector", "id", "namespace", "filter", "includeValues", "includeMetadata"}
    ensures forall k :: k in body ==> body[k] == Arg(a, k)
  {
    IfBool(IfBool(QuerySearchFields(a), "includeValues", Arg(a, "includeValues")), "includeMetadata", Arg(a, "includeMetadata"))
  }

  /** `pinecone.query`: `POST <host>/query`, `topK` defaulting to 10. */
  function Query(cfg: Config, raw: Args, net: Net): (r: Result<Run, ArgsError>)
    ensures var a := Defaulted(raw, "topK", Num(10)); r.Ok? <==> ValidQuery(a)
    ensures r.Ok? ==>
      var a := Defaulted(raw, "topK", Num(10));
      r.value == HostExchange(cfg, "query", Arg(a, "index_host"), "/query", KeyFor(cfg, a), QueryBody(a), net)
  {
    var a := Defaulted(raw, "topK", Num(10));
    if !ValidQuery(a) then Err(InvalidArgument(if !IntInRange(Arg(a, "topK"), 1, 100) then "topK" else "args"))
    else Ok(HostExchange(cfg, "query", Arg(a, "index_host"), "/query", KeyFor(cfg, a), QueryBody(a), net))
  }

  /** Every query sent names what to search by: a vector or a record id. */
  lemma QuerySendsVectorOrId(cfg: Config, raw: Args, net: Net)
    requires Query(cfg, raw, net).Ok? && Query(cfg, raw, net).value.calls != []
    ensures var c := Query(cfg, raw, net).value.calls[0];
      c.body.Some? && ("vector" in c.body.value || "id" in c.body.value)
      && "topK" in c.body.value && 1 <= c.body.value["topK"].n <= 100
  {
  }

  /** A query without `topK` asks for ten matches. */
  lemma QueryDefaultTopK(cfg: Config, raw: Args, net: Net)
    requires "topK" !in raw
    requires Query(cfg, raw, net).Ok? && Query(cfg, raw, net).value.calls != []
    ensures Query(cfg, raw, net).value.calls[0].body.value["topK"] == Num(10)
  {
  }

  // ---- pinecone.describeIndex ----

  /** `pinecone.describeIndex`: `GET https://api.pinecone.io/indexes/<encoded name>`. */
  function DescribeIndex(cfg: Config, a: Args, net: Net): (r: Result<Run, ArgsError>)
    ensures r.Ok? <==> OptString(a, "api_key") && Arg(a, "index_name").Str?
    ensures r.Ok? ==> r.value == Exchange("describeIndex", "GET",
      BASE_API + "/indexes/" + Uri.EncodeComponent(Arg(a, "index_name").s), KeyFor(cfg, a), None, net)
  {
    if !OptString(a, "api_key") then Err(InvalidArgument("api_key"))
    else if !Arg(a, "index_name").Str? then Err(InvalidArgument("index_name"))
    else Ok(Exchange("describeIndex", "GET",
      BASE_API + "/indexes/" + Uri.EncodeComponent(Arg(a, "index_name").s), KeyFor(cfg, a), None, net))
  }

  /**
   * The name cannot leave its path segment: the URL is the fixed prefix
   * followed by a slash-free segment that decodes back to the name.
   */
  lemma {:induction false} DescribeIndexTargetsName(cfg: Config, a: Args, net: Net)
    requires DescribeIndex(cfg, a, net).Ok? && DescribeIndex(cfg, a, net).value.calls != []
    ensures var url := DescribeIndex(cfg, a, net).value.calls[0].url;
      var prefix := BASE_API + "/indexes/";
      && |url| >= |prefix| && url[..|prefix|] == prefix
      && (forall i :: |prefix| <= i < |url| ==> url[i] != '/')
      && Uri.DecodeComponent(url[|prefix|..]) == Some(Arg(a, "index_name").s)
  {
    var name := Arg(a, "index_name").s;
    var prefix := BASE_API + "/indexes/";
    var seg := Uri.EncodeComponent(name);
    var url := DescribeIndex(cfg, a, net).value.calls[0].url;
    assert url == prefix + seg;
    assert url[|prefix|..] == seg;
    Uri.EscapeBytesSafe(Uri.Utf8.Encode(name));
    Uri.DecodeEncode(name);
    forall i | |prefix| <= i < |url| ensures url[i] != '/' {
      assert url[i] == seg[i - |prefix|];
    }
  }

  // ---- pineconeAssistant.chat ----

  const ROLES: set<string> := {"user", "assistant", "system"}

  /** `{ role: enum.default('user'), content: string }`. */
  predicate ValidMessage(m: Value) {
    && m.Obj?
    && (Arg(m.fields, "role").Undefined? || (Arg(m.fields, "role").Str? && Arg(m.fields, "role").s in ROLES))
    && Arg(m.fields, "content").Str?
  }

  /** The parsed message: the role filled in, other keys dropped. */
  function NormalizeMessage(m: Value): (r: Value)
    requires ValidMessage(m)
    ensures r.Obj? && r.fields.Keys == {"role", "content"}
    ensures r.fields["content"] == Arg(m.fields, "content")
    ensures r.fields["role"] == (if Arg(m.fields, "role").Undefined? then Str("user") else Arg(m.fields, "role"))
  {
    var role := if Arg(m.fields, "role").Undefined? then Str("user") else Arg(m.fields, "role");
    Obj(map["role" := role, "content" := Arg(m.fields, "content")])
  }

  function NormalizeMessages(ms: seq<Value>): (r: seq<Value>)
    requires forall i :: 0 <= i < |ms| ==> ValidMessage(ms[i])
    ensures |r| == |ms|
    ensures forall i :: 0 <= i < |ms| ==> r[i] == NormalizeMessage(ms[i])
  {
    if ms == [] then [] else [NormalizeMessage(ms[0])] + NormalizeMessages(ms[1..])
  }

  predicate ValidChat(a: Args) {
    && OptString(a, "api_key")
    && Arg(a, "assistant_name").Str?
    && Arg(a, "messages").Arr?
    && |Arg(a, "messages").items| >= 1
    && forall i :: 0 <= i < |Arg(a, "messages").items| ==> ValidMessage(Arg(a, "messages").items[i])
  }

  /** `pineconeAssistant.chat`: `POST https://api.pinecone.io/chat/<encoded name>` with the messages. */
  function Chat(cfg: Config, a: Args, net: Net): (r: Result<Run, ArgsError>)
    ensures r.Ok? <==> ValidChat(a)
    ensures r.Ok? ==> r.value == Exchange("assistant.chat", "POST",
      BASE_API + "/chat/" + Uri.EncodeComponent(Arg(a, "assistant_name").s), KeyFor(cfg, a),
      Some(map["messages" := Arr(NormalizeMessages(Arg(a, "messages").items))]), net)
  {
    if !ValidChat(a) then Err(InvalidArgument(if !Arg(a, "messages").Arr? then "messages" else "args"))
    else Ok(Exchange("assistant.chat", "POST",
      BASE_API + "/chat/" + Uri.EncodeComponent(Arg(a, "assistant_name").s), KeyFor(cfg, a),
      Some(map["messages" := Arr(NormalizeMessages(Arg(a, "messages").items))]), net))
  }

  /** Every message sent to the assistant carries one of the three roles and string content. */
  lemma ChatSendsRoles(cfg: Config, a: Args, net: Net)
    requires Chat(cfg, a, net).Ok? && Chat(cfg, a, net).value.calls != []
    ensures var body := Chat(cfg, a, net).value.calls[0].body.value;
      && body["messages"].Arr? && |body["messages"].items| >= 1
      && forall i :: 0 <= i < |body["messages"].items| ==>
        var m := body["messages"].items[i];
        m.Obj? && m.fields["role"].Str? && m.fields["role"].s in ROLES && m.fields["content"].Str?
  {
  }

  // ---- All tools ----

  /** The outcome of any Pinecone tool on accepted arguments. */
  function Dispatch(cfg: Config, tool: string, a: Args, net: Net): Option<Result<Run, ArgsError>> {
    if tool == "pinecone.upsert" then Some(Upsert(cfg, a, net))
    else if tool == "pinecone.query" then Some(Query(cfg, a, net))
    else if tool == "pinecone.describeIndex" then Some(DescribeIndex(cfg, a, net))
    else if tool == "pineconeAssistant.chat" then Some(Chat(cfg, a, net))
    else None
  }

  /**
   * The key rule for one tool's result: at most one call, none when no key
   * resolves, and the call made carries the resolved key.
   */
  predicate KeyDiscipline(cfg: Config, a: Args, r: Result<Run, ArgsError>) {
    r.Ok? ==>
      && OptString(a, "api_key")
      && |r.value.calls| <= 1
      && (KeyFor(cfg, a) == "" ==> r.value.calls == [] && r.value.outcome.Err?)
      && (r.value.calls != [] ==> r.value.calls[0].apiKey == KeyFor(cfg, a) != "")
  }

  lemma UpsertKey(cfg: Config, a: Args, net: Net)
    ensures KeyDiscipline(cfg, a, Upsert(cfg, a, net))
  {
  }

  lemma QueryKey(cfg: Config, a: Args, net: Net)
    ensures KeyDiscipline(cfg, a, Query(cfg, a, net))
  {
  }

  lemma DescribeIndexKey(cfg: Config, a: Args, net: Net)
    ensures KeyDiscipline(cfg, a, DescribeIndex(cfg, a, net))
  {
  }

  lemma ChatKey(cfg: Config, a: Args, net: Net)
    ensures KeyDiscipline(cfg, a, Chat(cfg, a, net))
  {
  }

  /**
   * No tool reaches the network without an API key, and every call made
   * carries the key it resolved: the argument, else the configured one.
   */
  lemma NoKeyNoCall(cfg: Config, tool: string, a: Args, net: Net)
    ensures Dispatch(cfg, tool, a, net).Some? && Dispatch(cfg, tool, a, net).value.Ok? ==>
      var run := Dispatch(cfg, tool, a, net).value.value;
      && |run.calls| <= 1
      && (KeyFor(cfg, a) == "" ==> run.calls == [] && run.outcome.Err?)
      && (run.calls != [] ==> run.calls[0].apiKey == KeyFor(cfg, a) != "")
  {
    if tool == "pinecone.upsert" {
      UpsertKey(cfg, a, net);
    } else if tool == "pinecone.query" {
      QueryKey(cfg, a, net);
    } else if tool == "pinecone.describeIndex" {
      DescribeIndexKey(cfg, a, net);
    } else if tool == "pineconeAssistant.chat" {
      ChatKey(cfg, a, net);
    }
  }
}
