/**
 * The Notion provider: credential resolution (static token or token store),
 * the one-shot refresh-and-retry around every upstream call, the merge of a
 * refreshed token record, request-body assembly for each tool and the
 * OAuth 2.0 authorization-code routes. Upstream HTTP is an oracle.
 */
module Notion {
  import opened Wrappers
  import opened JsValue
  import opened TokenStore
  import Base64
  import Utf8
  import opened Schema
  import opened Http

  const NAME: string := "notion"

  /** The `NOTION_*` environment settings; an unset variable is the empty string. */
  datatype Config = Config(clientId: string, clientSecret: string, redirectUri: string, staticToken: string)

  // ---- HTTP Basic client authentication ----

  /**
   * `basicAuth(id, secret)`: the `Basic` scheme of section 2 of RFC 7617
   * over the UTF-8 bytes of `id:secret`, Base64-encoded.
   */
  function BasicAuth(id: string, secret: string): (h: string)
    ensures |h| >= 6 && h[..6] == "Basic "
  {
    "Basic " + Base64.Encode(Utf8.Encode(id + ":" + secret))
  }

  /** The credentials are recovered from the header by Base64- and then UTF-8-decoding it. */
  lemma BasicAuthDecodes(id: string, secret: string)
    ensures var h := BasicAuth(id, secret);
      && Base64.Decode(h[6..]).Some?
      && Utf8.Decode(Base64.Decode(h[6..]).value) == Some(id + ":" + secret)
  {
    var b := Utf8.Encode(id + ":" + secret);
    assert BasicAuth(id, secret)[6..] == Base64.Encode(b);
    Base64.DecodeEncode(b);
    Utf8.DecodeEncode(id + ":" + secret);
  }

  // ---- Upstream calls ----

  /** One HTTP request to Notion. */
  datatype Call =
    | Api(token: Value, httpMethod: string, endpoint: string, body: Option<map<string, Value>>)  // `notionFetch`
    | TokenEndpoint(authorization: string, grant: map<string, Value>)                      // POST `oauth/token`

  /** The upstream oracle: the response to the `i`-th call of a run. */
  type Net = (nat, Call) -> Response

  /** Why a tool call fails. */
  datatype Failure =
    | NoToken(subject: string)              // `No Notion token for subject '…'`
    | RefreshFailed(status: int, json: Value)
    | Thrown(error: TypeError)              // property read on a null response body
    | ToolFailed(verb: string, json: Value)  // `<verb> failed: <json>`

  // ---- Credential resolution ----

  /** `subject || 'default'`. */
  function SubjectKey(subject: Option<string>): (s: string)
    ensures s != ""
  {
    if subject.Some? && subject.value != "" then subject.value else DEFAULT_SUBJECT
  }

  /** The token and (outside static mode) the record it came from. */
  datatype Credentials = Credentials(token: Value, rec: Option<Stored>)

  /** `getAccessToken(subject)`. */
  function GetAccessToken(cfg: Config, store: MemoryStore, subject: Option<string>): (r: Result<Credentials, Failure>)
    ensures cfg.staticToken != "" ==> r == Ok(Credentials(Str(cfg.staticToken), None))
    ensures cfg.staticToken == "" ==>
      match Get(store, NAME, Some(SubjectKey(subject)))
      case None => r == Err(NoToken(SubjectKey(subject)))
      case Some(st) => r == Ok(Credentials(st.record.accessToken, Some(st)))
  {
    if cfg.staticToken != "" then Ok(Credentials(Str(cfg.staticToken), None))
    else match Get(store, NAME, Some(SubjectKey(subject)))
      case None => Err(NoToken(SubjectKey(subject)))
      case Some(st) => Ok(Credentials(st.record.accessToken, Some(st)))
  }

  // ---- Refresh ----

  /** The refresh grant of section 6 of RFC 6749, with HTTP Basic client authentication. */
  function RefreshCall(cfg: Config, refreshToken: Value): Call {
    TokenEndpoint(BasicAuth(cfg.clientId, cfg.clientSecret),
      map["grant_type" := Str("refresh_token"), "refresh_token" := refreshToken])
  }

  /** `Array.isArray(s) ? s.join(' ') : …`: an array scope is stored space-separated. */
  function ScopeText(scope: Value, otherwise: Value): Value {
    if scope.Arr? then Str(JoinValues(scope.items, " ")) else otherwise
  }

  /** The record written after a refresh: new values, falling back to the previous record's. */
  function MergeRefreshed(prev: TokenRecord, json: Value): (r: TokenRecord)
    requires json.Obj?
    ensures r.provider == NAME && r.subject == prev.subject
    ensures r.accessToken == OptProp(json, "access_token")
    ensures Truthy(OptProp(json, "refresh_token")) ==> r.refreshToken == OptProp(json, "refresh_token")
    ensures !Truthy(OptProp(json, "refresh_token")) ==> r.refreshToken == prev.refreshToken
    ensures Truthy(OptProp(json, "workspace_id")) ==> r.workspaceId == OptProp(json, "workspace_id")
    ensures !Truthy(OptProp(json, "workspace_id")) ==> r.workspaceId == prev.workspaceId
    ensures Truthy(OptProp(json, "workspace_name")) ==> r.workspaceName == OptProp(json, "workspace_name")
    ensures !Truthy(OptProp(json, "workspace_name")) ==> r.workspaceName == prev.workspaceName
    ensures Truthy(OptProp(json, "bot_id")) ==> r.botId == OptProp(json, "bot_id")
    ensures !Truthy(OptProp(json, "bot_id")) ==> r.botId == prev.botId
    ensures OptProp(json, "scope").Arr? ==> r.scope == Str(JoinValues(OptProp(json, "scope").items, " "))
    ensures !OptProp(json, "scope").Arr? && Truthy(OptProp(json, "scope")) ==> r.scope == OptProp(json, "scope")
    ensures !OptProp(json, "scope").Arr? && !Truthy(OptProp(json, "scope")) && Truthy(prev.scope) ==> r.scope == prev.scope
    ensures !OptProp(json, "scope").Arr? && !Truthy(OptProp(json, "scope")) && !Truthy(prev.scope) ==> r.scope == Null
    ensures r.expiresAt == Undefined && r.raw == json
  {
    TokenRecord(
      NAME, prev.subject,
      OptProp(json, "access_token"),
      Or(OptProp(json, "refresh_token"), prev.refreshToken),
      Undefined,
      ScopeText(OptProp(json, "scope"), Or(Or(OptProp(json, "scope"), prev.scope), Null)),
      Or(OptProp(json, "workspace_id"), prev.workspaceId),
      Or(OptProp(json, "workspace_name"), prev.workspaceName),
      Or(OptProp(json, "bot_id"), prev.botId),
      json)
  }

  /**
   * `refresh(refresh_token, rec)` given the token endpoint's response: a
   * rejection throws and writes nothing; otherwise the merged record is
   * upserted and the new access token returned.
   */
  function Refresh(prev: TokenRecord, resp: Response, store: MemoryStore, now: Time): (r: Result<(Value, MemoryStore), Failure>)
    ensures !resp.ok ==> r == Err(RefreshFailed(resp.status, resp.json))
    ensures resp.ok && (resp.json.Null? || resp.json.Undefined?) ==> r.Err?
    ensures resp.ok && resp.json.Obj? ==>
      r == Ok((OptProp(resp.json, "access_token"), Upsert(store, MergeRefreshed(prev, resp.json), now)))
  {
    if !resp.ok then Err(RefreshFailed(resp.status, resp.json))
    else match Prop(resp.json, "access_token")
      case Err(e) => Err(Thrown(e))
      case Ok(access) =>
        if resp.json.Obj? then Ok((access, Upsert(store, MergeRefreshed(prev, resp.json), now)))
        else
          // a primitive JSON body has no properties: every field reads as undefined
          var rec := TokenRecord(NAME, prev.subject, Undefined, prev.refreshToken, Undefined,
            Or(prev.scope, Null), prev.workspaceId, prev.workspaceName, prev.botId, resp.json);
          Ok((access, Upsert(store, rec, now)))
  }

  // ---- The refresh-and-retry protocol ----

  /** What a tool asks Notion for. */
  datatype ApiRequest = ApiRequest(httpMethod: string, endpoint: string, body: Option<map<string, Value>>)

  function ApiCall(token: Value, req: ApiRequest): Call {
    Api(token, req.httpMethod, req.endpoint, req.body)
  }

  /** A run of one tool handler: its outcome, the calls it made in order, and the token store after it. */
  datatype Run = Run(outcome: Result<Value, Failure>, calls: seq<Call>, store: MemoryStore)

  /** `!r.ok && r.status === 401 && rec?.refresh_token`. */
  predicate ShouldRefresh(first: Response, rec: Option<Stored>) {
    !first.ok && first.status == 401 && rec.Some? && Truthy(rec.value.record.refreshToken)
  }

  /** The outcome a final response gives: its JSON, or `<verb> failed`. */
  function Finish(verb: string, r: Response): (o: Result<Value, Failure>)
    ensures r.ok <==> o.Ok?
  {
    if r.ok then Ok(r.json) else Err(ToolFailed(verb, r.json))
  }

  /** Number of calls to the Notion API (not to the token endpoint). */
  function ApiCount(calls: seq<Call>): nat {
    if calls == [] then 0 else (if calls[0].Api? then 1 else 0) + ApiCount(calls[1..])
  }

  /** Number of calls to the token endpoint. */
  function TokenCount(calls: seq<Call>): nat {
    if calls == [] then 0 else (if calls[0].TokenEndpoint? then 1 else 0) + TokenCount(calls[1..])
  }

  /**
   * The body shared by every Notion tool: resolve credentials, call, and on a
   * 401 with a refresh token on record refresh once and call once more.
   */
  function RunTool(cfg: Config, store: MemoryStore, subject: Option<string>, verb: string, req: ApiRequest, net: Net, now: Time)
    : (run: Run)
    // no credentials: the error comes before any upstream call
    ensures GetAccessToken(cfg, store, subject).Err? ==> run == Run(Err(GetAccessToken(cfg, store, subject).error), [], store)
    ensures GetAccessToken(cfg, store, subject).Ok? ==>
      var cred := GetAccessToken(cfg, store, subject).value;
      var first := net(0, ApiCall(cred.token, req));
      && 1 <= |run.calls| <= 3
      && run.calls[0] == ApiCall(cred.token, req)
      // a refresh happens exactly on a 401 with a refresh token on record
      && (|run.calls| > 1 <==> ShouldRefresh(first, cred.rec))
      && (|run.calls| == 1 ==> run.outcome == Finish(verb, first) && run.store == store)
      && (|run.calls| > 1 ==> run.calls[1] == RefreshCall(cfg, cred.rec.value.record.refreshToken))
      // a failed refresh ends the call and writes nothing
      && (|run.calls| == 2 ==> run.outcome.Err? && run.store == store)
      // a successful refresh is stored and its token used for the single retry
      && (|run.calls| == 3 ==>
            var refreshed := Refresh(cred.rec.value.record, net(1, run.calls[1]), store, now);
            && refreshed.Ok?
            && run.store == refreshed.value.1
            && run.calls[2] == ApiCall(refreshed.value.0, req)
            && run.outcome == Finish(verb, net(2, run.calls[2])))
    ensures ApiCount(run.calls) <= 2 && TokenCount(run.calls) <= 1
    ensures run.outcome.Err? && run.outcome.error.ToolFailed? ==> run.outcome.error.verb == verb
  {
    match GetAccessToken(cfg, store, subject)
    case Err(f) => Run(Err(f), [], store)
    case Ok(cred) =>
      var c1 := ApiCall(cred.token, req);
      var r1 := net(0, c1);
      if ShouldRefresh(r1, cred.rec) then RefreshAndRetry(cfg, store, verb, req, net, now, c1, cred.rec.value.record)
      else Run(Finish(verb, r1), [c1], store)
  }

  /** The refresh branch of `RunTool`, after the first call `first` came back 401. */
  function RefreshAndRetry(cfg: Config, store: MemoryStore, verb: string, req: ApiRequest, net: Net, now: Time, first: Call, rec: TokenRecord)
    : (run: Run)
    requires first.Api?
    ensures 2 <= |run.calls| <= 3
    ensures run.calls[0] == first && run.calls[1] == RefreshCall(cfg, rec.refreshToken)
    ensures |run.calls| == 2 ==> run.outcome.Err? && run.store == store
    ensures |run.calls| == 3 ==>
      var refreshed := Refresh(rec, net(1, run.calls[1]), store, now);
      && refreshed.Ok?
      && run.store == refreshed.value.1
      && run.calls[2] == ApiCall(refreshed.value.0, req)
      && run.outcome == Finish(verb, net(2, run.calls[2]))
    ensures ApiCount(run.calls) <= 2 && TokenCount(run.calls) <= 1
    ensures run.outcome.Err? && run.outcome.error.ToolFailed? ==> run.outcome.error.verb == verb
  {
    var c2 := RefreshCall(cfg, rec.refreshToken);
    match Refresh(rec, net(1, c2), store, now)
    case Err(f) =>
      assert [first, c2][1..] == [c2] && [c2][1..] == [];
      assert ApiCount([c2]) == 0 && TokenCount([c2]) == 1;
      Run(Err(f), [first, c2], store)
    case Ok((nt, store')) =>
      var c3 := ApiCall(nt, req);
      assert [first, c2, c3][1..] == [c2, c3] && [c2, c3][1..] == [c3] && [c3][1..] == [];
      assert ApiCount([c3]) == 1 && ApiCount([c2, c3]) == 1;
      assert TokenCount([c3]) == 0 && TokenCount([c2, c3]) == 1;
      Run(Finish(verb, net(2, c3)), [first, c2, c3], store')
  }

  /**
   * With a static token the store is neither consulted nor written and no
   * refresh is attempted, whatever Notion answers.
   */
  lemma StaticTokenNeverRefreshes(cfg: Config, s1: MemoryStore, s2: MemoryStore, subject: Option<string>, verb: string, req: ApiRequest, net: Net, now: Time)
    requires cfg.staticToken != ""
    ensures RunTool(cfg, s1, subject, verb, req, net, now).calls == [ApiCall(Str(cfg.staticToken), req)]
    ensures RunTool(cfg, s1, subject, verb, req, net, now).store == s1
    ensures RunTool(cfg, s1, subject, verb, req, net, now).outcome == RunTool(cfg, s2, subject, verb, req, net, now).outcome
  {
  }

  /**
   * When Notion always answers 401 and every refresh succeeds, a handler
   * makes exactly two API calls and one refresh, and still fails.
   */
  lemma RetryIsBounded(cfg: Config, store: MemoryStore, subject: Option<string>, verb: string, req: ApiRequest, net: Net, now: Time)
    requires cfg.staticToken == ""
    requires Get(store, NAME, Some(SubjectKey(subject))).Some?
    requires Truthy(Get(store, NAME, Some(SubjectKey(subject))).value.record.refreshToken)
    requires forall i: nat, c: Call :: c.Api? ==> net(i, c) == Response(false, 401, Obj(map[]))
    requires forall i: nat, c: Call :: c.TokenEndpoint? ==> net(i, c) == Response(true, 200, Obj(map["access_token" := Str("fresh")]))
    ensures var run := RunTool(cfg, store, subject, verb, req, net, now);
      && ApiCount(run.calls) == 2 && TokenCount(run.calls) == 1
      && run.outcome == Err(ToolFailed(verb, Obj(map[])))
  {
    var run := RunTool(cfg, store, subject, verb, req, net, now);
    assert |run.calls| == 3;
    assert run.calls[1..][1..][1..] == [];
    assert ApiCount(run.calls[1..][1..]) == 1;
  }

  /** The subject argument, when given. */
  function Subject(a: Args): Option<string> {
    if Arg(a, "subject").Str? then Some(Arg(a, "subject").s) else None
  }

  // ---- The five tools ----

  /** `notion.getSelf`: `GET users/me`. */
  function GetSelf(cfg: Config, store: MemoryStore, a: Args, net: Net, now: Time): (r: Result<Run, ArgsError>)
    ensures r.Ok? <==> OptString(a, "subject")
    ensures r.Ok? ==> r.value == RunTool(cfg, store, Subject(a), "getSelf", ApiRequest("GET", "users/me", None), net, now)
  {
    if !OptString(a, "subject") then Err(InvalidArgument("subject"))
    else Ok(RunTool(cfg, store, Subject(a), "getSelf", ApiRequest("GET", "users/me", None), net, now))
  }

  /** The `search` body: query and page size always, the optional fields only when truthy. */
  function SearchBody(a: Args): (body: map<string, Value>)
    ensures "query" in body && body["query"] == Arg(a, "query")
    ensures "page_size" in body && body["page_size"] == Arg(a, "page_size")
    ensures ("filter" in body <==> Truthy(Arg(a, "filter"))) && ("sort" in body <==> Truthy(Arg(a, "sort")))
    ensures "start_cursor" in body <==> Truthy(Arg(a, "start_cursor"))
    ensures body.Keys <= {"query", "page_size", "filter", "sort", "start_cursor"}
    ensures forall k :: k in body ==> body[k] == Arg(a, k)
  {
    var b0 := map["query" := Arg(a, "query")];
    var b1 := b0["page_size" := Arg(a, "page_size")];
    var b2 := IfTruthy(b1, "filter", Arg(a, "filter"));
    var b3 := IfTruthy(b2, "sort", Arg(a, "sort"));
    IfTruthy(b3, "start_cursor", Arg(a, "start_cursor"))
  }

  /** `notion.search`: `query` defaults to `''` and `page_size` to 25. */
  function Search(cfg: Config, store: MemoryStore, raw: Args, net: Net, now: Time): (r: Result<Run, ArgsError>)
    ensures var a := Defaulted(Defaulted(raw, "query", Str("")), "page_size", Num(25));
      r.Ok? <==> OptString(a, "subject") && Arg(a, "query").Str? && IntInRange(Arg(a, "page_size"), 1, 100) && OptString(a, "start_cursor")
    ensures r.Ok? ==>
      var a := Defaulted(Defaulted(raw, "query", Str("")), "page_size", Num(25));
      r.value == RunTool(cfg, store, Subject(a), "search", ApiRequest("POST", "search", Some(SearchBody(a))), net, now)
  {
    var a := Defaulted(Defaulted(raw, "query", Str("")), "page_size", Num(25));
    if !OptString(a, "subject") then Err(InvalidArgument("subject"))
    else if !Arg(a, "query").Str? then Err(InvalidArgument("query"))
    else if !IntInRange(Arg(a, "page_size"), 1, 100) then Err(InvalidArgument("page_size"))
    else if !OptString(a, "start_cursor") then Err(InvalidArgument("start_cursor"))
    else Ok(RunTool(cfg, store, Subject(a), "search", ApiRequest("POST", "search", Some(SearchBody(a))), net, now))
  }

  /** `notion.fetchPage`: `GET pages/<page_id>`. */
  function FetchPage(cfg: Config, store: MemoryStore, a: Args, net: Net, now: Time): (r: Result<Run, ArgsError>)
    ensures r.Ok? <==> OptString(a, "subject") && Arg(a, "page_id").Str?
    ensures r.Ok? ==> r.value == RunTool(cfg, store, Subject(a), "fetchPage",
      ApiRequest("GET", "pages/" + Arg(a, "page_id").s, None), net, now)
  {
    if !OptString(a, "subject") then Err(InvalidArgument("subject"))
    else if !Arg(a, "page_id").Str? then Err(InvalidArgument("page_id"))
    else Ok(RunTool(cfg, store, Subject(a), "fetchPage", ApiRequest("GET", "pages/" + Arg(a, "page_id").s, None), net, now))
  }

  /** The `queryDatabase` body: page size always, the optional fields only when truthy. */
  function QueryBody(a: Args): (body: map<string, Value>)
    ensures body.Keys <= {"page_size", "filter", "sorts", "start_cursor"}
    ensures "page_size" in body
    ensures forall k :: k in {"filter", "sorts", "start_cursor"} ==> (k in body <==> Truthy(Arg(a, k)))
    ensures forall k :: k in body ==> body[k] == Arg(a, k)
  {
    var b := map["page_size" := Arg(a, "page_size")];
    IfTruthy(IfTruthy(IfTruthy(b, "filter", Arg(a, "filter")), "sorts", Arg(a, "sorts")), "start_cursor", Arg(a, "start_cursor"))
  }

  /** `notion.queryDatabase`: `POST databases/<database_id>/query`, `page_size` defaulting to 25. */
  function QueryDatabase(cfg: Config, store: MemoryStore, raw: Args, net: Net, now: Time): (r: Result<Run, ArgsError>)
    ensures var a := Defaulted(raw, "page_size", Num(25));
      r.Ok? <==> OptString(a, "subject") && Arg(a, "database_id").Str? && IntInRange(Arg(a, "page_size"), 1, 100) && OptString(a, "start_cursor")
    ensures r.Ok? ==>
      var a := Defaulted(raw, "page_size", Num(25));
      r.value == RunTool(cfg, store, Subject(a), "queryDatabase",
        ApiRequest("POST", "databases/" + Arg(a, "database_id").s + "/query", Some(QueryBody(a))), net, now)
  {
    var a := Defaulted(raw, "page_size", Num(25));
    if !OptString(a, "subject") then Err(InvalidArgument("subject"))
    else if !Arg(a, "database_id").Str? then Err(InvalidArgument("database_id"))
    else if !IntInRange(Arg(a, "page_size"), 1, 100) then Err(InvalidArgument("page_size"))
    else if !OptString(a, "start_cursor") then Err(InvalidArgument("start_cursor"))
    else Ok(RunTool(cfg, store, Subject(a), "queryDatabase",
      ApiRequest("POST", "databases/" + Arg(a, "database_id").s + "/query", Some(QueryBody(a))), net, now))
  }

  /** The `createPage` body: parent and properties, children only when truthy. */
  function CreatePageBody(a: Args): (body: map<string, Value>)
    ensures body.Keys == {"parent", "properties"} + (if Truthy(Arg(a, "children")) then {"children"} else {})
    ensures forall k :: k in body ==> body[k] == Arg(a, k)
  {
    IfTruthy(map["parent" := Arg(a, "parent"), "properties" := Arg(a, "properties")], "children", Arg(a, "children"))
  }

  /** `notion.createPage`: `POST pages`; `properties` must be an object, `children` an array when given. */
  function CreatePage(cfg: Config, store: MemoryStore, a: Args, net: Net, now: Time): (r: Result<Run, ArgsError>)
    ensures r.Ok? <==> OptString(a, "subject") && Arg(a, "properties").Obj? && (Arg(a, "children").Undefined? || Arg(a, "children").Arr?)
    ensures r.Ok? ==> r.value == RunTool(cfg, store, Subject(a), "createPage", ApiRequest("POST", "pages", Some(CreatePageBody(a))), net, now)
  {
    if !OptString(a, "subject") then Err(InvalidArgument("subject"))
    else if !Arg(a, "properties").Obj? then Err(InvalidArgument("properties"))
    else if !(Arg(a, "children").Undefined? || Arg(a, "children").Arr?) then Err(InvalidArgument("children"))
    else Ok(RunTool(cfg, store, Subject(a), "createPage", ApiRequest("POST", "pages", Some(CreatePageBody(a))), net, now))
  }

  // ---- OAuth routes ----

  /** The reply of `GET /auth/notion`. */
  datatype StartReply =
    | StaticMode                                  // 200: OAuth not required
    | NotConfigured                               // 400: set NOTION_CLIENT_ID and NOTION_REDIRECT_URI
    | RedirectToConsent(base: string, params: seq<(string, string)>)

  /** Notion's consent page. */
  const AUTHORIZE_URL: string := "https://api.notion.com/v1/oauth/authorize"

  /** `searchParams.get(k)`: the value of the first parameter named `k`. */
  function QueryGet(params: seq<(string, string)>, k: string): (v: Option<string>)
    ensures v.Some? ==> (k, v.value) in params
    ensures v.None? ==> forall i :: 0 <= i < |params| ==> params[i].0 != k
  {
    if params == [] then None
    else if params[0].0 == k then Some(params[0].1)
    else QueryGet(params[1..], k)
  }

  /**
   * `GET /auth/notion`, with `state` the random value it generates. Once
   * configured, it redirects to the consent page with exactly five
   * parameters: the client id, `response_type=code`, `owner=user`, the
   * redirect URI and the state.
   */
  function AuthStart(cfg: Config, state: string): (r: StartReply)
    ensures cfg.staticToken != "" ==> r == StaticMode
    ensures cfg.staticToken == "" && (cfg.clientId == "" || cfg.redirectUri == "") ==> r == NotConfigured
    ensures r.RedirectToConsent? <==> cfg.staticToken == "" && cfg.clientId != "" && cfg.redirectUri != ""
    ensures r.RedirectToConsent? ==>
      && r.base == AUTHORIZE_URL
      && |r.params| == 5
      && QueryGet(r.params, "client_id") == Some(cfg.clientId)
      && QueryGet(r.params, "response_type") == Some("code")
      && QueryGet(r.params, "owner") == Some("user")
      && QueryGet(r.params, "redirect_uri") == Some(cfg.redirectUri)
      && QueryGet(r.params, "state") == Some(state)
  {
    if cfg.staticToken != "" then StaticMode
    else if cfg.clientId == "" || cfg.redirectUri == "" then NotConfigured
    else
      var ps := [("client_id", cfg.clientId), ("response_type", "code"), ("owner", "user"),
                 ("redirect_uri", cfg.redirectUri), ("state", state)];
      ConsentLookups(ps);
      RedirectToConsent(AUTHORIZE_URL, ps)
  }

  /** Each later parameter is found past the earlier ones, whose names differ from it. */
  lemma ConsentLookups(ps: seq<(string, string)>)
    requires |ps| == 5
    requires ps[0].0 == "client_id" && ps[1].0 == "response_type" && ps[2].0 == "owner"
    requires ps[3].0 == "redirect_uri" && ps[4].0 == "state"
    ensures QueryGet(ps, "client_id") == Some(ps[0].1)
    ensures QueryGet(ps, "response_type") == Some(ps[1].1)
    ensures QueryGet(ps, "owner") == Some(ps[2].1)
    ensures QueryGet(ps, "redirect_uri") == Some(ps[3].1)
    ensures QueryGet(ps, "state") == Some(ps[4].1)
  {
    assert ps[1..][1..] == ps[2..] && ps[2..][1..] == ps[3..] && ps[3..][1..] == ps[4..];
    assert QueryGet(ps[4..], "state") == Some(ps[4].1);
    assert QueryGet(ps[3..], "redirect_uri") == Some(ps[3].1);
  }

  /** The reply of `GET /oauth/notion/callback`. */
  datatype CallbackReply =
    | Authorized                                  // 200
    | MissingCode                                 // 400
    | ExchangeFailed(status: int, json: Value)    // 500: token exchange failed
    | CallbackThrew(error: TypeError)             // 500: property read on a null body

  function CallbackStatus(r: CallbackReply): int {
    match r
    case Authorized => 200
    case MissingCode => 400
    case _ => 500
  }

  /** The authorization-code grant request of section 4.1.3 of RFC 6749. */
  function CodeExchangeCall(cfg: Config, code: string): Call {
    TokenEndpoint(BasicAuth(cfg.clientId, cfg.clientSecret),
      map["grant_type" := Str("authorization_code"), "code" := Str(code), "redirect_uri" := Str(cfg.redirectUri)])
  }

  /** `json.workspace_id || 'default'`, as the key string the store uses. */
  function CallbackSubject(json: Value): string {
    if Truthy(OptProp(json, "workspace_id")) then ToJsString(OptProp(json, "workspace_id")) else DEFAULT_SUBJECT
  }

  /** The record the callback stores: the token response as it came, keyed by its workspace. */
  function AuthorizedRecord(json: Value): (r: TokenRecord)
    ensures r.provider == NAME && r.subject == CallbackSubject(json)
    ensures r.accessToken == OptProp(json, "access_token") && r.refreshToken == OptProp(json, "refresh_token")
    ensures r.raw == json
  {
    var scope := OptProp(json, "scope");
    TokenRecord(NAME, CallbackSubject(json),
      OptProp(json, "access_token"), OptProp(json, "refresh_token"), Undefined,
      ScopeText(scope, Or(scope, Null)),
      OptProp(json, "workspace_id"), OptProp(json, "workspace_name"), OptProp(json, "bot_id"), json)
  }

  /**
   * `GET /oauth/notion/callback?code=…`: exchanges the code and stores the
   * resulting record; returns the reply, the calls made and the new store.
   * A rejected exchange is a 500 that stores nothing.
   */
  function Callback(cfg: Config, store: MemoryStore, code: Value, net: Net, now: Time)
    : (res: (CallbackReply, seq<Call>, MemoryStore))
    ensures ParamString(code) == "" ==> res == (MissingCode, [], store)
    ensures ParamString(code) != "" ==> res.1 == [CodeExchangeCall(cfg, ParamString(code))]
    ensures res.0 != Authorized ==> res.2 == store
    ensures ParamString(code) != "" ==>
      var answer := net(0, CodeExchangeCall(cfg, ParamString(code)));
      && (!answer.ok ==> res.0 == ExchangeFailed(answer.status, answer.json) && CallbackStatus(res.0) == 500)
      && (answer.ok && (answer.json.Null? || answer.json.Undefined?) ==> res.0.CallbackThrew? && CallbackStatus(res.0) == 500)
      && (answer.ok && !answer.json.Null? && !answer.json.Undefined? ==>
            res.0 == Authorized && res.2 == Upsert(store, AuthorizedRecord(answer.json), now))
  {
    var c := ParamString(code);
    if c == "" then (MissingCode, [], store)
    else
      var call := CodeExchangeCall(cfg, c);
      var r := net(0, call);
      if !r.ok then (ExchangeFailed(r.status, r.json), [call], store)
      else if r.json.Null? || r.json.Undefined? then (CallbackThrew(CannotReadProperty("workspace_id")), [call], store)
      else (Authorized, [call], Upsert(store, AuthorizedRecord(r.json), now))
  }

  /** After a successful callback the record can be read back under its workspace. */
  lemma CallbackThenGet(cfg: Config, store: MemoryStore, code: Value, net: Net, now: Time)
    requires Callback(cfg, store, code, net, now).0 == Authorized
    ensures var json := net(0, CodeExchangeCall(cfg, ParamString(code))).json;
      var got := Get(Callback(cfg, store, code, net, now).2, NAME, Some(CallbackSubject(json)));
      got.Some? && got.value.record == AuthorizedRecord(json)
  {
  }
}
