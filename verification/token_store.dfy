/**
 * The OAuth token store of the MCP hub: one credential record per
 * (provider, subject), written by upsert and read by get. The in-memory
 * backend is the reference; the relational backend is modelled as a table
 * keyed by the pair and shown to agree with it.
 */
module TokenStore {
  import opened Wrappers
  import opened JsValue
  import opened Text

  /** Clock reading at the moment of a write (`new Date()` / `now()`). */
  type Time = nat

  const DEFAULT_SUBJECT: string := "default"

  /** A credential record as the providers write it; `Undefined` marks an absent field. */
  datatype TokenRecord = TokenRecord(
    provider: string,
    subject: string,
    accessToken: Value,
    refreshToken: Value,
    expiresAt: Value,
    scope: Value,
    workspaceId: Value,
    workspaceName: Value,
    botId: Value,
    raw: Value)

  /** A stored record with its write timestamps. */
  datatype Stored = Stored(record: TokenRecord, createdAt: Time, updatedAt: Time)

  /** The in-memory backend: a map keyed by `provider:subject`. */
  type MemoryStore = map<string, Stored>

  /** The in-memory key of a (provider, subject) pair. */
  function Key(provider: string, subject: string): string {
    provider + ":" + subject
  }

  /** The subject a read uses: the given one, or `default` when the argument is omitted. */
  function SubjectOrDefault(subject: Option<string>): string {
    subject.GetOr(DEFAULT_SUBJECT)
  }

  /**
   * `upsertToken(r)`: stores `r` under its key, replacing any earlier record
   * whole; the first write's creation time is kept and the update time is `now`.
   */
  function Upsert(m: MemoryStore, r: TokenRecord, now: Time): (m': MemoryStore)
    ensures Key(r.provider, r.subject) in m'
    ensures m'[Key(r.provider, r.subject)].record == r
    ensures m'[Key(r.provider, r.subject)].updatedAt == now
    ensures Key(r.provider, r.subject) in m ==> m'[Key(r.provider, r.subject)].createdAt == m[Key(r.provider, r.subject)].createdAt
    ensures Key(r.provider, r.subject) !in m ==> m'[Key(r.provider, r.subject)].createdAt == now
    ensures m'.Keys == m.Keys + {Key(r.provider, r.subject)}
    ensures forall k :: k in m && k != Key(r.provider, r.subject) ==> m'[k] == m[k]
  {
    var key := Key(r.provider, r.subject);
    var created := if key in m then m[key].createdAt else now;
    m[key := Stored(r, created, now)]
  }

  /** `getToken(provider, subject = 'default')`: the stored record, or null. */
  function Get(m: MemoryStore, provider: string, subject: Option<string>): (r: Option<Stored>)
    ensures r.Some? <==> Key(provider, SubjectOrDefault(subject)) in m
    ensures r.Some? ==> r.value == m[Key(provider, SubjectOrDefault(subject))]
  {
    var key := Key(provider, SubjectOrDefault(subject));
    if key in m then Some(m[key]) else None
  }

  /** Without `:` in the provider name the key determines the pair. */
  lemma KeyInjective(p1: string, s1: string, p2: string, s2: string)
    requires NoColon(p1) && NoColon(p2)
    requires Key(p1, s1) == Key(p2, s2)
    ensures p1 == p2 && s1 == s2
  {
    ColonJoinInjective(p1, s1, p2, s2);
  }

  /** With `:` allowed in provider names, two different pairs share a key. */
  lemma KeyCollision()
    ensures Key("a:b", "c") == Key("a", "b:c")
  {
  }

  /** A write is read back under its own pair, with the fields written. */
  lemma GetAfterUpsert(m: MemoryStore, r: TokenRecord, now: Time)
    ensures Get(Upsert(m, r, now), r.provider, Some(r.subject)).Some?
    ensures Get(Upsert(m, r, now), r.provider, Some(r.subject)).value.record == r
  {
  }

  /** A write leaves every other colon-free pair's record as it was. */
  lemma UpsertFrames(m: MemoryStore, r: TokenRecord, now: Time, p: string, s: string)
    requires NoColon(p) && NoColon(r.provider)
    requires (p, s) != (r.provider, r.subject)
    ensures Get(Upsert(m, r, now), p, Some(s)) == Get(m, p, Some(s))
  {
    if Key(p, s) == Key(r.provider, r.subject) {
      KeyInjective(p, s, r.provider, r.subject);
    }
  }

  /**
   * Writing the same pair twice leaves one record holding the second write's
   * fields, the first write's creation time and the second write's update time.
   */
  lemma UpsertTwice(m: MemoryStore, r1: TokenRecord, r2: TokenRecord, t1: Time, t2: Time)
    requires r1.provider == r2.provider && r1.subject == r2.subject
    requires Key(r1.provider, r1.subject) !in m
    ensures var m2 := Upsert(Upsert(m, r1, t1), r2, t2);
      && |m2| == |m| + 1
      && m2[Key(r2.provider, r2.subject)] == Stored(r2, t1, t2)
  {
    var m1 := Upsert(m, r1, t1);
    assert m1.Keys == m.Keys + {Key(r1.provider, r1.subject)};
  }

  // ---- Relational backend ----

  /** A row of `oauth_tokens`; every column but the key may be SQL null. */
  datatype Row = Row(
    accessToken: Value,
    refreshToken: Value,
    expiresAt: Value,
    scope: Value,
    workspaceId: Value,
    workspaceName: Value,
    botId: Value,
    raw: Value,
    createdAt: Time,
    updatedAt: Time)

  /** The table, keyed by its primary key `(provider, subject)`. */
  type Table = map<(string, string), Row>

  datatype SqlError = NotNullViolation(column: string)

  /** `x ?? null`: an absent value is written as SQL null. */
  function Nullable(v: Value): (r: Value)
    ensures !r.Undefined?
    ensures !v.Undefined? ==> r == v
  {
    if v.Undefined? then Null else v
  }

  /** The columns a record is written as; `expires_at` only when truthy. */
  function ToRow(r: TokenRecord, created: Time, updated: Time): Row {
    Row(Nullable(r.accessToken), Nullable(r.refreshToken),
        if Truthy(r.expiresAt) then r.expiresAt else Null,
        Nullable(r.scope), Nullable(r.workspaceId), Nullable(r.workspaceName),
        Nullable(r.botId), Nullable(r.raw), created, updated)
  }

  /**
   * `insert … on conflict (provider, subject) do update`: every column is
   * overwritten except `created_at`; `access_token` is `not null`.
   */
  function SqlUpsert(t: Table, r: TokenRecord, now: Time): (res: Result<Table, SqlError>)
    ensures res.Err? <==> (r.accessToken.Undefined? || r.accessToken.Null?)
    ensures res.Ok? ==> res.value.Keys == t.Keys + {(r.provider, r.subject)}
    ensures res.Ok? ==> forall k :: k in t && k != (r.provider, r.subject) ==> res.value[k] == t[k]
    ensures res.Ok? ==>
      var created := if (r.provider, r.subject) in t then t[(r.provider, r.subject)].createdAt else now;
      res.value[(r.provider, r.subject)] == ToRow(r, created, now)
    ensures res.Ok? ==> res.value[(r.provider, r.subject)].updatedAt == now
    ensures res.Ok? && (r.provider, r.subject) in t ==> res.value[(r.provider, r.subject)].createdAt == t[(r.provider, r.subject)].createdAt
  {
    if r.accessToken.Undefined? || r.accessToken.Null? then Err(NotNullViolation("access_token"))
    else
      var key := (r.provider, r.subject);
      var created := if key in t then t[key].createdAt else now;
      Ok(t[key := ToRow(r, created, now)])
  }

  /** `select … where provider = $1 and subject = $2`: the row, or null. */
  function SqlGet(t: Table, provider: string, subject: Option<string>): (r: Option<Row>)
    ensures r.Some? <==> (provider, SubjectOrDefault(subject)) in t
    ensures r.Some? ==> r.value == t[(provider, SubjectOrDefault(subject))]
  {
    var key := (provider, SubjectOrDefault(subject));
    if key in t then Some(t[key]) else None
  }

  /** The two backends hold the same records for every colon-free provider. */
  ghost predicate Agree(m: MemoryStore, t: Table) {
    && (forall p, s :: NoColon(p) ==> (Key(p, s) in m <==> (p, s) in t))
    && (forall p, s :: NoColon(p) && Key(p, s) in m && (p, s) in t ==>
          t[(p, s)] == ToRow(m[Key(p, s)].record, m[Key(p, s)].createdAt, m[Key(p, s)].updatedAt))
  }

  lemma EmptyAgree()
    ensures Agree(map[], map[])
  {
  }

  /**
   * The backends stay in agreement across an upsert of a record with a
   * colon-free provider and an access token, and then answer every read alike.
   */
  lemma UpsertAgree(m: MemoryStore, t: Table, r: TokenRecord, now: Time)
    requires Agree(m, t)
    requires NoColon(r.provider)
    requires !r.accessToken.Undefined? && !r.accessToken.Null?
    ensures SqlUpsert(t, r, now).Ok?
    ensures Agree(Upsert(m, r, now), SqlUpsert(t, r, now).value)
  {
    var m' := Upsert(m, r, now);
    var t' := SqlUpsert(t, r, now).value;
    forall p, s | NoColon(p)
      ensures Key(p, s) in m' <==> (p, s) in t'
      ensures Key(p, s) in m' && (p, s) in t' ==>
        t'[(p, s)] == ToRow(m'[Key(p, s)].record, m'[Key(p, s)].createdAt, m'[Key(p, s)].updatedAt)
    {
      if (p, s) == (r.provider, r.subject) {
        assert Key(r.provider, r.subject) in m <==> (r.provider, r.subject) in t;
      } else if Key(p, s) == Key(r.provider, r.subject) {
        KeyInjective(p, s, r.provider, r.subject);
      }
    }
  }

  /** Agreeing backends answer the same pair with the same record. */
  lemma GetAgree(m: MemoryStore, t: Table, p: string, subject: Option<string>)
    requires Agree(m, t) && NoColon(p)
    ensures Get(m, p, subject).Some? <==> SqlGet(t, p, subject).Some?
    ensures Get(m, p, subject).Some? ==>
      var st := Get(m, p, subject).value;
      SqlGet(t, p, subject).value == ToRow(st.record, st.createdAt, st.updatedAt)
  {
    var s := SubjectOrDefault(subject);
    assert Key(p, s) in m <==> (p, s) in t;
  }
}
