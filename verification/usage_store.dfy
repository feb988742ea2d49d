/**
 * The usage recorder of the MCP hub: an append-only log of tool calls and
 * the aggregate counts `stats()` reads back from it.
 */
module UsageStore {
  import opened JsValue
  import opened Text

  /** One logged call; optional fields hold `Undefined` when the caller left them out. */
  datatype UsageRecord = UsageRecord(
    provider: string,
    toolName: string,
    subject: Value,
    success: Value,
    latencyMs: Value,
    errorMessage: Value)

  type Log = seq<UsageRecord>

  /** `log(rec)`: the record is pushed at the end; nothing earlier changes. */
  function Append(log: Log, r: UsageRecord): (log': Log)
    ensures |log'| == |log| + 1
    ensures log'[..|log|] == log
    ensures log'[|log|] == r
  {
    log + [r]
  }

  /** The two groupings `stats()` reports. */
  datatype Grouping = ByProvider | ByTool

  /** The key of a record under a grouping: the provider, or `provider:tool_name`. */
  function GroupKey(g: Grouping, r: UsageRecord): string {
    match g
    case ByProvider => r.provider
    case ByTool => r.provider + ":" + r.toolName
  }

  /** Number of records whose key under `g` is `k`. */
  function Count(log: Log, g: Grouping, k: string): (n: nat)
    ensures n <= |log|
  {
    if log == [] then 0
    else Count(log[..|log| - 1], g, k) + (if GroupKey(g, log[|log| - 1]) == k then 1 else 0)
  }

  /** Number of records with provider `p` and tool name `t`. */
  function CountPair(log: Log, p: string, t: string): (n: nat)
    ensures n <= |log|
  {
    if log == [] then 0
    else
      var last := log[|log| - 1];
      CountPair(log[..|log| - 1], p, t) + (if last.provider == p && last.toolName == t then 1 else 0)
  }

  datatype Stats = Stats(total: nat, byProvider: map<string, nat>, byTool: map<string, nat>)

  /** A count map holds exactly the keys that occur, each with its number of records. */
  ghost predicate Tallies(m: map<string, nat>, log: Log, g: Grouping) {
    && (forall k :: k in m <==> Count(log, g, k) > 0)
    && (forall k :: k in m ==> m[k] == Count(log, g, k))
  }

  /** `stats()`: the total and the two count maps, read without changing the log. */
  method ComputeStats(log: Log) returns (s: Stats)
    ensures s.total == |log|
    ensures Tallies(s.byProvider, log, ByProvider)
    ensures Tallies(s.byTool, log, ByTool)
  {
    var byProvider: map<string, nat> := map[];
    var byTool: map<string, nat> := map[];
    var i := 0;
    while i < |log|
      invariant 0 <= i <= |log|
      invariant Tallies(byProvider, log[..i], ByProvider)
      invariant Tallies(byTool, log[..i], ByTool)
    {
      var r := log[i];
      assert log[..i + 1] == log[..i] + [r];
      TallyStep(byProvider, log[..i], ByProvider, r);
      TallyStep(byTool, log[..i], ByTool, r);
      byProvider := Bump(byProvider, GroupKey(ByProvider, r));
      byTool := Bump(byTool, GroupKey(ByTool, r));
      i := i + 1;
    }
    assert log[..|log|] == log;
    s := Stats(|log|, byProvider, byTool);
  }

  /** `counts[k] = (counts[k] || 0) + 1`. */
  function Bump(m: map<string, nat>, k: string): map<string, nat> {
    m[k := (if k in m then m[k] else 0) + 1]
  }

  /** Counting one more record keeps a tally exact. */
  lemma TallyStep(m: map<string, nat>, log: Log, g: Grouping, r: UsageRecord)
    requires Tallies(m, log, g)
    ensures Tallies(Bump(m, GroupKey(g, r)), log + [r], g)
  {
    forall k ensures Count(log + [r], g, k) == Count(log, g, k) + (if GroupKey(g, r) == k then 1 else 0) {
      CountAfterAppend(log, r, g, k);
    }
  }

  /** Logging one record adds one to exactly the counts of its own keys. */
  lemma CountAfterAppend(log: Log, r: UsageRecord, g: Grouping, k: string)
    ensures Count(Append(log, r), g, k) == Count(log, g, k) + (if GroupKey(g, r) == k then 1 else 0)
  {
    assert Append(log, r)[..|log|] == log;
  }

  /**
   * With colon-free provider names, the `provider:tool_name` count is the
   * number of records for that provider and tool.
   */
  lemma {:induction false} ByToolCountsPairs(log: Log, p: string, t: string)
    requires forall i :: 0 <= i < |log| ==> NoColon(log[i].provider)
    requires NoColon(p)
    ensures Count(log, ByTool, p + ":" + t) == CountPair(log, p, t)
  {
    if log != [] {
      var r := log[|log| - 1];
      ByToolCountsPairs(log[..|log| - 1], p, t);
      if r.provider + ":" + r.toolName == p + ":" + t {
        ColonJoinInjective(r.provider, r.toolName, p, t);
      }
    }
  }

  // ---- Sums of count maps ----

  /** Sum of the values of a count map. */
  ghost function MapSum(m: map<string, nat>): nat
    decreases |m|
  {
    if m == map[] then 0
    else
      var k :| k in m;
      m[k] + MapSum(m - {k})
  }

  /** The sum does not depend on which key is taken out first. */
  lemma {:induction false} MapSumRemove(m: map<string, nat>, k: string)
    requires k in m
    ensures MapSum(m) == m[k] + MapSum(m - {k})
    decreases |m|
  {
    var j :| j in m && MapSum(m) == m[j] + MapSum(m - {j});
    if j != k {
      MapSumRemove(m - {j}, k);
      MapSumRemove(m - {k}, j);
      assert (m - {j}) - {k} == (m - {k}) - {j};
    }
  }

  /** A tally of a log, whatever the grouping, sums to the log's length. */
  lemma {:induction false} TallySum(m: map<string, nat>, log: Log, g: Grouping)
    requires Tallies(m, log, g)
    ensures MapSum(m) == |log|
    decreases |log|
  {
    if log != [] {
      var init := log[..|log| - 1];
      var key := GroupKey(g, log[|log| - 1]);
      assert key in m;
      var m' := if m[key] == 1 then m - {key} else m[key := m[key] - 1];
      forall k ensures k in m' <==> Count(init, g, k) > 0 {
      }
      TallySum(m', init, g);
      MapSumRemove(m, key);
      if m[key] != 1 {
        MapSumRemove(m', key);
        assert m' - {key} == m - {key};
      }
    }
  }

  /** `byProvider` and `byTool` each sum to `total`. */
  method StatsSums(log: Log) returns (s: Stats)
    ensures s.total == |log|
    ensures MapSum(s.byProvider) == s.total && MapSum(s.byTool) == s.total
  {
    s := ComputeStats(log);
    TallySum(s.byProvider, log, ByProvider);
    TallySum(s.byTool, log, ByTool);
  }

  // ---- Relational backend ----

  /** A row of `tool_usage`: `success` is a boolean, optional columns may be SQL null. */
  datatype Row = Row(provider: string, toolName: string, subject: Value, success: bool, latencyMs: Value, errorMessage: Value)

  /** `[rec.provider, rec.tool_name, rec.subject ?? null, !!rec.success, …]`. */
  function ToRow(r: UsageRecord): (row: Row)
    ensures row.provider == r.provider && row.toolName == r.toolName
    ensures row.success <==> Truthy(r.success)
    ensures !row.subject.Undefined? && !row.latencyMs.Undefined? && !row.errorMessage.Undefined?
    ensures r.subject.Undefined? || r.subject.Null? ==> row.subject == Null
    ensures !r.subject.Undefined? ==> row.subject == r.subject
    ensures r.latencyMs.Undefined? || r.latencyMs.Null? ==> row.latencyMs == Null
    ensures !r.latencyMs.Undefined? ==> row.latencyMs == r.latencyMs
    ensures r.errorMessage.Undefined? || r.errorMessage.Null? ==> row.errorMessage == Null
    ensures !r.errorMessage.Undefined? ==> row.errorMessage == r.errorMessage
  {
    Row(r.provider, r.toolName,
        if r.subject.Undefined? then Null else r.subject,
        Truthy(r.success),
        if r.latencyMs.Undefined? then Null else r.latencyMs,
        if r.errorMessage.Undefined? then Null else r.errorMessage)
  }
}
