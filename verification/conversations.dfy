/**
 * The in-memory conversation store: conversations keyed by id, each a list
 * of messages; appends keep only well-formed messages, reduced to their
 * role and text. The random id is a parameter.
 */
module Conversations {
  import opened JsValue

  type Store = map<string, seq<Value>>

  const ROLES: set<string> := {"system", "user", "assistant"}

  /** `createConversation(seed)` under the generated `id`: an array seed is copied, anything else starts empty. */
  function Create(store: Store, id: string, seed: Value): (s: Store)
    ensures id in s && s[id] == (if seed.Arr? then seed.items else [])
    ensures forall k :: k != id ==> (k in s <==> k in store) && (k in s ==> s[k] == store[k])
  {
    store[id := if seed.Arr? then seed.items else []]
  }

  /** `m && roles.includes(m.role) && typeof m.text === 'string'`. */
  predicate Acceptable(m: Value) {
    Truthy(m) && OptProp(m, "role").Str? && OptProp(m, "role").s in ROLES && OptProp(m, "text").Str?
  }

  /** The stored form of an accepted message: `{ role, text }` and nothing else. */
  function Reduce(m: Value): (r: Value)
    requires Acceptable(m)
    ensures r.Obj? && r.fields.Keys == {"role", "text"}
    ensures r.fields["role"] == OptProp(m, "role") && r.fields["text"] == OptProp(m, "text")
  {
    Obj(map["role" := OptProp(m, "role"), "text" := OptProp(m, "text")])
  }

  /** What an append keeps of `msgs`, in order. */
  function Accepted(msgs: seq<Value>): seq<Value> {
    if msgs == [] then []
    else (if Acceptable(msgs[0]) then [Reduce(msgs[0])] else []) + Accepted(msgs[1..])
  }

  /** A message as the store holds it after an append. */
  predicate WellFormed(m: Value) {
    m.Obj? && m.fields.Keys == {"role", "text"}
    && m.fields["role"].Str? && m.fields["role"].s in ROLES && m.fields["text"].Str?
  }

  /** `append(id, ...msgs)`: an unknown id is ignored. */
  function Append(store: Store, id: string, msgs: seq<Value>): (s: Store)
    ensures id !in store ==> s == store
    ensures id in store ==> s == store[id := store[id] + Accepted(msgs)]
  {
    if id !in store then store else store[id := store[id] + Accepted(msgs)]
  }

  /** `snapshot(id)`: the conversation, or an empty list for an unknown id. */
  function Snapshot(store: Store, id: string): (r: seq<Value>)
    ensures id in store ==> r == store[id]
    ensures id !in store ==> r == []
  {
    if id in store then store[id] else []
  }

  /** Accepted messages are exactly the acceptable inputs, reduced. */
  lemma {:induction false} AcceptedSpec(msgs: seq<Value>)
    ensures |Accepted(msgs)| <= |msgs|
    ensures forall i :: 0 <= i < |Accepted(msgs)| ==> WellFormed(Accepted(msgs)[i])
    ensures forall i :: 0 <= i < |msgs| && Acceptable(msgs[i]) ==> Reduce(msgs[i]) in Accepted(msgs)
    ensures forall x :: x in Accepted(msgs) ==> exists i :: 0 <= i < |msgs| && Acceptable(msgs[i]) && x == Reduce(msgs[i])
  {
    if msgs != [] {
      AcceptedSpec(msgs[1..]);
      var head := if Acceptable(msgs[0]) then [Reduce(msgs[0])] else [];
      assert Accepted(msgs) == head + Accepted(msgs[1..]);
      forall i | 0 <= i < |msgs| && Acceptable(msgs[i]) ensures Reduce(msgs[i]) in Accepted(msgs) {
        if i > 0 {
          assert msgs[1..][i - 1] == msgs[i];
        }
      }
      forall x | x in Accepted(msgs) ensures exists i :: 0 <= i < |msgs| && Acceptable(msgs[i]) && x == Reduce(msgs[i]) {
        if x in head {
          assert Acceptable(msgs[0]) && x == Reduce(msgs[0]);
        } else {
          var j :| 0 <= j < |msgs[1..]| && Acceptable(msgs[1..][j]) && x == Reduce(msgs[1..][j]);
          assert msgs[j + 1] == msgs[1..][j];
        }
      }
    }
  }

  /** Appending in two calls is appending once with both lists. */
  lemma {:induction false} AcceptedConcat(a: seq<Value>, b: seq<Value>)
    ensures Accepted(a + b) == Accepted(a) + Accepted(b)
  {
    if a != [] {
      assert (a + b)[1..] == a[1..] + b;
      AcceptedConcat(a[1..], b);
    } else {
      assert a + b == b;
    }
  }

  lemma AppendTwice(store: Store, id: string, a: seq<Value>, b: seq<Value>)
    ensures Append(Append(store, id, a), id, b) == Append(store, id, a + b)
  {
    AcceptedConcat(a, b);
    if id in store {
      assert store[id] + Accepted(a) + Accepted(b) == store[id] + Accepted(a + b);
    }
  }

  /** Messages already in stored form pass the filter unchanged. */
  lemma {:induction false} AcceptedWellFormed(msgs: seq<Value>)
    requires forall i :: 0 <= i < |msgs| ==> WellFormed(msgs[i])
    ensures Accepted(msgs) == msgs
  {
    if msgs != [] {
      var m := msgs[0];
      assert Acceptable(m) && OptProp(m, "role") == m.fields["role"] && OptProp(m, "text") == m.fields["text"];
      assert Reduce(m).fields == m.fields;
      AcceptedWellFormed(msgs[1..]);
      assert [m] + msgs[1..] == msgs;
    }
  }

  /** Accepting is idempotent. */
  lemma AcceptedIdempotent(msgs: seq<Value>)
    ensures Accepted(Accepted(msgs)) == Accepted(msgs)
  {
    AcceptedSpec(msgs);
    AcceptedWellFormed(Accepted(msgs));
  }

  /** A conversation created from well-formed messages only ever holds well-formed messages. */
  lemma StaysWellFormed(store: Store, id: string, msgs: seq<Value>)
    requires id in store && forall i :: 0 <= i < |store[id]| ==> WellFormed(store[id][i])
    ensures forall i :: 0 <= i < |Snapshot(Append(store, id, msgs), id)| ==> WellFormed(Snapshot(Append(store, id, msgs), id)[i])
  {
    AcceptedSpec(msgs);
    var s := Snapshot(Append(store, id, msgs), id);
    forall i | 0 <= i < |s| ensures WellFormed(s[i]) {
      if i >= |store[id]| {
        assert s[i] == Accepted(msgs)[i - |store[id]|];
      }
    }
  }

  /** An append touches one conversation only. */
  lemma AppendFrames(store: Store, id: string, other: string, msgs: seq<Value>)
    requires other != id
    ensures Snapshot(Append(store, id, msgs), other) == Snapshot(store, other)
  {
  }
}
