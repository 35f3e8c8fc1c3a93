/** The variant memory service of sub/tools.py. Its profile helpers, embedding
    fallback, record store and payload extraction are those of tools.py; it
    differs in the `$and` filter, in a `DummyIndex` that turns exceptions into
    results, and in a record without the `path` field. */
module SubTools {
  import opened Wrappers
  import opened Text
  import Tools

  type Condition = map<string, Tools.Clause>

  /** The `$and` filter this variant's `load_memories` builds. */
  function AndFilter(userId: string): Tools.Filter {
    Tools.Filter(map[], Some([map["user_id" := map["$eq" := userId]],
                              map["type" := map["$eq" := Tools.RecallType]]]))
  }

  /** The loop over the `$and` conditions: each condition naming `user_id`
      overwrites the user found so far; one without `$eq` raises `KeyError`. */
  function ScanConditions(conds: seq<Condition>, current: string): Result<string, string>
    decreases |conds|
  {
    if conds == [] then Ok(current)
    else if "user_id" in conds[0] then
      if "$eq" in conds[0]["user_id"] then ScanConditions(conds[1..], conds[0]["user_id"]["$eq"])
      else Err(Tools.KeyErrorText("$eq"))
    else ScanConditions(conds[1..], current)
  }

  /** The user a query filter selects: from the `$and` list when present,
      otherwise from a flat `user_id` clause, otherwise "unknown". */
  function FilterUserId(filter: Option<Tools.Filter>): Result<string, string> {
    if filter.Some? && filter.value.conjunction.Some? then
      ScanConditions(filter.value.conjunction.value, "unknown")
    else if filter.Some? && "user_id" in filter.value.fields then
      if "$eq" in filter.value.fields["user_id"] then Ok(filter.value.fields["user_id"]["$eq"])
      else Err(Tools.KeyErrorText("$eq"))
    else Ok("unknown")
  }

  /** Filter round trip: the `$and` filter decodes to the user it was built for,
      and it also requires kind "recall". */
  lemma AndFilterRoundTrip(userId: string)
    ensures FilterUserId(Some(AndFilter(userId))) == Ok(userId)
    ensures map["type" := map["$eq" := Tools.RecallType]] in AndFilter(userId).conjunction.value
  {
    var conds := AndFilter(userId).conjunction.value;
    assert "user_id" in conds[0] && "user_id" !in conds[1..][0];
    assert conds[1..][1..] == [];
    assert ScanConditions(conds, "unknown") == ScanConditions(conds[1..], userId);
    assert ScanConditions(conds[1..], userId) == ScanConditions(conds[1..][1..], userId);
  }

  /** The last condition that names `user_id` decides the user. */
  lemma {:induction false} ScanLastWins(conds: seq<Condition>, current: string, j: nat)
    requires j < |conds| && "user_id" in conds[j]
    requires forall k :: j < k < |conds| ==> "user_id" !in conds[k]
    requires forall k :: 0 <= k <= j && "user_id" in conds[k] ==> "$eq" in conds[k]["user_id"]
    ensures ScanConditions(conds, current) == Ok(conds[j]["user_id"]["$eq"])
    decreases |conds|
  {
    if j == 0 {
      ScanNoUser(conds[1..], conds[0]["user_id"]["$eq"]);
    } else {
      var next := if "user_id" in conds[0] then conds[0]["user_id"]["$eq"] else current;
      ScanLastWins(conds[1..], next, j - 1);
    }
  }

  /** Without any `user_id` condition the user stays what it was. */
  lemma {:induction false} ScanNoUser(conds: seq<Condition>, current: string)
    requires forall k :: 0 <= k < |conds| ==> "user_id" !in conds[k]
    ensures ScanConditions(conds, current) == Ok(current)
    decreases |conds|
  {
    if conds != [] {
      ScanNoUser(conds[1..], current);
    }
  }

  /** A `user_id` condition without `$eq` makes the scan raise. */
  lemma {:induction false} ScanMissingEq(conds: seq<Condition>, current: string, j: nat)
    requires j < |conds| && "user_id" in conds[j] && "$eq" !in conds[j]["user_id"]
    ensures ScanConditions(conds, current) == Err(Tools.KeyErrorText("$eq"))
    decreases |conds|
  {
    if j > 0 && !("user_id" in conds[0] && "$eq" !in conds[0]["user_id"]) {
      var next := if "user_id" in conds[0] then conds[0]["user_id"]["$eq"] else current;
      ScanMissingEq(conds[1..], next, j - 1);
    }
  }

  /** The document this variant's `save_memory` upserts (no `path` field). */
  function MemoryRecord(memory: string, userId: string, stamp: Tools.Stamp, vector: seq<real>): (r: Tools.Record)
    ensures r.id == stamp.id && r.values == vector
    ensures r.metadata.Keys == {"payload", "timestamp", "type", "user_id"}
    ensures r.metadata["payload"] == Tools.Payload(stamp.formatted, memory)
    ensures r.metadata["type"] == Tools.RecallType && r.metadata["user_id"] == userId
    ensures r.metadata["timestamp"] == stamp.timestamp
  {
    Tools.Record(stamp.id, vector, map["payload" := Tools.Payload(stamp.formatted, memory),
                                       "timestamp" := stamp.timestamp,
                                       "type" := Tools.RecallType,
                                       "user_id" := userId])
  }

  /** `{"upserted_count": n}` or `{"upserted_count": 0, "error": e}`. */
  datatype UpsertResponse = UpsertResponse(upsertedCount: nat, error: Option<string>)
  /** `{"matches": [...]}` or `{"matches": [], "error": e}`. */
  datatype QueryResponse = QueryResponse(matches: seq<Tools.Match>, error: Option<string>)

  /** The fallback index of this variant. */
  class DummyIndex {
    var memories: Tools.Store

    constructor ()
      ensures memories == map[]
    {
      memories := map[];
    }

    /** Appends each record's payload to its user's list; an exception is
        returned, not raised, and the records before it stay appended. */
    method Upsert(vectors: seq<Tools.Record>) returns (r: UpsertResponse)
      modifies this
      ensures memories == Tools.AppendAll(old(memories), vectors).store
      ensures Tools.AppendAll(old(memories), vectors).failure.None? ==> r == UpsertResponse(|vectors|, None)
      ensures Tools.AppendAll(old(memories), vectors).failure.Some? ==>
                r == UpsertResponse(0, Tools.AppendAll(old(memories), vectors).failure)
    {
      var i := 0;
      while i < |vectors|
        invariant 0 <= i <= |vectors|
        invariant Tools.AppendAll(old(memories), vectors) == Tools.AppendAll(memories, vectors[i..])
      {
        assert vectors[i..][0] == vectors[i] && vectors[i..][1..] == vectors[i + 1..];
        var metadata := vectors[i].metadata;
        if "user_id" !in metadata {
          return UpsertResponse(0, Some(Tools.KeyErrorText("user_id")));
        }
        var userId := metadata["user_id"];
        if userId !in memories {
          memories := memories[userId := []];
        }
        if "payload" !in metadata {
          return UpsertResponse(0, Some(Tools.KeyErrorText("payload")));
        }
        memories := memories[userId := memories[userId] + [metadata["payload"]]];
        i := i + 1;
      }
      return UpsertResponse(|vectors|, None);
    }

    /** At most `topK` matches, one per payload of the filter's user in
        insertion order; a filter that raises yields no matches and the error. */
    method Query(filter: Option<Tools.Filter>, topK: int) returns (r: QueryResponse)
      ensures FilterUserId(filter).Ok? ==>
                r == QueryResponse(Tools.PayloadMatches(Take(Tools.Lookup(memories, FilterUserId(filter).value), topK)), None)
      ensures FilterUserId(filter).Err? ==> r == QueryResponse([], Some(FilterUserId(filter).error))
    {
      var userId := "unknown";
      if filter.Some? && filter.value.conjunction.Some? {
        var conds := filter.value.conjunction.value;
        var i := 0;
        while i < |conds|
          invariant 0 <= i <= |conds|
          invariant ScanConditions(conds, "unknown") == ScanConditions(conds[i..], userId)
        {
          assert conds[i..][0] == conds[i] && conds[i..][1..] == conds[i + 1..];
          if "user_id" in conds[i] {
            if "$eq" !in conds[i]["user_id"] {
              return QueryResponse([], Some(Tools.KeyErrorText("$eq")));
            }
            userId := conds[i]["user_id"]["$eq"];
          }
          i := i + 1;
        }
      } else if filter.Some? && "user_id" in filter.value.fields {
        if "$eq" !in filter.value.fields["user_id"] {
          return QueryResponse([], Some(Tools.KeyErrorText("$eq")));
        }
        userId := filter.value.fields["user_id"]["$eq"];
      }
      var matches: seq<Tools.Match> := [];
      var own := Tools.Lookup(memories, userId);
      if userId in memories {
        var j := 0;
        while j < |own|
          invariant 0 <= j <= |own|
          invariant |matches| == j
          invariant forall k :: 0 <= k < j ==> matches[k] == Tools.Match(map["payload" := own[k]])
        {
          matches := matches + [Tools.Match(map["payload" := own[j]])];
          j := j + 1;
        }
      }
      assert matches == Tools.PayloadMatches(own);
      Tools.TakePayloadMatches(own, topK);
      return QueryResponse(Take(matches, topK), None);
    }
  }

  /** The module-level index of this variant: the dummy, or Pinecone as an oracle. */
  datatype Backend =
    | Dummy(store: DummyIndex)
    | Pinecone(upsert: (seq<Tools.Record>, string) -> Option<string>,
               query: Tools.QueryRequest -> Tools.QueryAnswer)

  datatype Index = Index(backend: Backend, namespace: string)

  function Footprint(index: Index): set<object> {
    if index.backend.Dummy? then {index.backend.store} else {}
  }

  /** The query this variant's `load_memories` sends. */
  function BuildQuery(prompt: string, userId: string, embed: string -> Tools.EmbedOutcome, namespace: string): (q: Tools.QueryRequest)
    ensures q.vector == Tools.GetEmbeddings(embed, if prompt == "" then Tools.RecentProbe else prompt)
    ensures FilterUserId(Some(q.filter)) == Ok(userId)
    ensures q.filter.conjunction.Some? && map["type" := map["$eq" := Tools.RecallType]] in q.filter.conjunction.value
    ensures q.topK == Tools.MemoryTopK && q.includeMetadata && q.namespace == namespace
  {
    AndFilterRoundTrip(userId);
    Tools.QueryRequest(Tools.GetEmbeddings(embed, if prompt == "" then Tools.RecentProbe else prompt),
                       AndFilter(userId), namespace, true, Tools.MemoryTopK)
  }

  /** `save_memory` of this variant: the dummy index's own error result is
      logged and not reported, so only a raising Pinecone upsert yields an
      error status. */
  method SaveMemory(memory: string, userId: string, index: Index, embed: string -> Tools.EmbedOutcome, stamp: Tools.Stamp)
    returns (status: string)
    modifies Footprint(index)
    ensures index.backend.Dummy? ==>
              status == Tools.SavedStatus &&
              index.backend.store.memories == Tools.SaveOne(old(index.backend.store.memories), userId, memory, stamp)
    ensures index.backend.Pinecone? ==>
              var record := MemoryRecord(memory, userId, stamp, Tools.GetEmbeddings(embed, Tools.Payload(stamp.formatted, memory)));
              var raised := index.backend.upsert([record], index.namespace);
              status == if raised.None? then Tools.SavedStatus else Tools.SaveError(raised.value)
  {
    var payload := Tools.Payload(stamp.formatted, memory);
    var vector := Tools.GetEmbeddings(embed, payload);
    var record := MemoryRecord(memory, userId, stamp, vector);
    match index.backend
    case Dummy(store) =>
      var m := store.memories;
      assert [record][1..] == [];
      var m1 := if userId in m then m else m[userId := []];
      assert m1[userId := m1[userId] + [payload]] == Tools.SaveOne(m, userId, memory, stamp);
      var _ := store.Upsert([record]);
      status := Tools.SavedStatus;
    case Pinecone(upsert, _) =>
      var raised := upsert([record], index.namespace);
      status := if raised.None? then Tools.SavedStatus else Tools.SaveError(raised.value);
  }

  /** `load_memories` of this variant: on the dummy index, the user's first ten
      memories in insertion order; on Pinecone, the payloads of the oracle's
      matches, with failures turned into one error pseudo-memory. */
  method LoadMemories(prompt: string, userId: string, index: Index, embed: string -> Tools.EmbedOutcome)
    returns (memories: seq<string>)
    ensures index.backend.Dummy? ==>
              memories == Take(Tools.Lookup(index.backend.store.memories, userId), Tools.MemoryTopK)
    ensures index.backend.Pinecone? ==>
              memories == Tools.MemoriesOf(index.backend.query(BuildQuery(prompt, userId, embed, index.namespace)))
  {
    var request := BuildQuery(prompt, userId, embed, index.namespace);
    var answer: Tools.QueryAnswer;
    match index.backend {
      case Dummy(store) =>
        var response := store.Query(Some(request.filter), request.topK);
        answer := Tools.Answer(response.matches);
        Tools.MemoriesOfPayloadMatches(Take(Tools.Lookup(store.memories, userId), Tools.MemoryTopK));
      case Pinecone(_, query) =>
        answer := query(request);
    }
    memories := Tools.MemoriesOf(answer);
  }
}
