/** The memory service of tools.py: user profiles, the embedding fallback, the
    in-process `DummyIndex` and `save_memory` / `load_memories` over either that
    index or the real Pinecone index, which is an oracle here. */
module Tools {
  import opened Wrappers
  import opened Text

  const ProfilesDir := "user_profiles"
  /** Length of the zero vector used when the embedding call fails. */
  const EmbeddingSize := 1536
  const RecallType := "recall"
  const SavedStatus := "Memory saved successfully"
  /** Probe that `load_memories` embeds for an empty prompt. */
  const RecentProbe := "recent memories"
  /** `top_k` of every `load_memories` query. */
  const MemoryTopK := 10

  /** Python's `str(KeyError(key))`. */
  function KeyErrorText(key: string): string { "'" + key + "'" }

  // ---------------------------------------------------------------- profiles

  datatype LanguageEntry = LanguageEntry(language: string, level: string, timestamp: string)
  datatype LessonEntry = LessonEntry(language: string, level: string, mode: Option<string>,
                                     score: Option<string>, summary: string, timestamp: string)
  /** `None` fields are JSON nulls. */
  datatype LastSession = LastSession(language: Option<string>, level: Option<string>, mode: Option<string>)
  /** A profile document; `lessonHistory == None` means the key is absent. */
  datatype Profile = Profile(userId: string, createdAt: string, languageHistory: seq<LanguageEntry>,
                             lastSession: LastSession, lessonHistory: Option<seq<LessonEntry>>)

  /** `os.path.join("user_profiles", user_id + ".json")` with POSIX rules: a
      component that begins with '/' replaces everything before it. */
  function ProfilePath(userId: string): (path: string)
    ensures |path| >= 5 && path[|path| - 5..] == ".json"
    ensures |userId| > 0 && userId[0] == '/' ==> path == userId + ".json"
    ensures !(|userId| > 0 && userId[0] == '/') ==> path == ProfilesDir + "/" + userId + ".json"
  {
    var file := userId + ".json";
    if file[0] == '/' then file else ProfilesDir + "/" + file
  }

  /** Distinct user ids give distinct path strings. */
  lemma ProfilePathInjective(u: string, v: string)
    requires ProfilePath(u) == ProfilePath(v)
    ensures u == v
  {
    var pu, pv := ProfilePath(u), ProfilePath(v);
    var absU, absV := |u| > 0 && u[0] == '/', |v| > 0 && v[0] == '/';
    if absU {
      assert u == pu[..|pu| - 5];
      assert v == pv[..|pv| - 5];
    } else {
      assert u == pu[14..|pu| - 5];
      assert v == pv[14..|pv| - 5];
    }
  }

  /** The profile created for a user without a readable profile file. */
  function NewProfile(userId: string, createdAt: string): (p: Profile)
    ensures p.userId == userId && p.createdAt == createdAt
    ensures p.languageHistory == [] && p.lessonHistory == None
    ensures p.lastSession == LastSession(None, None, None)
  {
    Profile(userId, createdAt, [], LastSession(None, None, None), None)
  }

  /** What the profile file holds: nothing, something `json.load` rejects, or a profile. */
  datatype StoredProfile = Missing | Corrupt | Parsed(profile: Profile)

  /** `load_user_profile`: the stored profile when it parses, otherwise a new one. */
  function LoadUserProfile(stored: StoredProfile, userId: string, now: string): (p: Profile)
    ensures stored.Parsed? ==> p == stored.profile
    ensures !stored.Parsed? ==> p.userId == userId && p.languageHistory == [] &&
                                p.lastSession == LastSession(None, None, None) && p.lessonHistory == None &&
                                p.createdAt == now
  {
    if stored.Parsed? then stored.profile else NewProfile(userId, now)
  }

  // ---------------------------------------------------------------- embeddings

  /** What the embedding service answers for one text. */
  datatype EmbedOutcome = Embedding(values: seq<real>) | EmbedFailure(message: string)

  /** `get_embeddings`: the service's vector, or 1536 zeros when the call fails. */
  function GetEmbeddings(embed: string -> EmbedOutcome, text: string): (v: seq<real>)
    ensures embed(text).Embedding? ==> v == embed(text).values
    ensures embed(text).EmbedFailure? ==> |v| == EmbeddingSize && forall i :: 0 <= i < |v| ==> v[i] == 0.0
  {
    match embed(text)
    case Embedding(values) => values
    case EmbedFailure(_) => seq(EmbeddingSize, _ => 0.0)
  }

  // ---------------------------------------------------------------- records and the store

  type Metadata = map<string, string>
  /** One vector document: `{"id", "values", "metadata"}`. */
  datatype Record = Record(id: string, values: seq<real>, metadata: Metadata)
  /** The clock and the fresh id one `save_memory` call draws. `formatted` is the
      `%Y-%m-%d %H:%M:%S UTC` rendering and `timestamp` is `str(current_time)`. */
  datatype Stamp = Stamp(formatted: string, timestamp: string, id: string)

  /** The timestamped text that is stored and later retrieved. */
  function Payload(formatted: string, memory: string): string { "[" + formatted + "] " + memory }

  function MemoryPath(userId: string, id: string): string { "user/" + userId + "/recall/" + id }

  /** The document `save_memory` upserts. */
  function MemoryRecord(memory: string, userId: string, stamp: Stamp, vector: seq<real>): (r: Record)
    ensures r.id == stamp.id && r.values == vector
    ensures r.metadata.Keys == {"payload", "path", "timestamp", "type", "user_id"}
    ensures r.metadata["payload"] == Payload(stamp.formatted, memory)
    ensures r.metadata["path"] == MemoryPath(userId, stamp.id)
    ensures r.metadata["type"] == RecallType && r.metadata["user_id"] == userId
    ensures r.metadata["timestamp"] == stamp.timestamp
  {
    Record(stamp.id, vector, map["payload" := Payload(stamp.formatted, memory),
                                 "path" := MemoryPath(userId, stamp.id),
                                 "timestamp" := stamp.timestamp,
                                 "type" := RecallType,
                                 "user_id" := userId])
  }

  /** `DummyIndex.memories`: user id to that user's payloads in insertion order. */
  type Store = map<string, seq<string>>

  /** A user's list; an absent user reads as the empty list. */
  function Lookup(m: Store, u: string): seq<string> { if u in m then m[u] else [] }

  predicate WellFormed(r: Record) { "user_id" in r.metadata && "payload" in r.metadata }

  /** The store after an upsert loop, and the `KeyError` that stopped it, if any. */
  datatype Appended = Appended(store: Store, failure: Option<string>)

  /** One iteration of the upsert loop. A record with a user id but no payload
      still creates its user's empty list before the lookup of `payload` fails. */
  function AppendOne(m: Store, r: Record): Appended {
    if "user_id" !in r.metadata then Appended(m, Some(KeyErrorText("user_id")))
    else
      var u := r.metadata["user_id"];
      var m1 := if u in m then m else m[u := []];
      if "payload" !in r.metadata then Appended(m1, Some(KeyErrorText("payload")))
      else Appended(m1[u := m1[u] + [r.metadata["payload"]]], None)
  }

  /** The whole upsert loop, stopping at the first record that raises. */
  function AppendAll(m: Store, rs: seq<Record>): Appended
    decreases |rs|
  {
    if rs == [] then Appended(m, None)
    else
      var a := AppendOne(m, rs[0]);
      if a.failure.Some? then a else AppendAll(a.store, rs[1..])
  }

  /** How many leading records are processed before one raises. */
  function GoodPrefix(rs: seq<Record>): (k: nat)
    ensures k <= |rs| && (forall i :: 0 <= i < k ==> WellFormed(rs[i]))
    ensures k < |rs| ==> !WellFormed(rs[k])
  {
    if rs == [] || !WellFormed(rs[0]) then 0 else 1 + GoodPrefix(rs[1..])
  }

  /** Independent reference: the payloads of the records tagged with user `u`, in order. */
  function PayloadsFor(rs: seq<Record>, u: string): seq<string>
    requires forall i :: 0 <= i < |rs| ==> WellFormed(rs[i])
  {
    if rs == [] then []
    else
      assert WellFormed(rs[0]);
      (if rs[0].metadata["user_id"] == u then [rs[0].metadata["payload"]] else []) + PayloadsFor(rs[1..], u)
  }

  /** The upsert loop appends, to each user's list, the payloads of that user's
      records that come before the first malformed one, in input order. */
  lemma {:induction false} AppendAllSpec(m: Store, rs: seq<Record>, u: string)
    ensures Lookup(AppendAll(m, rs).store, u) == Lookup(m, u) + PayloadsFor(rs[..GoodPrefix(rs)], u)
    decreases |rs|
  {
    if rs == [] {
    } else if WellFormed(rs[0]) {
      var a := AppendOne(m, rs[0]);
      var head := if rs[0].metadata["user_id"] == u then [rs[0].metadata["payload"]] else [];
      AppendOneWellFormed(m, rs[0], u);
      assert AppendAll(m, rs) == AppendAll(a.store, rs[1..]);
      AppendAllSpec(a.store, rs[1..], u);
      GoodPayloadsStep(rs, u);
      var tail := PayloadsFor(rs[1..][..GoodPrefix(rs[1..])], u);
      assert (Lookup(m, u) + head) + tail == Lookup(m, u) + (head + tail);
    } else {
      assert rs[..GoodPrefix(rs)] == [];
    }
  }

  /** The good prefix of records that starts well-formed is its first record
      followed by the good prefix of the rest. */
  lemma GoodPayloadsStep(rs: seq<Record>, u: string)
    requires rs != [] && WellFormed(rs[0])
    ensures PayloadsFor(rs[..GoodPrefix(rs)], u) ==
            (if rs[0].metadata["user_id"] == u then [rs[0].metadata["payload"]] else []) +
            PayloadsFor(rs[1..][..GoodPrefix(rs[1..])], u)
  {
    var good := rs[..GoodPrefix(rs)];
    assert good[1..] == rs[1..][..GoodPrefix(rs[1..])];
    assert good[0] == rs[0];
  }

  /** The upsert loop fails exactly when some record is malformed, with the
      `KeyError` of the first such record. */
  lemma {:induction false} AppendAllFailure(m: Store, rs: seq<Record>)
    ensures AppendAll(m, rs).failure.None? <==> GoodPrefix(rs) == |rs|
    ensures GoodPrefix(rs) < |rs| ==>
              AppendAll(m, rs).failure ==
              Some(KeyErrorText(if "user_id" in rs[GoodPrefix(rs)].metadata then "payload" else "user_id"))
    decreases |rs|
  {
    if rs != [] && WellFormed(rs[0]) {
      AppendOneWellFormed(m, rs[0], "");
      AppendAllFailure(AppendOne(m, rs[0]).store, rs[1..]);
    }
  }

  /** A well-formed record raises nothing and extends its own user's list only. */
  lemma AppendOneWellFormed(m: Store, r: Record, u: string)
    requires WellFormed(r)
    ensures AppendOne(m, r).failure.None?
    ensures Lookup(AppendOne(m, r).store, u) ==
            Lookup(m, u) + (if r.metadata["user_id"] == u then [r.metadata["payload"]] else [])
  {
  }

  /** Isolation: a user's list after an upsert holds only what it held before
      and payloads of records tagged with that user. */
  lemma UpsertIsolation(m: Store, rs: seq<Record>, u: string, x: string)
    requires x in Lookup(AppendAll(m, rs).store, u)
    ensures x in Lookup(m, u) ||
            exists i :: 0 <= i < |rs| && WellFormed(rs[i]) && rs[i].metadata["user_id"] == u &&
                        rs[i].metadata["payload"] == x
  {
    AppendAllSpec(m, rs, u);
    var good := rs[..GoodPrefix(rs)];
    if x !in Lookup(m, u) {
      assert x in PayloadsFor(good, u);
      var i := PayloadsForSource(good, u, x);
      assert rs[i] == good[i];
    }
  }

  /** Every payload reported for `u` comes from a record of `u`. */
  lemma {:induction false} PayloadsForSource(rs: seq<Record>, u: string, x: string) returns (i: nat)
    requires forall j :: 0 <= j < |rs| ==> WellFormed(rs[j])
    requires x in PayloadsFor(rs, u)
    ensures i < |rs| && rs[i].metadata["user_id"] == u && rs[i].metadata["payload"] == x
    decreases |rs|
  {
    if rs[0].metadata["user_id"] == u && rs[0].metadata["payload"] == x {
      i := 0;
    } else {
      var j := PayloadsForSource(rs[1..], u, x);
      i := j + 1;
    }
  }

  // ---------------------------------------------------------------- filters, matches, queries

  /** `{"$eq": value}` and the like. */
  type Clause = map<string, string>

  /** A metadata filter: its field clauses, and the list under `"$and"` when that key is present. */
  datatype Filter = Filter(fields: map<string, Clause>, conjunction: Option<seq<map<string, Clause>>>)

  /** The filter `load_memories` builds: `user_id` and `type` equal to "recall". */
  function FlatFilter(userId: string): Filter {
    Filter(map["user_id" := map["$eq" := userId], "type" := map["$eq" := RecallType]], None)
  }

  /** `filter.get("user_id", {}).get("$eq", "unknown")`. */
  function FlatUserId(f: Filter): string {
    if "user_id" in f.fields && "$eq" in f.fields["user_id"] then f.fields["user_id"]["$eq"] else "unknown"
  }

  /** The filter of `load_memories` decodes back to its user and also requires kind "recall". */
  lemma FlatFilterRoundTrip(u: string)
    ensures FlatUserId(FlatFilter(u)) == u
    ensures FlatFilter(u).fields["type"] == map["$eq" := RecallType]
  {
  }

  /** A query match: only its metadata is read. */
  datatype Match = Match(metadata: Metadata)

  /** The dummy index's match for each stored payload. */
  function PayloadMatches(xs: seq<string>): (r: seq<Match>)
    ensures |r| == |xs| && forall i :: 0 <= i < |xs| ==> r[i] == Match(map["payload" := xs[i]])
  {
    if xs == [] then [] else [Match(map["payload" := xs[0]])] + PayloadMatches(xs[1..])
  }

  lemma TakePayloadMatches(xs: seq<string>, k: int)
    ensures Take(PayloadMatches(xs), k) == PayloadMatches(Take(xs, k))
  {
  }

  datatype QueryRequest = QueryRequest(vector: seq<real>, filter: Filter, namespace: string,
                                       includeMetadata: bool, topK: int)
  /** What an index answers: its matches, or the text of the exception it raised. */
  datatype QueryAnswer = Answer(matches: seq<Match>) | QueryFailure(message: string)

  /** The query `load_memories` sends: the prompt (or "recent memories" for an
      empty prompt) embedded, the user/recall filter and `top_k` 10. */
  function BuildQuery(prompt: string, userId: string, embed: string -> EmbedOutcome, namespace: string): (q: QueryRequest)
    ensures q.vector == GetEmbeddings(embed, if prompt == "" then RecentProbe else prompt)
    ensures FlatUserId(q.filter) == userId
    ensures "type" in q.filter.fields && q.filter.fields["type"] == map["$eq" := RecallType]
    ensures q.topK == MemoryTopK && q.includeMetadata && q.namespace == namespace
  {
    QueryRequest(GetEmbeddings(embed, if prompt == "" then RecentProbe else prompt),
                 FlatFilter(userId), namespace, true, MemoryTopK)
  }

  function LoadError(message: string): string { "Error loading memories: " + message }

  predicate HasPayloads(ms: seq<Match>) { forall i :: 0 <= i < |ms| ==> "payload" in ms[i].metadata }

  /** Turns an answer into `load_memories`' result: the payloads in match order;
      a failed query or a match without a payload becomes one error pseudo-memory. */
  function MemoriesOf(answer: QueryAnswer): (r: seq<string>)
    ensures answer.QueryFailure? ==> r == [LoadError(answer.message)]
    ensures answer.Answer? && !HasPayloads(answer.matches) ==> r == [LoadError(KeyErrorText("payload"))]
    ensures answer.Answer? && HasPayloads(answer.matches) ==>
              |r| == |answer.matches| && forall i :: 0 <= i < |r| ==> r[i] == answer.matches[i].metadata["payload"]
  {
    match answer
    case QueryFailure(message) => [LoadError(message)]
    case Answer(ms) =>
      if HasPayloads(ms) then seq(|ms|, i requires 0 <= i < |ms| => ms[i].metadata["payload"])
      else [LoadError(KeyErrorText("payload"))]
  }

  lemma MemoriesOfPayloadMatches(xs: seq<string>)
    ensures MemoriesOf(Answer(PayloadMatches(xs))) == xs
  {
  }

  // ---------------------------------------------------------------- the in-process index

  /** The fallback index when Pinecone cannot be reached. */
  class DummyIndex {
    var memories: Store

    constructor ()
      ensures memories == map[]
    {
      memories := map[];
    }

    /** Appends each record's payload to its user's list; a `KeyError` escapes
        as `Err` and leaves the records before it appended. */
    method Upsert(vectors: seq<Record>) returns (r: Result<nat, string>)
      modifies this
      ensures memories == AppendAll(old(memories), vectors).store
      ensures AppendAll(old(memories), vectors).failure.None? ==> r == Ok(|vectors|)
      ensures AppendAll(old(memories), vectors).failure.Some? ==> r == Err(AppendAll(old(memories), vectors).failure.value)
    {
      var i := 0;
      while i < |vectors|
        invariant 0 <= i <= |vectors|
        invariant AppendAll(old(memories), vectors) == AppendAll(memories, vectors[i..])
      {
        assert vectors[i..][0] == vectors[i] && vectors[i..][1..] == vectors[i + 1..];
        var metadata := vectors[i].metadata;
        if "user_id" !in metadata {
          return Err(KeyErrorText("user_id"));
        }
        var userId := metadata["user_id"];
        if userId !in memories {
          memories := memories[userId := []];
        }
        if "payload" !in metadata {
          return Err(KeyErrorText("payload"));
        }
        memories := memories[userId := memories[userId] + [metadata["payload"]]];
        i := i + 1;
      }
      return Ok(|vectors|);
    }

    /** The first `topK` payloads of the filter's user, in insertion order; no
        matches for a user without a list. */
    function Query(filter: Filter, topK: int): (r: seq<Match>)
      reads this
      ensures var own := Lookup(memories, FlatUserId(filter));
              r == PayloadMatches(Take(own, topK)) && |r| <= |own|
      ensures FlatUserId(filter) !in memories ==> r == []
    {
      var userId := FlatUserId(filter);
      if userId in memories then
        TakePayloadMatches(memories[userId], topK);
        Take(PayloadMatches(memories[userId]), topK)
      else []
    }
  }

  // ---------------------------------------------------------------- the module-level index

  /** Which index the module ended up with: the dummy, or Pinecone, whose upsert
      answers the exception it raised (if any) and whose query answers by oracle. */
  datatype Backend =
    | Dummy(store: DummyIndex)
    | Pinecone(upsert: (seq<Record>, string) -> Option<string>, query: QueryRequest -> QueryAnswer)

  /** The index together with the configured `PINECONE_NAMESPACE` (or "default"). */
  datatype Index = Index(backend: Backend, namespace: string)

  /** The objects a save may change. */
  function Footprint(index: Index): set<object> {
    if index.backend.Dummy? then {index.backend.store} else {}
  }

  /** The effect of one successful save on the dummy store. */
  function SaveOne(m: Store, userId: string, memory: string, stamp: Stamp): Store {
    m[userId := Lookup(m, userId) + [Payload(stamp.formatted, memory)]]
  }

  /** An upsert of one well-formed record appends its payload and nothing else. */
  lemma AppendMemoryRecord(m: Store, memory: string, userId: string, stamp: Stamp, vector: seq<real>)
    ensures AppendAll(m, [MemoryRecord(memory, userId, stamp, vector)]) ==
            Appended(SaveOne(m, userId, memory, stamp), None)
  {
    var r := MemoryRecord(memory, userId, stamp, vector);
    assert [r][1..] == [];
    var m1 := if userId in m then m else m[userId := []];
    assert m1[userId := m1[userId] + [Payload(stamp.formatted, memory)]] == SaveOne(m, userId, memory, stamp);
  }

  function SaveError(message: string): string { "Error saving memory: " + message }

  /** `save_memory`: stores `"[time] memory"` under the user with kind "recall"
      and a fresh id, and reports a status instead of raising. */
  method SaveMemory(memory: string, userId: string, index: Index, embed: string -> EmbedOutcome, stamp: Stamp)
    returns (status: string)
    modifies Footprint(index)
    ensures index.backend.Dummy? ==>
              status == SavedStatus &&
              index.backend.store.memories == SaveOne(old(index.backend.store.memories), userId, memory, stamp)
    ensures index.backend.Pinecone? ==>
              var record := MemoryRecord(memory, userId, stamp, GetEmbeddings(embed, Payload(stamp.formatted, memory)));
              var raised := index.backend.upsert([record], index.namespace);
              status == if raised.None? then SavedStatus else SaveError(raised.value)
  {
    var payload := Payload(stamp.formatted, memory);
    var vector := GetEmbeddings(embed, payload);
    var record := MemoryRecord(memory, userId, stamp, vector);
    match index.backend
    case Dummy(store) =>
      AppendMemoryRecord(store.memories, memory, userId, stamp, vector);
      var result := store.Upsert([record]);
      match result {
        case Ok(_) => status := SavedStatus;
        case Err(e) => status := SaveError(e);
      }
    case Pinecone(upsert, _) =>
      var raised := upsert([record], index.namespace);
      status := if raised.None? then SavedStatus else SaveError(raised.value);
  }

  /** `load_memories`: on the dummy index, the user's first ten memories in
      insertion order; on Pinecone, the payloads of the oracle's matches, with
      failures turned into one error pseudo-memory. */
  function LoadMemories(prompt: string, userId: string, index: Index, embed: string -> EmbedOutcome): (r: seq<string>)
    reads Footprint(index)
    ensures index.backend.Dummy? ==> r == Take(Lookup(index.backend.store.memories, userId), MemoryTopK)
    ensures index.backend.Pinecone? ==>
              r == MemoriesOf(index.backend.query(BuildQuery(prompt, userId, embed, index.namespace)))
  {
    var request := BuildQuery(prompt, userId, embed, index.namespace);
    match index.backend
    case Dummy(store) =>
      var own := Take(Lookup(store.memories, userId), request.topK);
      MemoriesOfPayloadMatches(own);
      MemoriesOf(Answer(store.Query(request.filter, request.topK)))
    case Pinecone(_, query) => MemoriesOf(query(request))
  }

  /** Round trip on the dummy index: a memory saved for a user who holds fewer
      than ten is among the ones loaded next; with ten or more, loading returns
      exactly the first ten and never the newly saved one's position. */
  lemma SaveThenLoad(m: Store, userId: string, memory: string, stamp: Stamp)
    ensures |Lookup(m, userId)| < MemoryTopK ==>
              Payload(stamp.formatted, memory) in Take(Lookup(SaveOne(m, userId, memory, stamp), userId), MemoryTopK)
    ensures |Lookup(m, userId)| >= MemoryTopK ==>
              Take(Lookup(SaveOne(m, userId, memory, stamp), userId), MemoryTopK) == Lookup(m, userId)[..MemoryTopK]
  {
    var after := Lookup(SaveOne(m, userId, memory, stamp), userId);
    assert after == Lookup(m, userId) + [Payload(stamp.formatted, memory)];
    if |Lookup(m, userId)| < MemoryTopK {
      assert after[|after| - 1] == Payload(stamp.formatted, memory);
    } else {
      assert after[..MemoryTopK] == Lookup(m, userId)[..MemoryTopK];
    }
  }

  /** Saving for one user leaves every other user's memories as they were. */
  lemma SaveIsolation(m: Store, userId: string, memory: string, stamp: Stamp, other: string)
    requires other != userId
    ensures Lookup(SaveOne(m, userId, memory, stamp), other) == Lookup(m, other)
  {
  }
}
