/** The three memory tools the model may call, and the argument checking that
    precedes every call. Each tool resolves the caller from its configuration,
    catches every failure and turns it into a fixed status (or an empty list):
    no tool raises. */
module MemoryTools {
  import opened Common
  import opened Schema
  import opened PyStrings
  import opened Stores
  import opened Utils

  const RecallSaved := "Memory saved successfully"
  const RecallFailed := "Failed to save memory"
  const CoreStored := "Core memory stored successfully"
  const CoreFailed := "Failed to store core memory"
  /** The default of `search_memory`'s `top_k`. */
  const DefaultTopK := 5

  /** The registered tools, by the name the model uses to call them. */
  datatype Tool = SaveRecallMemoryTool | SearchMemoryTool | StoreCoreMemoryTool {
    function Name(): string {
      match this
      case SaveRecallMemoryTool => "save_recall_memory"
      case SearchMemoryTool => "search_memory"
      case StoreCoreMemoryTool => "store_core_memory"
    }
  }

  /** The validated arguments of one call. */
  datatype ToolInput =
    | SaveInput(memory: string, timestamp: Option<string>)
    | SearchInput(query: string, topK: int)
    | StoreInput(memory: string, index: Option<int>)
  {
    function Tool(): Tool {
      match this
      case SaveInput(_, _) => SaveRecallMemoryTool
      case SearchInput(_, _) => SearchMemoryTool
      case StoreInput(_, _) => StoreCoreMemoryTool
    }
  }

  function ArgError(key: string): string
  {
    "invalid argument " + key
  }

  /** A required `str` argument. */
  function RequiredStr(args: map<string, Value>, key: string): (r: Result<string>)
    ensures r.Ok? <==> key in args && args[key].Str?
  {
    if key in args && args[key].Str? then Ok(args[key].s) else Err(ArgError(key))
  }

  /** An `Optional[str]` argument: absent or null reads as `None`. */
  function OptionalStr(args: map<string, Value>, key: string): (r: Result<Option<string>>)
    ensures r.Err? <==> key in args && !args[key].Str? && !args[key].Null?
  {
    if key !in args || args[key].Null? then Ok(None)
    else if args[key].Str? then Ok(Some(args[key].s))
    else Err(ArgError(key))
  }

  /** An `int` argument with a default. */
  function IntOr(args: map<string, Value>, key: string, default: int): (r: Result<int>)
    ensures r.Err? <==> key in args && !args[key].Int?
  {
    if key !in args then Ok(default)
    else if args[key].Int? then Ok(args[key].i)
    else Err(ArgError(key))
  }

  /** An `Optional[int]` argument: absent or null reads as `None`. */
  function OptionalInt(args: map<string, Value>, key: string): (r: Result<Option<int>>)
    ensures r.Err? <==> key in args && !args[key].Int? && !args[key].Null?
  {
    if key !in args || args[key].Null? then Ok(None)
    else if args[key].Int? then Ok(Some(args[key].i))
    else Err(ArgError(key))
  }

  /** The bound input holds exactly the call's argument values; an optional
      argument that is absent or `null` is `None`, an absent `top_k` is 5. */
  predicate Carries(input: ToolInput, args: map<string, Value>)
  {
    match input
    case SaveInput(memory, timestamp) =>
      && "memory" in args && args["memory"] == Str(memory)
      && (if timestamp.Some? then "timestamp" in args && args["timestamp"] == Str(timestamp.value)
          else "timestamp" !in args || args["timestamp"] == Null)
    case SearchInput(query, topK) =>
      && "query" in args && args["query"] == Str(query)
      && (if "top_k" in args then args["top_k"] == Int(topK) else topK == DefaultTopK)
    case StoreInput(memory, index) =>
      && "memory" in args && args["memory"] == Str(memory)
      && (if index.Some? then "index" in args && args["index"] == Int(index.value)
          else "index" !in args || args["index"] == Null)
  }

  /** Checks a call's arguments against the tool's signature (the injected
      `config` parameter is not an argument). A mismatch raises before the
      tool body runs; well-typed arguments bind to exactly their values. */
  function BindArgs(tool: Tool, args: map<string, Value>): (r: Result<ToolInput>)
    ensures r.Ok? ==> r.value.Tool() == tool && Carries(r.value, args)
    ensures forall input: ToolInput :: input.Tool() == tool && Carries(input, args) ==> r == Ok(input)
    ensures tool != SearchMemoryTool ==> (RequiredStr(args, "memory").Err? ==> r.Err?)
    ensures tool == SearchMemoryTool ==> (RequiredStr(args, "query").Err? ==> r.Err?)
    ensures r.Ok? && tool == SearchMemoryTool && "top_k" !in args ==> r.value.topK == DefaultTopK
  {
    match tool
    case SaveRecallMemoryTool =>
      (match (RequiredStr(args, "memory"), OptionalStr(args, "timestamp"))
       case (Ok(memory), Ok(timestamp)) => Ok(SaveInput(memory, timestamp))
       case (Err(e), _) => Err(e)
       case (_, Err(e)) => Err(e))
    case SearchMemoryTool =>
      (match (RequiredStr(args, "query"), IntOr(args, "top_k", DefaultTopK))
       case (Ok(query), Ok(topK)) => Ok(SearchInput(query, topK))
       case (Err(e), _) => Err(e)
       case (_, Err(e)) => Err(e))
    case StoreCoreMemoryTool =>
      (match (RequiredStr(args, "memory"), OptionalInt(args, "index"))
       case (Ok(memory), Ok(index)) => Ok(StoreInput(memory, index))
       case (Err(e), _) => Err(e)
       case (_, Err(e)) => Err(e))
  }

  /** Python truthiness of an optional string: `None` and `""` are false. */
  predicate Truthy(s: Option<string>)
  {
    s.Some? && s.value != ""
  }

  /** The document `save_recall_memory` stores: the `timestamp` metadata key is
      present exactly when the given timestamp is truthy, and then verbatim. */
  function NewRecallDocument(memory: string, userId: int, factId: string, timestamp: Option<string>): (doc: RecallDoc)
    ensures doc.content == memory && doc.userId == userId && doc.factId == factId
    ensures doc.timestamp.Some? <==> Truthy(timestamp)
    ensures doc.timestamp.Some? ==> doc.timestamp == timestamp && doc.timestamp.value != ""
  {
    if Truthy(timestamp) then RecallDoc(memory, userId, factId, timestamp)
    else RecallDoc(memory, userId, factId, None)
  }

  /** `save_recall_memory`: stores one document for the configured user with a
      fresh fact id. */
  method SaveRecallMemory(memory: string, config: RunnableConfig, timestamp: Option<string>,
                          store: VectorStore, uuids: UuidSource) returns (status: string)
    modifies store`docs, uuids`issued
    ensures status == RecallSaved <==> "user_id" in ConfigurableOf(config) && store.up
    ensures status != RecallSaved ==> status == RecallFailed && store.docs == old(store.docs)
    ensures status == RecallSaved ==>
              store.docs == old(store.docs) + [NewRecallDocument(memory, ConfigurableOf(config)["user_id"], uuids.ids(old(uuids.issued)), timestamp)]
    ensures uuids.issued == if status == RecallSaved then old(uuids.issued) + 1 else old(uuids.issued)
  {
    var configurable := EnsureConfigurable(config);
    if configurable.Err? || !store.up {
      return RecallFailed;
    }
    var userId := configurable.value["user_id"];
    var factId := uuids.Uuid4();
    var doc := NewRecallDocument(memory, userId, factId, timestamp);
    store.docs := store.docs + [doc];
    status := RecallSaved;
  }

  /** How one recall document is shown to the model. */
  function FormatRecall(doc: RecallDoc): string
  {
    if doc.timestamp.Some? then doc.content + " Timestamp:" + doc.timestamp.value else doc.content
  }

  /** One formatted string per document, in the same order. */
  predicate FormatsAll(memories: seq<string>, docs: seq<RecallDoc>)
  {
    |memories| == |docs| && forall i :: 0 <= i < |docs| ==> memories[i] == FormatRecall(docs[i])
  }

  /** The formatted list of documents. */
  function Formatted(docs: seq<RecallDoc>): (memories: seq<string>)
    ensures FormatsAll(memories, docs)
  {
    seq(|docs|, i requires 0 <= i < |docs| => FormatRecall(docs[i]))
  }

  /** The formatting loop shared by `search_memory` and `load_memories`. */
  method FormatMemories(docs: seq<RecallDoc>) returns (memories: seq<string>)
    ensures FormatsAll(memories, docs)
  {
    memories := [];
    for i := 0 to |docs|
      invariant FormatsAll(memories, docs[..i])
    {
      var doc := docs[i];
      if doc.timestamp.Some? {
        memories := memories + [doc.content + " Timestamp:" + doc.timestamp.value];
      } else {
        memories := memories + [doc.content];
      }
    }
    assert docs[..|docs|] == docs;
  }

  /** A formatted memory starts with the fact's text, and carries the timestamp
      after " Timestamp:" exactly when the document has one. */
  lemma FormatRecallParts(doc: RecallDoc)
    ensures |FormatRecall(doc)| >= |doc.content| && FormatRecall(doc)[..|doc.content|] == doc.content
    ensures doc.timestamp.Some? ==> FormatRecall(doc)[|doc.content|..] == " Timestamp:" + doc.timestamp.value
    ensures doc.timestamp.None? ==> FormatRecall(doc) == doc.content
  {
  }

  /** `search_memory`: the formatted results of a `top_k` search restricted to
      the configured user; `[]` on any failure. */
  method SearchMemory(query: string, config: RunnableConfig, topK: int, store: VectorStore) returns (memories: seq<string>)
    ensures !("user_id" in ConfigurableOf(config) && store.up && topK >= 0) ==> memories == []
    ensures "user_id" in ConfigurableOf(config) && store.up && topK >= 0 ==>
              FormatsAll(memories, SearchDocs(store.docs, store.rank, query, topK, ConfigurableOf(config)["user_id"]))
    ensures |memories| <= if topK < 0 then 0 else topK
  {
    var configurable := EnsureConfigurable(config);
    if configurable.Err? || !store.up || topK < 0 {
      return [];
    }
    var userId := configurable.value["user_id"];
    var results := SearchDocs(store.docs, store.rank, query, topK, userId);
    memories := FormatMemories(results);
  }

  /** The string shows one of the user's stored documents. */
  ghost predicate ShowsOwnDoc(memory: string, docs: seq<RecallDoc>, userId: int)
  {
    exists d :: d in docs && d.userId == userId && memory == FormatRecall(d)
  }

  /** Every string `search_memory` returns shows a document of the caller. */
  lemma SearchIsUserScoped(memories: seq<string>, query: string, topK: nat, userId: int, store: VectorStore)
    requires FormatsAll(memories, SearchDocs(store.docs, store.rank, query, topK, userId))
    ensures forall i :: 0 <= i < |memories| ==> ShowsOwnDoc(memories[i], store.docs, userId)
  {
    var found := SearchDocs(store.docs, store.rank, query, topK, userId);
    forall i | 0 <= i < |memories|
      ensures ShowsOwnDoc(memories[i], store.docs, userId)
    {
      assert found[i] in found;
      assert found[i] in store.docs && found[i].userId == userId && memories[i] == FormatRecall(found[i]);
    }
  }

  /** `0 <= index < len(facts)` for an optional index. */
  predicate InBounds(index: Option<int>, facts: seq<string>)
  {
    index.Some? && 0 <= index.value < |facts|
  }

  /** The stored core-fact row of a user, if any. */
  function CoreRow(rows: map<int, seq<string>>, userId: int): Option<seq<string>>
  {
    if userId in rows then Some(rows[userId]) else None
  }

  /** The core-fact update rule: replace at an in-bounds index, otherwise insert
      at the front; with no row, the list is just the new fact. */
  function CoreFactUpdate(existing: Option<seq<string>>, memory: string, index: Option<int>): (facts: seq<string>)
    ensures existing.None? ==> facts == [memory]
    ensures existing.Some? && InBounds(index, existing.value) ==>
              |facts| == |existing.value| && facts[index.value] == memory &&
              forall j :: 0 <= j < |facts| && j != index.value ==> facts[j] == existing.value[j]
    ensures existing.Some? && !InBounds(index, existing.value) ==>
              |facts| == |existing.value| + 1 && facts[0] == memory && facts[1..] == existing.value
  {
    match existing
    case None => [memory]
    case Some(old_facts) =>
      if InBounds(index, old_facts) then old_facts[index.value := memory] else [memory] + old_facts
  }

  /** `store_core_memory`: read-modify-write of the configured user's fact list. */
  method StoreCoreMemory(memory: string, config: RunnableConfig, index: Option<int>, memories: MemoryTable)
    returns (status: string)
    modifies memories`rows
    ensures status == CoreStored <==> "user_id" in ConfigurableOf(config) && memories.up
    ensures status != CoreStored ==> status == CoreFailed && memories.rows == old(memories.rows)
    ensures status == CoreStored ==>
              var userId := ConfigurableOf(config)["user_id"];
              memories.rows == old(memories.rows)[userId := CoreFactUpdate(CoreRow(old(memories.rows), userId), memory, index)]
  {
    var configurable := EnsureConfigurable(config);
    if configurable.Err? || !memories.up {
      return CoreFailed;
    }
    var userId := configurable.value["user_id"];
    if userId in memories.rows {
      var facts := memories.rows[userId];
      if index.Some? && 0 <= index.value < |facts| {
        facts := facts[index.value := memory];
      } else {
        facts := [memory] + facts;
      }
      memories.rows := memories.rows[userId := facts];
    } else {
      memories.rows := memories.rows[userId := [memory]];
    }
    status := CoreStored;
  }

  /** What `search_memory` returns for a store holding `docs`: the formatted
      results of a `top_k` search restricted to the configured user, or `[]`. */
  function SearchResult(query: string, config: RunnableConfig, topK: int, env: Env, docs: seq<RecallDoc>): (memories: seq<string>)
    ensures |memories| <= if topK < 0 then 0 else topK
  {
    if "user_id" in ConfigurableOf(config) && env.storeUp && topK >= 0 then
      Formatted(SearchDocs(docs, env.rank, query, topK, ConfigurableOf(config)["user_id"]))
    else []
  }

  /** One bound tool call on the collaborators' values: `str(observation)` and
      the state it leaves behind. */
  function RunTool(input: ToolInput, config: RunnableConfig, env: Env, w: World): (string, World)
  {
    var configured := "user_id" in ConfigurableOf(config);
    match input
    case SaveInput(memory, timestamp) =>
      if configured && env.storeUp then
        var doc := NewRecallDocument(memory, ConfigurableOf(config)["user_id"], env.ids(w.issued), timestamp);
        (RecallSaved, w.(docs := w.docs + [doc], issued := w.issued + 1))
      else (RecallFailed, w)
    case SearchInput(query, topK) =>
      (ListRepr(SearchResult(query, config, topK, env, w.docs)), w)
    case StoreInput(memory, index) =>
      if configured && env.coreUp then
        var userId := ConfigurableOf(config)["user_id"];
        (CoreStored, w.(coreRows := w.coreRows[userId := CoreFactUpdate(CoreRow(w.coreRows, userId), memory, index)]))
      else (CoreFailed, w)
  }

  /** `tool.ainvoke(args, config)` on the collaborators' values: the argument
      check, then the tool. */
  function InvokeResult(tool: Tool, args: map<string, Value>, config: RunnableConfig, env: Env, w: World): (Result<string>, World)
  {
    match BindArgs(tool, args)
    case Err(e) => (Err(e), w)
    case Ok(input) =>
      var (text, next) := RunTool(input, config, env, w);
      (Ok(text), next)
  }

  /** Only the argument check raises, and then nothing changes; the save and
      store tools answer with one of their two status texts, the search with a
      list rendering; only the save tool touches the recall store and the uuid
      counter, only the store tool the core rows. */
  lemma InvokeEffects(tool: Tool, args: map<string, Value>, config: RunnableConfig, env: Env, w: World)
    ensures var (r, next) := InvokeResult(tool, args, config, env, w);
            && (r.Err? <==> BindArgs(tool, args).Err?)
            && (r.Err? ==> r.error == BindArgs(tool, args).error && next == w)
            && (r.Ok? && tool == SaveRecallMemoryTool ==> r.value == RecallSaved || r.value == RecallFailed)
            && (r.Ok? && tool == StoreCoreMemoryTool ==> r.value == CoreStored || r.value == CoreFailed)
            && (r.Ok? && tool == SearchMemoryTool ==> |r.value| >= 2 && r.value[0] == '[' && r.value[|r.value| - 1] == ']')
            && (tool != SaveRecallMemoryTool ==> next.docs == w.docs && next.issued == w.issued)
            && (tool != StoreCoreMemoryTool ==> next.coreRows == w.coreRows)
  {
  }

  /** `next` differs from `w` only in the given user's core row and in recall
      documents of that user appended at the end. */
  ghost predicate ScopedTo(w: World, next: World, userId: int)
  {
    && (forall u :: u != userId ==> CoreRow(next.coreRows, u) == CoreRow(w.coreRows, u))
    && |w.docs| <= |next.docs| && next.docs[..|w.docs|] == w.docs
    && (forall i :: |w.docs| <= i < |next.docs| ==> next.docs[i].userId == userId)
  }

  /** Two user-scoped steps make a user-scoped run. */
  lemma ScopedToTrans(w1: World, w2: World, w3: World, userId: int)
    requires ScopedTo(w1, w2, userId) && ScopedTo(w2, w3, userId)
    ensures ScopedTo(w1, w3, userId)
  {
    assert w3.docs[..|w2.docs|][..|w1.docs|] == w3.docs[..|w1.docs|];
    forall i | |w1.docs| <= i < |w3.docs|
      ensures w3.docs[i].userId == userId
    {
      if i < |w2.docs| {
        assert w3.docs[i] == w3.docs[..|w2.docs|][i] == w2.docs[i];
      }
    }
  }

  /** A tool run under a configuration naming a user changes only that user's
      core row and appends only documents of that user. */
  lemma InvokeIsUserScoped(tool: Tool, args: map<string, Value>, config: RunnableConfig, env: Env, w: World)
    requires "user_id" in ConfigurableOf(config)
    ensures ScopedTo(w, InvokeResult(tool, args, config, env, w).1, ConfigurableOf(config)["user_id"])
  {
    var next := InvokeResult(tool, args, config, env, w).1;
    assert next.docs[..|w.docs|] == w.docs;
  }

  /** `tool.ainvoke(args, config)`: checks the arguments, runs the tool and
      returns `str(observation)`. Only the argument check can raise; the tools
      themselves report failures as values. */
  method Invoke(tool: Tool, args: map<string, Value>, config: RunnableConfig,
                memories: MemoryTable, store: VectorStore, uuids: UuidSource) returns (r: Result<string>)
    modifies memories`rows, store`docs, uuids`issued
    ensures (r, WorldOf(memories, store, uuids)) ==
              InvokeResult(tool, args, config, EnvOf(memories, store, uuids), old(WorldOf(memories, store, uuids)))
    ensures r.Err? <==> BindArgs(tool, args).Err?
    ensures r.Err? ==> r.error == BindArgs(tool, args).error
    ensures r.Ok? && tool == SaveRecallMemoryTool ==> r.value == RecallSaved || r.value == RecallFailed
    ensures r.Ok? && tool == StoreCoreMemoryTool ==> r.value == CoreStored || r.value == CoreFailed
    ensures r.Ok? && tool == SearchMemoryTool ==> |r.value| >= 2 && r.value[0] == '[' && r.value[|r.value| - 1] == ']'
    ensures r.Err? || tool != SaveRecallMemoryTool ==> store.docs == old(store.docs)
    ensures r.Err? || tool != StoreCoreMemoryTool ==> memories.rows == old(memories.rows)
  {
    InvokeEffects(tool, args, config, EnvOf(memories, store, uuids), WorldOf(memories, store, uuids));
    var bound := BindArgs(tool, args);
    if bound.Err? {
      return Err(bound.error);
    }
    match bound.value
    case SaveInput(memory, timestamp) =>
      var status := SaveRecallMemory(memory, config, timestamp, store, uuids);
      r := Ok(status);
    case SearchInput(query, topK) =>
      var found := SearchMemory(query, config, topK, store);
      assert found == SearchResult(query, config, topK, EnvOf(memories, store, uuids), store.docs);
      r := Ok(ListRepr(found));
    case StoreInput(memory, index) =>
      var status := StoreCoreMemory(memory, config, index, memories);
      r := Ok(status);
  }
}
