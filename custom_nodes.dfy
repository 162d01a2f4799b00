/** The tool-dispatch node: runs every pending tool call of the model's last
    message and answers each with one observation. */
module CustomNodes {
  import opened Common
  import opened Schema
  import opened PyStrings
  import opened Stores
  import opened MemoryTools

  /** The tools the memory subgraph registers, in registration order. */
  function RegisteredTools(): seq<Tool>
  {
    [SaveRecallMemoryTool, SearchMemoryTool, StoreCoreMemoryTool]
  }

  /** `{tool.name: tool for tool in tools}`. */
  function NameTable(tools: seq<Tool>): (table: map<string, Tool>)
    ensures forall t :: t in tools ==> t.Name() in table
    ensures forall n :: n in table ==> table[n] in tools && table[n].Name() == n
  {
    if tools == [] then map[]
    else
      var init := tools[..|tools| - 1];
      var last := tools[|tools| - 1];
      assert forall t :: t in tools ==> t in init || t == last;
      NameTable(init)[last.Name() := last]
  }

  /** `list(table.keys())`: the distinct names in first-registration order. */
  function NameOrder(tools: seq<Tool>): (names: seq<string>)
    ensures forall n :: n in names <==> n in NameTable(tools)
    ensures forall i, j :: 0 <= i < j < |names| ==> names[i] != names[j]
  {
    if tools == [] then []
    else
      var init := NameOrder(tools[..|tools| - 1]);
      var last := tools[|tools| - 1].Name();
      if last in init then init else init + [last]
  }

  /** The dispatch configuration: `{"configurable": {"user_id": user_id}}`. */
  function DispatchConfig(userId: int): RunnableConfig
  {
    RunnableConfig(Some(map["user_id" := userId]))
  }

  /** The identity a tool resolves from the dispatch configuration is the turn's user. */
  lemma DispatchConfigResolves(userId: int)
    ensures Utils.EnsureConfigurable(DispatchConfig(userId)) == Ok(map["user_id" := userId])
  {
  }

  /** The text of an observation for a call whose tool raised. */
  function ToolErrorText(name: string, error: string): string
  {
    "Error in tool " + name + ": " + error
  }

  /** What the node gives back to the graph: the state unchanged, or the
      observations to append to the messages. */
  datatype NodeUpdate = Unchanged | Append(observations: seq<Message>)

  /** The last message is an assistant message: the node's precondition. */
  predicate EndsWithAi(messages: seq<Message>)
  {
    |messages| > 0 && Last(messages).AiMessage?
  }

  /** The correction sent back for a name that is not a registered tool. */
  function Correction(names: seq<string>, name: string): string
  {
    name + " is not a valid tool, try one of " + ListRepr(names) + "."
  }

  /** The call does not reach any tool body: unknown name or rejected arguments. */
  predicate Skips(table: map<string, Tool>, call: ToolCall)
  {
    call.name !in table || BindArgs(table[call.name], call.args).Err?
  }

  /** `obs` is the observation the node owes to `call`. */
  predicate Answers(table: map<string, Tool>, names: seq<string>, obs: Message, call: ToolCall)
  {
    && obs.ToolMessage?
    && obs.toolCallId == call.id
    && (call.name !in table ==> obs.content == Correction(names, call.name) && obs.status == Success)
    && (call.name in table ==>
          var tool := table[call.name];
          var bound := BindArgs(tool, call.args);
          && (bound.Err? ==> obs.content == ToolErrorText(call.name, bound.error) && obs.status == Error)
          && (bound.Ok? ==> obs.status == Success)
          && (bound.Ok? && tool == SaveRecallMemoryTool ==> obs.content == RecallSaved || obs.content == RecallFailed)
          && (bound.Ok? && tool == StoreCoreMemoryTool ==> obs.content == CoreStored || obs.content == CoreFailed))
  }

  /** One tool call of the loop on the collaborators' values: an unknown name
      gets the correction and runs nothing; a known tool runs on the call's
      arguments under the turn user's configuration, and what it raises
      becomes an error observation. */
  function Dispatch(table: map<string, Tool>, names: seq<string>, call: ToolCall, userId: int, env: Env, w: World): (Message, World)
  {
    if call.name !in table then (ToolMessage(Correction(names, call.name), call.id, Success), w)
    else
      var (r, next) := InvokeResult(table[call.name], call.args, DispatchConfig(userId), env, w);
      match r
      case Ok(text) => (ToolMessage(text, call.id, Success), next)
      case Err(e) => (ToolMessage(ToolErrorText(call.name, e), call.id, Error), next)
  }

  /** The loop over the calls, in order, each call seeing the effects of the
      ones before it. */
  function DispatchAll(table: map<string, Tool>, names: seq<string>, calls: seq<ToolCall>, userId: int, env: Env, w: World)
    : (seq<Message>, World)
    decreases |calls|
  {
    if calls == [] then ([], w)
    else
      var (observations, mid) := DispatchAll(table, names, calls[..|calls| - 1], userId, env, w);
      var (obs, next) := Dispatch(table, names, calls[|calls| - 1], userId, env, mid);
      (observations + [obs], next)
  }

  /** The node on the collaborators' values. */
  function NodeStep(table: map<string, Tool>, names: seq<string>, state: State, env: Env, w: World): (Result<NodeUpdate>, World)
  {
    if !EndsWithAi(state.messages) then (Err("Last message must be an AIMessage"), w)
    else if Last(state.messages).toolCalls == [] then (Ok(Unchanged), w)
    else
      var (observations, next) := DispatchAll(table, names, Last(state.messages).toolCalls, state.userId, env, w);
      (Ok(Append(observations)), next)
  }

  /** Exactly one observation per call, in order, each owed to its call; when
      no call reaches a tool, nothing changes. */
  lemma {:induction false} DispatchAllAnswers(table: map<string, Tool>, names: seq<string>, calls: seq<ToolCall>,
                                              userId: int, env: Env, w: World)
    ensures var (observations, next) := DispatchAll(table, names, calls, userId, env, w);
            && |observations| == |calls|
            && (forall i :: 0 <= i < |calls| ==> Answers(table, names, observations[i], calls[i]))
            && ((forall c :: c in calls ==> Skips(table, c)) ==> next == w)
  {
    if calls != [] {
      var init := calls[..|calls| - 1];
      var call := calls[|calls| - 1];
      DispatchAllAnswers(table, names, init, userId, env, w);
      var (observations, mid) := DispatchAll(table, names, init, userId, env, w);
      if call.name in table {
        InvokeEffects(table[call.name], call.args, DispatchConfig(userId), env, mid);
      }
      var (obs, next) := Dispatch(table, names, call, userId, env, mid);
      assert DispatchAll(table, names, calls, userId, env, w) == (observations + [obs], next);
      forall i | 0 <= i < |calls|
        ensures Answers(table, names, (observations + [obs])[i], calls[i])
      {
        if i < |init| {
          assert calls[i] == init[i];
        }
      }
      if forall c :: c in calls ==> Skips(table, c) {
        assert forall c :: c in init ==> c in calls;
        assert call in calls;
      }
    }
  }

  /** Whatever the calls, the loop changes only the turn user's core row and
      only appends recall documents of that user. */
  lemma {:induction false} DispatchAllIsUserScoped(table: map<string, Tool>, names: seq<string>, calls: seq<ToolCall>,
                                                   userId: int, env: Env, w: World)
    ensures ScopedTo(w, DispatchAll(table, names, calls, userId, env, w).1, userId)
  {
    if calls == [] {
      assert w.docs[..|w.docs|] == w.docs;
    } else {
      var init := calls[..|calls| - 1];
      var call := calls[|calls| - 1];
      DispatchAllIsUserScoped(table, names, init, userId, env, w);
      var mid := DispatchAll(table, names, init, userId, env, w).1;
      var next := Dispatch(table, names, call, userId, env, mid).1;
      if call.name in table {
        DispatchConfigResolves(userId);
        InvokeIsUserScoped(table[call.name], call.args, DispatchConfig(userId), env, mid);
      } else {
        assert mid.docs[..|mid.docs|] == mid.docs;
      }
      ScopedToTrans(w, mid, next, userId);
    }
  }

  /** The node's contract on values: raises iff the last message is not an
      assistant message; passes through when there is nothing to run;
      otherwise one observation per call, in order; and only the turn user's
      memories change. */
  lemma NodeStepEffects(table: map<string, Tool>, names: seq<string>, state: State, env: Env, w: World)
    ensures var (r, next) := NodeStep(table, names, state, env, w);
            && (r.Err? <==> !EndsWithAi(state.messages))
            && (r.Err? ==> r.error == "Last message must be an AIMessage" && next == w)
            && (r.Ok? && Last(state.messages).toolCalls == [] ==> r.value == Unchanged && next == w)
            && (r.Ok? && Last(state.messages).toolCalls != [] ==>
                  var calls := Last(state.messages).toolCalls;
                  && r.value.Append?
                  && |r.value.observations| == |calls|
                  && forall i :: 0 <= i < |calls| ==> Answers(table, names, r.value.observations[i], calls[i]))
            && ((r.Err? || forall c :: c in Last(state.messages).toolCalls ==> Skips(table, c)) ==> next == w)
            && ScopedTo(w, next, state.userId)
  {
    if EndsWithAi(state.messages) {
      DispatchAllAnswers(table, names, Last(state.messages).toolCalls, state.userId, env, w);
      DispatchAllIsUserScoped(table, names, Last(state.messages).toolCalls, state.userId, env, w);
    }
    assert w.docs[..|w.docs|] == w.docs;
  }

  class CustomToolNode {
    const toolsByName: map<string, Tool>
    const names: seq<string>

    constructor (tools: seq<Tool>)
      ensures toolsByName == NameTable(tools) && names == NameOrder(tools)
    {
      toolsByName := NameTable(tools);
      names := NameOrder(tools);
    }

    /** Runs the pending tool calls of the last message, in order. Raises when
        the last message is not an assistant message; passes the state through
        when there is nothing to run; otherwise answers every call with exactly
        one observation carrying its id, and no call aborts the batch. */
    method Call(state: State, memories: MemoryTable, store: VectorStore, uuids: UuidSource) returns (r: Result<NodeUpdate>)
      modifies memories`rows, store`docs, uuids`issued
      ensures (r, WorldOf(memories, store, uuids)) ==
                NodeStep(toolsByName, names, state, EnvOf(memories, store, uuids), old(WorldOf(memories, store, uuids)))
      ensures r.Err? <==> !EndsWithAi(state.messages)
      ensures r.Err? ==> r.error == "Last message must be an AIMessage"
      ensures r.Ok? && Last(state.messages).toolCalls == [] ==> r.value == Unchanged
      ensures r.Ok? && Last(state.messages).toolCalls != [] ==>
                var calls := Last(state.messages).toolCalls;
                && r.value.Append?
                && |r.value.observations| == |calls|
                && forall i :: 0 <= i < |calls| ==> Answers(toolsByName, names, r.value.observations[i], calls[i])
      ensures (r.Err? || forall c :: c in Last(state.messages).toolCalls ==> Skips(toolsByName, c)) ==>
                memories.rows == old(memories.rows) && store.docs == old(store.docs)
      ensures ScopedTo(old(WorldOf(memories, store, uuids)), WorldOf(memories, store, uuids), state.userId)
    {
      NodeStepEffects(toolsByName, names, state, EnvOf(memories, store, uuids), WorldOf(memories, store, uuids));
      if |state.messages| == 0 || !Last(state.messages).AiMessage? {
        return Err("Last message must be an AIMessage");
      }
      var calls := Last(state.messages).toolCalls;
      if calls == [] {
        return Ok(Unchanged);
      }
      var result := RunCalls(calls, state.userId, memories, store, uuids);
      r := Ok(Append(result));
    }

    /** The loop over the calls, in order. */
    method RunCalls(calls: seq<ToolCall>, userId: int, memories: MemoryTable, store: VectorStore, uuids: UuidSource)
      returns (result: seq<Message>)
      modifies memories`rows, store`docs, uuids`issued
      ensures (result, WorldOf(memories, store, uuids)) ==
                DispatchAll(toolsByName, names, calls, userId, EnvOf(memories, store, uuids), old(WorldOf(memories, store, uuids)))
    {
      ghost var w0 := WorldOf(memories, store, uuids);
      result := [];
      for i := 0 to |calls|
        invariant (result, WorldOf(memories, store, uuids)) ==
                    DispatchAll(toolsByName, names, calls[..i], userId, EnvOf(memories, store, uuids), w0)
      {
        assert calls[..i + 1][..i] == calls[..i];
        var observation := RunCall(calls[i], userId, memories, store, uuids);
        result := result + [observation];
      }
      assert calls[..|calls|] == calls;
    }

    /** One iteration of the loop: the observation for one call. */
    method RunCall(call: ToolCall, userId: int, memories: MemoryTable, store: VectorStore, uuids: UuidSource)
      returns (observation: Message)
      modifies memories`rows, store`docs, uuids`issued
      ensures (observation, WorldOf(memories, store, uuids)) ==
                Dispatch(toolsByName, names, call, userId, EnvOf(memories, store, uuids), old(WorldOf(memories, store, uuids)))
    {
      if call.name !in toolsByName {
        return ToolMessage(Correction(names, call.name), call.id, Success);
      }
      var result := Invoke(toolsByName[call.name], call.args, DispatchConfig(userId), memories, store, uuids);
      match result
      case Ok(text) =>
        observation := ToolMessage(text, call.id, Success);
      case Err(e) =>
        observation := ToolMessage(ToolErrorText(call.name, e), call.id, Error);
    }
  }

  /** The names listed in a correction are exactly the three registered tools. */
  lemma RegisteredNames()
    ensures NameOrder(RegisteredTools()) == ["save_recall_memory", "search_memory", "store_core_memory"]
  {
    assert RegisteredTools()[..2] == [SaveRecallMemoryTool, SearchMemoryTool];
    assert RegisteredTools()[..2][..1] == [SaveRecallMemoryTool];
    assert [SaveRecallMemoryTool][..0] == [];
  }

  /** The correction for an unknown name, as the registered node phrases it:
      the three registered names, quoted, in registration order. */
  lemma RegisteredCorrection(name: string)
    ensures Correction(NameOrder(RegisteredTools()), name) ==
              name + " is not a valid tool, try one of "
              + "[" + Repr("save_recall_memory") + ", " + Repr("search_memory") + ", " + Repr("store_core_memory") + "]"
              + "."
  {
    RegisteredNames();
    var names := NameOrder(RegisteredTools());
    var quoted := [Repr("save_recall_memory"), Repr("search_memory"), Repr("store_core_memory")];
    var shown := seq(|names|, i requires 0 <= i < |names| => Repr(names[i]));
    assert |shown| == 3 && shown[0] == quoted[0] && shown[1] == quoted[1] && shown[2] == quoted[2];
    assert shown == quoted;
    assert Join(", ", quoted[1..]) == quoted[1] + ", " + quoted[2] by {
      assert quoted[1..][1..] == [quoted[2]];
    }
  }
}
