/** The memory subgraph (agent step, routing, tool step), the context loader,
    the transcript-saving step and the main graph that chains them. */
module LlmGraph {
  import opened Common
  import opened Schema
  import opened PyStrings
  import opened Stores
  import opened Utils
  import opened MemoryTools
  import opened CustomNodes

  /** The variables the prompt template receives: the running messages, the
      core and recall memories as newline-joined blocks, and the current time. */
  datatype Prompt = Prompt(messages: seq<Message>, coreMemories: string, recallMemories: string, timestamp: string)

  /** What one model call gives: an assistant message (text and tool calls), or a failure. */
  datatype LlmReply = Reply(content: string, toolCalls: seq<ToolCall>) | LlmFailure(error: string)

  /** The language model with the three tools bound. */
  type LanguageModel = Prompt -> LlmReply

  /** The prompt variables for one agent step. */
  function PromptFor(state: State, now: string): (p: Prompt)
    ensures p.messages == state.messages && p.timestamp == now
  {
    Prompt(state.messages, Join("\n", state.coreMemories), Join("\n", state.recallMemories), now)
  }

  /** The memory blocks of the prompt list each memory on its own line: reading
      them back line by line gives the snapshot, when no memory holds a newline. */
  lemma PromptListsMemories(state: State, now: string)
    requires forall i :: 0 <= i < |state.coreMemories| ==> '\n' !in state.coreMemories[i]
    requires forall i :: 0 <= i < |state.recallMemories| ==> '\n' !in state.recallMemories[i]
    ensures |state.coreMemories| > 0 ==> Split(PromptFor(state, now).coreMemories, '\n') == state.coreMemories
    ensures |state.recallMemories| > 0 ==> Split(PromptFor(state, now).recallMemories, '\n') == state.recallMemories
    ensures PromptFor(state, now).messages == state.messages
  {
    if |state.coreMemories| > 0 {
      JoinSplit(state.coreMemories, '\n');
    }
    if |state.recallMemories| > 0 {
      JoinSplit(state.recallMemories, '\n');
    }
  }

  /** The state delta of `memory_agent`: the response is appended to the
      messages and its text overwrites `answer`. */
  function AgentUpdate(state: State, reply: LlmReply): (next: State)
    requires reply.Reply?
    ensures next.userId == state.userId && next.query == state.query
    ensures next.coreMemories == state.coreMemories && next.recallMemories == state.recallMemories
    ensures |next.messages| == |state.messages| + 1 && next.messages[..|state.messages|] == state.messages
    ensures Last(next.messages) == AiMessage(reply.content, reply.toolCalls)
    ensures next.answer == reply.content
  {
    state.(messages := state.messages + [AiMessage(reply.content, reply.toolCalls)], answer := reply.content)
  }

  /** The nodes of the memory subgraph, with the terminal state. */
  datatype GraphNode = MemoryAgentNode | ToolsNode | EndNode

  /** The subgraph's entry point. */
  function EntryPoint(): GraphNode
  {
    MemoryAgentNode
  }

  /** The message carries pending tool calls. */
  predicate HasPendingCalls(m: Message)
  {
    m.AiMessage? && m.toolCalls != []
  }

  /** `route_tools`: to the tool node exactly when the last message carries
      pending tool calls, otherwise to the end. */
  function RouteTools(messages: seq<Message>): (next: GraphNode)
    requires |messages| > 0
    ensures next == ToolsNode <==> HasPendingCalls(Last(messages))
    ensures next == EndNode <==> !HasPendingCalls(Last(messages))
  {
    var last := Last(messages);
    if last.AiMessage? && last.toolCalls != [] then ToolsNode else EndNode
  }

  /** The subgraph's edges: the agent's conditional edge and the unconditional
      edge from the tool node back to the agent. */
  function Successor(node: GraphNode, messages: seq<Message>): (next: GraphNode)
    requires node != EndNode
    requires node == MemoryAgentNode ==> |messages| > 0
    ensures node == ToolsNode ==> next == MemoryAgentNode
    ensures next == EndNode ==> node == MemoryAgentNode && !HasPendingCalls(Last(messages))
    ensures next == ToolsNode ==> node == MemoryAgentNode && HasPendingCalls(Last(messages))
  {
    match node
    case MemoryAgentNode => RouteTools(messages)
    case ToolsNode => MemoryAgentNode
  }

  /** How the graph merges a tool-node result into the state. */
  function ApplyUpdate(state: State, update: NodeUpdate): (next: State)
    ensures update.Unchanged? ==> next == state
    ensures update.Append? ==>
              && next.userId == state.userId && next.query == state.query && next.answer == state.answer
              && next.coreMemories == state.coreMemories && next.recallMemories == state.recallMemories
              && |next.messages| == |state.messages| + |update.observations|
              && next.messages[..|state.messages|] == state.messages
              && next.messages[|state.messages|..] == update.observations
  {
    match update
    case Unchanged => state
    case Append(observations) => state.(messages := state.messages + observations)
  }

  /** `s` continues the turn started in `s0`: same user, query and memory
      snapshots, and the messages only grew at the end. */
  predicate Continues(s0: State, s: State)
  {
    && s.userId == s0.userId && s.query == s0.query
    && s.coreMemories == s0.coreMemories && s.recallMemories == s0.recallMemories
    && |s.messages| >= |s0.messages| && s.messages[..|s0.messages|] == s0.messages
  }

  /** The subgraph stopped properly: the last message is an assistant message
      with no pending calls, and `answer` is its text. */
  predicate Finished(s0: State, s: State)
  {
    && Continues(s0, s)
    && |s.messages| > |s0.messages|
    && Last(s.messages).AiMessage? && Last(s.messages).toolCalls == []
    && s.answer == Last(s.messages).content
  }

  /** How a graph run ends: with a final state, with the model's exception,
      with the tool node's exception, or by exhausting the step budget (which
      also raises). */
  datatype GraphOutcome = Completed(state: State) | ModelFailed(error: string) | NodeFailed(error: string) | StepLimit

  /** A tool node on the collaborators' values. */
  type ToolNode = (State, World) -> (Result<NodeUpdate>, World)

  /** A `CustomToolNode` with the given name table, on the collaborators' values. */
  function NodeOf(table: map<string, Tool>, names: seq<string>, env: Env): ToolNode
  {
    (s: State, w: World) => NodeStep(table, names, s, env, w)
  }

  /** The registered `CustomToolNode` on the collaborators' values. */
  function RegisteredNode(env: Env): ToolNode
  {
    NodeOf(NameTable(RegisteredTools()), NameOrder(RegisteredTools()), env)
  }

  /** The node runs on every assistant message and touches only the turn user's memories. */
  ghost predicate WellBehaved(node: ToolNode)
  {
    && (forall s: State, w: World :: EndsWithAi(s.messages) ==> node(s, w).0.Ok?)
    && (forall s: State, w: World :: ScopedTo(w, node(s, w).1, s.userId))
  }

  lemma NodeBehaves(table: map<string, Tool>, names: seq<string>, env: Env)
    ensures WellBehaved(NodeOf(table, names, env))
  {
    forall s: State, w: World
      ensures EndsWithAi(s.messages) ==> NodeOf(table, names, env)(s, w).0.Ok?
      ensures ScopedTo(w, NodeOf(table, names, env)(s, w).1, s.userId)
    {
      NodeStepEffects(table, names, s, env, w);
    }
  }

  /** The memory subgraph on the collaborators' values, from node `at` with
      `fuel` node executions left: the agent step calls the model on the
      prompt built from the state, the tool step is `node`, and the edges are
      those of `Successor`. */
  function Run(state: State, at: GraphNode, llm: LanguageModel, now: string, fuel: nat, node: ToolNode, w: World): (GraphOutcome, World)
    decreases fuel
  {
    if at == EndNode then (Completed(state), w)
    else if fuel == 0 then (StepLimit, w)
    else if at == MemoryAgentNode then
      var reply := llm(PromptFor(state, now));
      if reply.LlmFailure? then (ModelFailed(reply.error), w)
      else
        var next := AgentUpdate(state, reply);
        Run(next, Successor(at, next.messages), llm, now, fuel - 1, node, w)
    else
      var (update, next) := node(state, w);
      match update
      case Err(e) => (NodeFailed(e), next)
      case Ok(u) => Run(ApplyUpdate(state, u), Successor(at, state.messages), llm, now, fuel - 1, node, next)
  }

  /** A run of the subgraph from its entry point. */
  function Subgraph(s0: State, llm: LanguageModel, now: string, fuel: nat, env: Env, w: World): (GraphOutcome, World)
  {
    Run(s0, EntryPoint(), llm, now, fuel, RegisteredNode(env), w)
  }

  /** `s` is the agent's update of `p` with the model's reply to `p`'s prompt. */
  predicate AgentReplied(p: State, s: State, llm: LanguageModel, now: string)
  {
    var reply := llm(PromptFor(p, now));
    reply.Reply? && s == AgentUpdate(p, reply)
  }

  /** `s` is the agent's update, with the model's reply, of a state of the turn started in `s0`. */
  ghost predicate RepliedLast(s0: State, s: State, llm: LanguageModel, now: string)
  {
    exists p :: Continues(s0, p) && AgentReplied(p, s, llm, now)
  }

  /** What holds of the state whenever the run is about to execute node `at`. */
  ghost predicate Poised(s0: State, s: State, at: GraphNode, llm: LanguageModel, now: string)
  {
    && Continues(s0, s)
    && (at == ToolsNode ==> |s.messages| > 0 && HasPendingCalls(Last(s.messages)))
    && (at == EndNode ==> Finished(s0, s) && RepliedLast(s0, s, llm, now))
  }

  /** A completed run ends on the agent's update with the model's own reply,
      which has no tool calls, so `answer` is the last reply's text; a model
      failure is the model's answer to a prompt of the run; the tool node never
      raises, because it only runs on an assistant message. */
  lemma {:induction false} RunOutcomes(s0: State, s: State, at: GraphNode, llm: LanguageModel, now: string,
                                       fuel: nat, node: ToolNode, w: World)
    requires WellBehaved(node)
    requires Poised(s0, s, at, llm, now)
    ensures var out := Run(s, at, llm, now, fuel, node, w).0;
            && (out.Completed? ==> Finished(s0, out.state) && RepliedLast(s0, out.state, llm, now))
            && (out.ModelFailed? ==> exists p :: Continues(s0, p) && llm(PromptFor(p, now)) == LlmFailure(out.error))
            && !out.NodeFailed?
    decreases fuel
  {
    if at != EndNode && fuel > 0 {
      if at == MemoryAgentNode {
        var reply := llm(PromptFor(s, now));
        if reply.LlmFailure? {
          assert Continues(s0, s) && llm(PromptFor(s, now)) == LlmFailure(reply.error);
        } else {
          var next := AgentUpdate(s, reply);
          assert next.messages[..|s0.messages|] == next.messages[..|s.messages|][..|s0.messages|];
          assert AgentReplied(s, next, llm, now);
          RunOutcomes(s0, next, Successor(at, next.messages), llm, now, fuel - 1, node, w);
        }
      } else {
        var (update, next) := node(s, w);
        var s' := ApplyUpdate(s, update.value);
        assert s'.messages[..|s0.messages|] == s'.messages[..|s.messages|][..|s0.messages|];
        RunOutcomes(s0, s', MemoryAgentNode, llm, now, fuel - 1, node, next);
      }
    }
  }

  /** The whole subgraph changes only the turn user's core row and only
      appends recall documents of that user. */
  lemma {:induction false} RunIsUserScoped(s: State, at: GraphNode, llm: LanguageModel, now: string, fuel: nat,
                                           node: ToolNode, w: World)
    requires WellBehaved(node)
    ensures ScopedTo(w, Run(s, at, llm, now, fuel, node, w).1, s.userId)
    decreases fuel
  {
    assert w.docs[..|w.docs|] == w.docs;
    if at != EndNode && fuel > 0 {
      if at == MemoryAgentNode {
        var reply := llm(PromptFor(s, now));
        if reply.Reply? {
          var next := AgentUpdate(s, reply);
          RunIsUserScoped(next, Successor(at, next.messages), llm, now, fuel - 1, node, w);
        }
      } else {
        var (update, next) := node(s, w);
        if update.Ok? {
          var s' := ApplyUpdate(s, update.value);
          RunIsUserScoped(s', Successor(at, s.messages), llm, now, fuel - 1, node, next);
          ScopedToTrans(w, next, Run(s', Successor(at, s.messages), llm, now, fuel - 1, node, next).1, s.userId);
        }
      }
    }
  }

  /** The step budget only cuts runs off: a run that ends within `fuel` steps
      ends the same way, with the same effects, under any larger budget. */
  lemma {:induction false} RunFuelMonotone(s: State, at: GraphNode, llm: LanguageModel, now: string,
                                           fuel: nat, more: nat, node: ToolNode, w: World)
    requires fuel <= more
    requires !Run(s, at, llm, now, fuel, node, w).0.StepLimit?
    ensures Run(s, at, llm, now, more, node, w) == Run(s, at, llm, now, fuel, node, w)
    decreases fuel
  {
    if at != EndNode {
      if at == MemoryAgentNode {
        var reply := llm(PromptFor(s, now));
        if reply.Reply? {
          var next := AgentUpdate(s, reply);
          RunFuelMonotone(next, Successor(at, next.messages), llm, now, fuel - 1, more - 1, node, w);
        }
      } else {
        var (update, next) := node(s, w);
        if update.Ok? {
          RunFuelMonotone(ApplyUpdate(s, update.value), Successor(at, s.messages), llm, now, fuel - 1, more - 1, node, next);
        }
      }
    }
  }

  /** One agent step of a run that the model answers. */
  lemma RunAgentStep(s: State, llm: LanguageModel, now: string, fuel: nat, node: ToolNode, w: World)
    requires fuel > 0 && llm(PromptFor(s, now)).Reply?
    ensures var next := AgentUpdate(s, llm(PromptFor(s, now)));
            Run(s, MemoryAgentNode, llm, now, fuel, node, w) ==
            Run(next, Successor(MemoryAgentNode, next.messages), llm, now, fuel - 1, node, w)
  {
  }

  /** One tool step of a run whose tool node returns an update. */
  lemma RunToolStep(s: State, llm: LanguageModel, now: string, fuel: nat, node: ToolNode, w: World)
    requires fuel > 0 && node(s, w).0.Ok?
    ensures Run(s, ToolsNode, llm, now, fuel, node, w) ==
            Run(ApplyUpdate(s, node(s, w).0.value), Successor(ToolsNode, s.messages), llm, now, fuel - 1, node, node(s, w).1)
  {
  }

  /** One execution of the tool node inside a run: the node's update merged into the state. */
  method ToolsStep(state: State, llm: LanguageModel, now: string, fuel: nat, node: CustomToolNode, ghost step: ToolNode,
                   memories: MemoryTable, store: VectorStore, uuids: UuidSource) returns (next: State)
    requires fuel > 0 && |state.messages| > 0 && HasPendingCalls(Last(state.messages))
    requires forall s: State, w: World {:trigger NodeStep(node.toolsByName, node.names, s, EnvOf(memories, store, uuids), w)} ::
               step(s, w) == NodeStep(node.toolsByName, node.names, s, EnvOf(memories, store, uuids), w)
    modifies memories`rows, store`docs, uuids`issued
    ensures Run(state, ToolsNode, llm, now, fuel, step, old(WorldOf(memories, store, uuids))) ==
            Run(next, MemoryAgentNode, llm, now, fuel - 1, step, WorldOf(memories, store, uuids))
  {
    ghost var w := WorldOf(memories, store, uuids);
    var update := node.Call(state, memories, store, uuids);
    assert step(state, w) == (update, WorldOf(memories, store, uuids));
    RunToolStep(state, llm, now, fuel, step, w);
    next := ApplyUpdate(state, update.value);
  }

  /** The compiled memory subgraph run on a state, with `node` as its tool
      node; `step` is that node on the collaborators' values. The program sets
      no iteration cap; `fuel` bounds the number of node executions. */
  method RunNode(s0: State, llm: LanguageModel, now: string, fuel: nat, node: CustomToolNode, ghost step: ToolNode,
                 memories: MemoryTable, store: VectorStore, uuids: UuidSource) returns (out: GraphOutcome)
    requires forall s: State, w: World {:trigger NodeStep(node.toolsByName, node.names, s, EnvOf(memories, store, uuids), w)} ::
               step(s, w) == NodeStep(node.toolsByName, node.names, s, EnvOf(memories, store, uuids), w)
    modifies memories`rows, store`docs, uuids`issued
    ensures (out, WorldOf(memories, store, uuids)) == Run(s0, EntryPoint(), llm, now, fuel, step, old(WorldOf(memories, store, uuids)))
  {
    ghost var w0 := WorldOf(memories, store, uuids);
    var state := s0;
    var at := EntryPoint();
    var steps := 0;
    while at != EndNode && steps < fuel
      invariant steps <= fuel
      invariant Run(state, at, llm, now, fuel - steps, step, WorldOf(memories, store, uuids)) ==
                Run(s0, EntryPoint(), llm, now, fuel, step, w0)
      invariant at == ToolsNode ==> |state.messages| > 0 && HasPendingCalls(Last(state.messages))
      decreases fuel - steps
    {
      if at == MemoryAgentNode {
        var reply := llm(PromptFor(state, now));
        if reply.LlmFailure? {
          return ModelFailed(reply.error);
        }
        RunAgentStep(state, llm, now, fuel - steps, step, WorldOf(memories, store, uuids));
        state := AgentUpdate(state, reply);
        at := Successor(at, state.messages);
      } else {
        state := ToolsStep(state, llm, now, fuel - steps, node, step, memories, store, uuids);
        at := Successor(at, state.messages);
      }
      steps := steps + 1;
    }
    if at == EndNode {
      out := Completed(state);
    } else {
      out := StepLimit;
    }
  }

  /** The compiled memory subgraph, built with the registered tools, run on a state. */
  method RunSubgraph(s0: State, llm: LanguageModel, now: string, fuel: nat,
                     memories: MemoryTable, store: VectorStore, uuids: UuidSource) returns (out: GraphOutcome)
    modifies memories`rows, store`docs, uuids`issued
    ensures (out, WorldOf(memories, store, uuids)) ==
              Subgraph(s0, llm, now, fuel, EnvOf(memories, store, uuids), old(WorldOf(memories, store, uuids)))
    ensures out.Completed? ==> Finished(s0, out.state) && RepliedLast(s0, out.state, llm, now)
    ensures out.ModelFailed? ==> exists s :: Continues(s0, s) && llm(PromptFor(s, now)) == LlmFailure(out.error)
    ensures !out.NodeFailed?
    ensures ScopedTo(old(WorldOf(memories, store, uuids)), WorldOf(memories, store, uuids), s0.userId)
  {
    ghost var w0 := WorldOf(memories, store, uuids);
    var node := new CustomToolNode(RegisteredTools());
    out := RunNode(s0, llm, now, fuel, node, RegisteredNode(EnvOf(memories, store, uuids)), memories, store, uuids);
    NodeBehaves(node.toolsByName, node.names, EnvOf(memories, store, uuids));
    assert s0.messages[..|s0.messages|] == s0.messages;
    RunOutcomes(s0, s0, EntryPoint(), llm, now, fuel, RegisteredNode(EnvOf(memories, store, uuids)), w0);
    RunIsUserScoped(s0, EntryPoint(), llm, now, fuel, RegisteredNode(EnvOf(memories, store, uuids)), w0);
  }

  /** The state after `load_memories`, on the collaborators' values. */
  function Loaded(state: State, env: Env, coreRows: map<int, seq<string>>, docs: seq<RecallDoc>): (loaded: State)
    ensures loaded.userId == state.userId && loaded.query == state.query && loaded.messages == state.messages
    ensures |loaded.recallMemories| <= RecallContextSize
  {
    if !env.storeUp then state.(coreMemories := [], recallMemories := [])
    else
      state.(coreMemories := if env.coreUp then CoreRow(coreRows, state.userId).GetOr([]) else [],
             recallMemories := Formatted(SearchDocs(docs, env.rank, state.query, RecallContextSize, state.userId)))
  }

  /** The number of recall memories loaded into the context. */
  const RecallContextSize := 5

  /** `load_memories`: the user's core facts and the formatted top-5 recall
      search for the query. A failure of the similarity store empties both
      lists, the core facts included; a failed core read alone gives `[]`. */
  method LoadMemories(state: State, memories: MemoryTable, store: VectorStore)
    returns (coreMemories: seq<string>, recallMemories: seq<string>)
    ensures store.up ==>
              && coreMemories == (if memories.up then CoreRow(memories.rows, state.userId).GetOr([]) else [])
              && FormatsAll(recallMemories, SearchDocs(store.docs, store.rank, state.query, RecallContextSize, state.userId))
    ensures !store.up ==> coreMemories == [] && recallMemories == []
    ensures |recallMemories| <= RecallContextSize
  {
    var userId := state.userId;
    var facts := GetMemories(memories, userId);
    if !store.up {
      return [], [];
    }
    var recallDocs := SearchDocs(store.docs, store.rank, state.query, RecallContextSize, userId);
    var recall := FormatMemories(recallDocs);
    coreMemories, recallMemories := facts, recall;
  }

  /** The history query: the user's rows, newest first, at most six. The table
      holds one row per user. */
  function LatestRows(history: HistoryTable, userId: int): (rows: seq<seq<HistoryEntry>>)
    reads history
    ensures |rows| <= 6
  {
    if userId in history.rows then [history.rows[userId]] else []
  }

  /** The concatenation of the rows' transcripts, in the given row order. */
  function Flatten(rows: seq<seq<HistoryEntry>>): seq<HistoryEntry>
  {
    if rows == [] then [] else Flatten(rows[..|rows| - 1]) + rows[|rows| - 1]
  }

  function Reverse(rows: seq<seq<HistoryEntry>>): (reversed: seq<seq<HistoryEntry>>)
    ensures |reversed| == |rows|
    ensures forall i :: 0 <= i < |rows| ==> reversed[i] == rows[|rows| - 1 - i]
  {
    if rows == [] then [] else [rows[|rows| - 1]] + Reverse(rows[..|rows| - 1])
  }

  /** The `extend` loop over history rows. */
  method ExtendAll(rows: seq<seq<HistoryEntry>>) returns (messages: seq<HistoryEntry>)
    ensures messages == Flatten(rows)
  {
    messages := [];
    for i := 0 to |rows|
      invariant messages == Flatten(rows[..i])
    {
      assert rows[..i + 1][..i] == rows[..i];
      messages := messages + rows[i];
    }
    assert rows[..|rows|] == rows;
  }

  /** With at most one row per user, the load order (oldest row first) and the
      save order (newest row first) give the same transcript. */
  lemma OneRowOrdersAgree(rows: seq<seq<HistoryEntry>>)
    requires |rows| <= 1
    ensures Flatten(Reverse(rows)) == Flatten(rows)
  {
    if |rows| == 1 {
      assert Reverse(rows) == rows;
    }
  }

  /** With two rows the orders differ: the save path would write the newer row's
      entries before the older row's. */
  lemma TwoRowsDisagree(older: HistoryEntry, newer: HistoryEntry)
    requires older != newer
    ensures Flatten(Reverse([[newer], [older]])) == [older, newer]
    ensures Flatten([[newer], [older]]) == [newer, older]
  {
    var rows := [[newer], [older]];
    assert rows[..1] == [[newer]] && rows[..1][..0] == [];
    assert Reverse(rows) == [[older], [newer]] by {
      assert Reverse(rows[..1]) == [[newer]];
    }
    assert Reverse(rows)[..1] == [[older]] && Reverse(rows)[..1][..0] == [];
    assert Flatten([[older]]) == [older];
    assert Flatten([[newer]]) == [newer];
  }

  /** The stored transcript is what the history query reads back. */
  lemma LatestRowsFlatten(history: HistoryTable, userId: int)
    ensures Flatten(LatestRows(history, userId)) == StoredTranscript(history.rows, userId)
  {
    var rows := LatestRows(history, userId);
    if |rows| == 1 {
      assert rows[..0] == [];
    }
  }

  /** The context load at the start of `process_message`: the user's rows,
      newest first, or `None` when the read fails and leaves them unbound.
      Their chronological concatenation is built here and never handed to the
      subgraph. */
  method LoadHistory(history: HistoryTable, userId: int) returns (messageHistory: Option<seq<seq<HistoryEntry>>>)
    ensures messageHistory == if history.up then Some(LatestRows(history, userId)) else None
  {
    messageHistory := None;
    if history.up {
      var rows := LatestRows(history, userId);
      messageHistory := Some(rows);
      var messages := ExtendAll(Reverse(rows));
    }
  }

  /** The save at the end of `process_message`: the rows read at the start
      (`None` when that read failed and left them unbound, so the save raises
      and is caught) are concatenated in query order (newest first) with the
      "bot" entry appended, and replace the user's row; with no rows a new
      row holding just the entry is added. A failed write is swallowed. */
  method SaveAnswer(history: HistoryTable, userId: int, messageHistory: Option<seq<seq<HistoryEntry>>>, answer: string, now: string)
    requires messageHistory.Some? ==> messageHistory.value == LatestRows(history, userId)
    modifies history`rows
    ensures messageHistory.None? || !history.up ==> history.rows == old(history.rows)
    ensures messageHistory.Some? && history.up ==>
              history.rows == old(history.rows)[userId := StoredTranscript(old(history.rows), userId) + [NewEntry("bot", answer, now)]]
  {
    if messageHistory.Some? && history.up {
      LatestRowsFlatten(history, userId);
      var newMessage := NewEntry("bot", answer, now);
      if |messageHistory.value| > 0 {
        var messagesList := ExtendAll(messageHistory.value);
        messagesList := messagesList + [newMessage];
        history.rows := history.rows[userId := messagesList];
      } else {
        assert StoredTranscript(history.rows, userId) + [newMessage] == [newMessage];
        history.rows := history.rows[userId := [newMessage]];
      }
    }
  }

  /** `process_message`: runs the subgraph (re-raising its failure, and then
      writing nothing) and appends one "bot" entry with the answer to the
      user's transcript. A failed read or write of the history is swallowed
      and the result is still returned. */
  method ProcessMessage(state: State, llm: LanguageModel, now: string, fuel: nat,
                        history: HistoryTable, memories: MemoryTable, store: VectorStore, uuids: UuidSource)
    returns (out: GraphOutcome)
    modifies history`rows, memories`rows, store`docs, uuids`issued
    ensures (out, WorldOf(memories, store, uuids)) ==
              Subgraph(state, llm, now, fuel, EnvOf(memories, store, uuids), old(WorldOf(memories, store, uuids)))
    ensures out.Completed? ==> Finished(state, out.state)
    ensures !out.Completed? || !history.up ==> history.rows == old(history.rows)
    ensures out.Completed? && history.up ==>
              history.rows == old(history.rows)[state.userId :=
                StoredTranscript(old(history.rows), state.userId) + [NewEntry("bot", out.state.answer, now)]]
  {
    var userId := state.userId;
    var messageHistory := LoadHistory(history, userId);
    out := RunSubgraph(state, llm, now, fuel, memories, store, uuids);
    if !out.Completed? {
      return;
    }
    SaveAnswer(history, userId, messageHistory, out.state.answer, now);
  }

  /** The main graph: `load_memories`, then `process_message`, then the end.
      `loaded` is the state the subgraph starts from. */
  method MainGraph(state: State, llm: LanguageModel, now: string, fuel: nat,
                   history: HistoryTable, memories: MemoryTable, store: VectorStore, uuids: UuidSource)
    returns (out: GraphOutcome, ghost loaded: State)
    modifies history`rows, memories`rows, store`docs, uuids`issued
    ensures loaded.userId == state.userId && loaded.query == state.query && loaded.messages == state.messages
    ensures store.up ==>
              && loaded.coreMemories == (if memories.up then CoreRow(old(memories.rows), state.userId).GetOr([]) else [])
              && FormatsAll(loaded.recallMemories, SearchDocs(old(store.docs), store.rank, state.query, RecallContextSize, state.userId))
    ensures !store.up ==> loaded.coreMemories == [] && loaded.recallMemories == []
    ensures loaded == Loaded(state, EnvOf(memories, store, uuids), old(memories.rows), old(store.docs))
    ensures (out, WorldOf(memories, store, uuids)) ==
              Subgraph(loaded, llm, now, fuel, EnvOf(memories, store, uuids), old(WorldOf(memories, store, uuids)))
    ensures out.Completed? ==> Finished(loaded, out.state)
    ensures !out.Completed? || !history.up ==> history.rows == old(history.rows)
    ensures out.Completed? && history.up ==>
              history.rows == old(history.rows)[state.userId :=
                StoredTranscript(old(history.rows), state.userId) + [NewEntry("bot", out.state.answer, now)]]
  {
    var coreMemories, recallMemories := LoadMemories(state, memories, store);
    var merged := state.(coreMemories := coreMemories, recallMemories := recallMemories);
    loaded := merged;
    assert store.up ==> recallMemories == Formatted(SearchDocs(store.docs, store.rank, state.query, RecallContextSize, state.userId));
    out := ProcessMessage(merged, llm, now, fuel, history, memories, store, uuids);
  }
}
