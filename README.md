# MementoBot turn controller — a Dafny model

MementoBot is a Telegram assistant with two kinds of per-user memory: a short
list of *core* facts kept in an SQL row, and *recall* facts kept as documents in
a similarity-search store. A text message from a user goes through one turn:

1. the handler resolves (or creates) the user, appends the text to the user's
   transcript as a `"human"` entry, reads the transcript back and builds the
   initial state from its last six entries;
2. the main graph loads the core facts and the top five recall facts for the
   query (`load_memories`), then `process_message` runs the memory subgraph and
   appends one `"bot"` entry with the answer to the transcript;
3. the memory subgraph alternates between the language model (`memory_agent`)
   and the tool node (`CustomToolNode`) until the model answers without tool
   calls; the tools save recall facts, search them, and store core facts;
4. the handler replies with the answer, or with a fixed error text if the graph
   raised.

The model follows the program's files, one module each:

| module | file | what it holds |
|---|---|---|
| `Common` | — | `Option` and `Result` |
| `PyStrings` | — | `str.join`, `str.split`, ASCII `lower()`, `repr` of a string list |
| `Schema` | `app/schemas/state.py` | the turn state, messages, tool calls, run config, transcript entries |
| `Stores` | `app/models.py`, `app/vectorstore.py` | the user, history and memory tables and the recall store as classes, a uuid source |
| `Utils` | `app/utils.py` | identity, transcript and memory helpers, config check, role mapping |
| `MemoryTools` | `app/tools/memory_tools.py` | the three tools, their argument binding and status texts |
| `CustomNodes` | `app/custom_nodes.py` | the tool-dispatch node |
| `LlmGraph` | `app/llm_graph.py` | routing, the subgraph loop, `load_memories`, `process_message`, the main graph |
| `MessageHandlers` | `app/handlers/message_handlers.py` | `handle_text`, the window, the initial state, the reply |

The collaborators are modelled as follows. Every store is a class whose `up`
flag says whether the database answers during the call; when it is down every
access raises, and the code's `except` branches decide what happens. The
language model is a function `Prompt -> LlmReply` passed in; a `LlmFailure`
reply stands for the exception it raises. The similarity store keeps its
documents in a sequence; a search applies the user filter and the `LIMIT k`
itself, and an opaque ranking function `rank` proposes which of the user's
documents come back, in which order (each stored row at most once). The clock
is one `now` string per turn, and `uuid4` is a counter into an opaque id
function.

Each state-changing operation is also given on values: `WorldOf` reads the
core rows, the recall documents and the uuid counter into a `World`, `EnvOf`
reads the availability flags, the ranking and the id function into an `Env`,
and a pure function computes the result and the next `World` (`InvokeResult`
for one tool call, `Dispatch`/`DispatchAll`/`NodeStep` for the tool node, `Run`
and `Subgraph` for the memory subgraph). Every method's contract says that its
result and the new stores are exactly what that function gives, and the lemmas
about the function state what the program promises.

The graph library stops a run that exceeds its recursion limit (25 steps by
default, not overridden by the program) with an exception; `fuel` is that
limit, counted in node executions, and running out is the outcome `StepLimit`,
which the handler treats like any other exception. The outcome `NodeFailed`
(the tool node's exception) exists in `Run` because the node raises when the
last message is not an assistant message; `RunOutcomes` proves that it never
happens from the entry point.

## Model

| member | source | states |
|---|---|---|
| `Utils.GetOrCreateUser` | app/utils.py:17-35 | raises iff the table is down; returns the stored user for a known telegram id and leaves the table unchanged; otherwise inserts exactly one new user with a fresh id; the table invariant (one user per telegram id, distinct ids) is kept |
| `Utils.AddMessageToHistory` | app/utils.py:39-64 | with the table up, the user's transcript becomes the old one (or `[]` when no row existed) plus exactly one entry with the given role and content at the end, other users' rows untouched; with the table down nothing changes |
| `Utils.GetMessageHistory` | app/utils.py:66-77 | the stored transcript, or `[]` when there is no row or the table is down |
| `Utils.GetMemories` | app/utils.py:79-90 | the stored core facts, or `[]` when there is no row or the table is down |
| `Utils.EnsureConfigurable` | app/utils.py:92-101 | fails iff `user_id` is absent from `configurable`; otherwise returns the configurable map with every key kept and `user_id` unchanged |
| `Utils.MapRoleToMessage` | app/utils.py:106-113 | a human message iff the lower-cased role (missing role read as `""`) is `"human"`, otherwise an assistant message with no tool calls; the content is the entry's content, missing content read as `""` |
| `Utils.RoleMappingExamples` | app/utils.py:108-113 | `"HuMaN"` maps to a human message; `"bot"` and a missing role map to assistant messages |
| `Stores.OwnedBy` | app/tools/memory_tools.py:80 | the user filter keeps exactly the documents whose metadata names the user |
| `Stores.Chosen` | app/tools/memory_tools.py:77-81 | the rows a `LIMIT k` search returns: at most `k` positions, each an existing row, no row twice |
| `Stores.Pick` | app/tools/memory_tools.py:77-81 | at most `k` documents, every one among the candidates |
| `Stores.SearchDocs` | app/tools/memory_tools.py:77-81 | the similarity search returns at most `k` documents, every one stored and owned by the user |
| `MemoryTools.BindArgs` | app/tools/memory_tools.py:18-94 | against the signatures at lines 18-19, 59-60 and 93-94: a bound input is for the requested tool and carries exactly the call's argument values (an absent or `null` optional is `None`, an absent `top_k` is 5); conversely every input for that tool carrying the call's values is what binds, so well-typed arguments always bind; a missing or non-string `memory` (or `query` for the search) is rejected |
| `MemoryTools.NewRecallDocument` | app/tools/memory_tools.py:35-51 | the document carries the memory, the user id and the fact id; it has a timestamp iff the timestamp given is truthy (present and non-empty), and then exactly that timestamp |
| `MemoryTools.SaveRecallMemory` | app/tools/memory_tools.py:18-57 | returns `"Memory saved successfully"` iff the config has a `user_id` and the store is up, and then the store holds exactly one more document, built from the memory, that user and the next uuid, and one uuid is used; otherwise returns `"Failed to save memory"` and the store and the uuid counter are unchanged |
| `MemoryTools.Formatted` | app/tools/memory_tools.py:82-89 | one string per document, in order, each the document's content followed by `" Timestamp:"` and the timestamp when it has one |
| `MemoryTools.FormatMemories` | app/tools/memory_tools.py:82-89 | the loop builds one string per document, in order: the content, followed by `" Timestamp:"` and the timestamp when the document has one |
| `MemoryTools.FormatRecallParts` | app/tools/memory_tools.py:84-87 | a formatted memory starts with the document's content, and the rest is `" Timestamp:" + ts` or nothing |
| `MemoryTools.SearchMemory` | app/tools/memory_tools.py:59-91 | returns `[]` when the config has no `user_id`, the store is down or `top_k` is negative; otherwise the formatted results of the store's search for `top_k` documents filtered to that user; never more than `top_k` strings |
| `MemoryTools.SearchResult` | app/tools/memory_tools.py:59-91 | the search tool on values returns at most `top_k` strings, none for a negative `top_k` |
| `MemoryTools.SearchIsUserScoped` | app/tools/memory_tools.py:77-81 | every string a search returns shows a document of the store that belongs to the caller |
| `MemoryTools.CoreFactUpdate` | app/tools/memory_tools.py:112-124 | no record gives `[memory]`; an in-bounds index replaces exactly that fact, length and other facts unchanged; a missing or out-of-range index puts the memory in front of the unchanged old list |
| `MemoryTools.StoreCoreMemory` | app/tools/memory_tools.py:93-131 | returns `"Core memory stored successfully"` iff the config has a `user_id` and the table is up, and then the user's row is the core-fact update of the old row; otherwise returns `"Failed to store core memory"` and the table is unchanged |
| `MemoryTools.InvokeEffects` | app/custom_nodes.py:44-46 | a tool call on values raises iff its arguments do not bind, with the binding's error, and then changes nothing; the save and store tools answer one of their two status texts, the search a bracketed list rendering; only the save tool changes the recall documents and the uuid counter, only the store tool the core rows |
| `MemoryTools.InvokeIsUserScoped` | app/custom_nodes.py:33-46 | a tool run under a configuration naming a user changes only that user's core row and only appends recall documents of that user |
| `MemoryTools.Invoke` | app/custom_nodes.py:44-46 | the status (raise or text) and the new stores are exactly those of the bound tool run on the stores' values (`InvokeResult`: the argument check, then the save, search or store tool); and, as `InvokeEffects` states, only the argument check raises and only the save tool touches the recall store, only the store tool the core table |
| `PyStrings.ListRepr` | app/custom_nodes.py:27 | the rendering of a list of names is bracketed |
| `PyStrings.ListReprEmpty` | app/custom_nodes.py:27 | an empty list renders as `[]` |
| `PyStrings.ListReprSingle` | app/custom_nodes.py:27 | a one-element list renders as the quoted element in brackets |
| `PyStrings.ListReprCons` | app/custom_nodes.py:27 | a longer list renders its first element quoted, then `", "`, then the rest as the rest's own rendering shows it; with the two lemmas above this fixes the rendering of every list |
| `PyStrings.JoinSplit` | app/llm_graph.py:72-73 | splitting the newline-joined memories at newlines gives back the list, when no memory holds a newline |
| `LlmGraph.PromptFor` | app/llm_graph.py:70-75 | the prompt carries the state's messages unchanged and the turn's time |
| `LlmGraph.PromptListsMemories` | app/llm_graph.py:70-75 | the prompt carries the state's messages, and its core and recall blocks list the state's memories one per line |
| `LlmGraph.AgentUpdate` | app/llm_graph.py:77 | the agent's update appends exactly one message, the model's reply with its text and tool calls, keeps every earlier message, sets `answer` to the reply's text and leaves user, query and memories alone |
| `CustomNodes.NameTable` | app/custom_nodes.py:12 | every tool's name is a key, and each key maps to a tool of the list with that name |
| `CustomNodes.NameOrder` | app/custom_nodes.py:27 | the names listed are exactly the keys of the name table, without repeats |
| `CustomNodes.CustomToolNode.constructor` | app/custom_nodes.py:10-12 | the node's name table and name list are built from the given tools |
| `CustomNodes.DispatchAllAnswers` | app/custom_nodes.py:23-55 | the loop on values gives exactly one observation per call, in order, each carrying its call's id and the text and status owed to it (correction for an unknown name, `"Error in tool <name>: <error>"` with error status for rejected arguments, the tool's status text otherwise); when no call reaches a tool, nothing changes |
| `CustomNodes.DispatchAllIsUserScoped` | app/custom_nodes.py:23-53 | whatever the calls, the loop changes only the turn user's core row and only appends recall documents of that user |
| `CustomNodes.NodeStepEffects` | app/custom_nodes.py:14-55 | the node on values raises `"Last message must be an AIMessage"` iff the messages are empty or the last is not an assistant message, and then changes nothing; with no tool calls it passes the state through unchanged; otherwise it answers every call as `DispatchAllAnswers` states; and it is scoped to the turn user |
| `CustomNodes.CustomToolNode.Call` | app/custom_nodes.py:14-55 | the update and the new stores are exactly those of `NodeStep` on the stores' values, each call run with `DispatchConfig` of the state's user; and, as `NodeStepEffects` states, it raises iff the last message is not an assistant message, passes through when there are no calls, answers each call in order with its id, changes no store when no call reaches a tool, and touches only the turn user's memories |
| `CustomNodes.CustomToolNode.RunCalls` | app/custom_nodes.py:23-53 | the loop's observations and the new stores are exactly those of `DispatchAll` over the calls, each call seeing the effects of the ones before it |
| `CustomNodes.CustomToolNode.RunCall` | app/custom_nodes.py:25-53 | one iteration's observation and new stores are exactly those of `Dispatch` for that call |
| `CustomNodes.DispatchConfigResolves` | app/custom_nodes.py:33-37 | the config the node hands to a tool resolves to the turn's `user_id` |
| `CustomNodes.RegisteredNames` | app/llm_graph.py:93 | the tool node's names are `save_recall_memory`, `search_memory`, `store_core_memory`, in that order |
| `CustomNodes.RegisteredCorrection` | app/custom_nodes.py:25-30 | the correction for an unknown name lists exactly the three registered names, quoted, in registration order |
| `LlmGraph.RouteTools` | app/llm_graph.py:84-90 | routes to the tool node iff the last message has pending tool calls, and to the end otherwise |
| `LlmGraph.Successor` | app/llm_graph.py:93-97 | the tool node always returns to the agent; the end is reached only from the agent when the last message has no pending calls |
| `LlmGraph.ApplyUpdate` | app/custom_nodes.py:20-55 | a pass-through leaves the state as it was; observations are appended after the existing messages, in order, with nothing else changed |
| `LlmGraph.NodeBehaves` | app/custom_nodes.py:14-55 | any tool node built from a name table never raises on a state ending with an assistant message and only touches the turn user's memories |
| `LlmGraph.RunOutcomes` | app/llm_graph.py:55-97 | from the entry point, a completed run keeps user, query and memories, only appends messages, ends with the model's own reply to a prompt of the run, which has no tool calls, and its `answer` is that reply's text; a model failure is the model's answer to a prompt of the run; the tool node never raises |
| `LlmGraph.RunIsUserScoped` | app/llm_graph.py:55-97 | a whole subgraph run changes only the turn user's core row and only appends recall documents of that user |
| `LlmGraph.RunFuelMonotone` | app/llm_graph.py:97-99 | a run that ends within a step budget ends the same way, with the same effects, under any larger budget |
| `LlmGraph.RunAgentStep` | app/llm_graph.py:70-77 | an agent step the model answers continues from the agent's update along the routed edge |
| `LlmGraph.RunToolStep` | app/llm_graph.py:93-95 | a tool step that returns an update continues from the merged state at the agent |
| `LlmGraph.ToolsStep` | app/llm_graph.py:93-95 | one execution of the tool node inside a run advances the run exactly as `Run` does |
| `LlmGraph.RunNode` | app/llm_graph.py:93-99 | the compiled graph's loop ends, and leaves the stores, exactly as `Run` from the entry point with the same step budget |
| `LlmGraph.RunSubgraph` | app/llm_graph.py:55-99 | the outcome and the new stores are exactly `Subgraph` (the model called on `PromptFor` of each state, the registered tool node, the budget `fuel`); a completed run ends with the model's own reply without tool calls, whose text is `answer`; a model failure is the model's answer to a prompt of the run; the tool node never raises; only the turn user's memories change |
| `LlmGraph.Loaded` | app/llm_graph.py:103-130 | the loaded state keeps user, query and messages and holds at most 5 recall memories |
| `LlmGraph.LoadMemories` | app/llm_graph.py:103-130 | with the recall store up: the stored core facts (or `[]`) and the formatted search for the query, at most 5, filtered to the user; with the recall store down both lists are `[]` |
| `LlmGraph.LatestRows` | app/llm_graph.py:137-140 | the history query yields at most six rows |
| `LlmGraph.Reverse` | app/llm_graph.py:144 | the rows in reverse order, element by element |
| `LlmGraph.ExtendAll` | app/llm_graph.py:143-145 | the `extend` loop concatenates the rows' transcripts in the given order |
| `LlmGraph.OneRowOrdersAgree` | app/llm_graph.py:171-176 | with at most one row, concatenating newest-first (save) and oldest-first (load) agree |
| `LlmGraph.TwoRowsDisagree` | app/llm_graph.py:144-175 | with two rows the save order puts the newer row's entries first, unlike the load order |
| `LlmGraph.LatestRowsFlatten` | app/llm_graph.py:137-149 | what the history query reads back is the user's stored transcript |
| `LlmGraph.LoadHistory` | app/llm_graph.py:134-152 | the rows the history query reads, or nothing when the read fails |
| `LlmGraph.SaveAnswer` | app/llm_graph.py:163-192 | with the rows read and the table up, the user's transcript gains exactly one `"bot"` entry with the answer at the end (or becomes that entry when there was no row); after a failed read or with the table down nothing changes |
| `LlmGraph.ProcessMessage` | app/llm_graph.py:132-194 | the outcome and the new memory stores are exactly `Subgraph` on the given state, so the returned result does not depend on the history table, and a failed save does not change it; a failed subgraph is passed on and no entry is written; a completed run's transcript gains exactly one `"bot"` entry with the answer when the table is up |
| `LlmGraph.MainGraph` | app/llm_graph.py:197-205 | the loaded state is `Loaded` of the handler's state and the memories before the turn; the outcome and the new stores are exactly `Subgraph` from that loaded state; the transcript effect is that of `process_message` |
| `MessageHandlers.Window` | app/handlers/message_handlers.py:30 | the last `min(6, n)` transcript entries, in order, each mapped by role |
| `MessageHandlers.InitialState` | app/handlers/message_handlers.py:32-39 | query is the text, messages the window, both memory lists empty, answer `""` |
| `MessageHandlers.ReplyText` | app/handlers/message_handlers.py:45 | the answer when present, the fixed apology otherwise |
| `MessageHandlers.RecordTurn` | app/handlers/message_handlers.py:19-44 | appending the human entry, then the bot entry when there is an answer, leaves the same table as appending the turn's entries at once |
| `MessageHandlers.Respond` | app/handlers/message_handlers.py:19-51 | the text is appended as `"human"` before the graph runs; the initial state's window is taken after that append; the outcome and the new memory stores are exactly `Subgraph` from the loaded initial state; the reply is the answer of a completed run and the fixed error text otherwise; the transcript grows by the human entry plus the bot entry exactly when the run completed |
| `MessageHandlers.HandleText` | app/handlers/message_handlers.py:16-51 | a down user table escapes the handler and changes nothing, the users table included; otherwise a known user leaves the users table as it was and a new one adds exactly one user with the next id, and the turn goes as `Respond` states: outcome and stores exactly `Subgraph` from the loaded initial state, reply from the outcome, transcript grown by the turn's entries |
| `MessageHandlers.TranscriptAfterTurns` | app/handlers/message_handlers.py:16-51 | after N completed turns the transcript has grown by exactly 2N entries, old entries untouched, each turn a `"human"` entry followed by its `"bot"` entry |

## Left out

- The language model and the system prompt text: the model is a function argument; only the prompt variables are modelled.
- Embeddings and relevance: which of a user's documents a search returns, and in which order, is the opaque `rank` function; only the user filter, the limit and that no row comes back twice are stated.
- SQL sessions, the ORM, migrations, JSON encoding and decoding: a table is a map from user id to a list, and JSON is an identity round trip.
- The `created_at` and `updated_at` columns: they only order rows and carry no data the turn reads.
- Concurrency and `async`: everything runs sequentially; read-modify-write races between turns are not modelled.
- Logging.
- The clock and `uuid4`: one `now` string per turn stands for every `utcnow()` read in it, and uuids come from a counter into an opaque id function; nothing relies on the ids being distinct.
- Partial failures inside one call: a store is either up or down for a whole call, so a failure between a read and the following write of the same table is not expressible.
- `MessageHandlers.HandleText`: the history table's availability is one flag for the whole turn, so a turn where the human entry is written but the later read in `process_message` fails (leaving no bot entry) is not expressible.
- `LlmGraph.RunSubgraph`: the loop is bounded by `fuel`, the library's recursion limit counted in node executions; no termination claim is made about the model's behaviour.
- The message reducer's merging of messages that share an id: observations and replies are appended.
- The `ToolExecutor` field built by the node's constructor: it is never used.
- `MemoryTools.BindArgs`: argument validation follows simple type rules (a string must be a string, an integer an integer, a `null` stands for `None`); the validator's lax coercions and its exact error text are not modelled, and an absent `timestamp` is read as `None`.
- `MemoryTools.SearchMemory`: a negative `top_k` is treated as a store error giving `[]`.
- `PyStrings.ListRepr`: strings are rendered in single quotes with no escaping of quotes or backslashes.
- `Utils.MapRoleToMessage`: `lower()` is modelled on ASCII letters only.
- `MessageHandlers.ReplyText`: the apology branch is unreachable in the program, because the final state always carries `answer`.
- The round trip between a saved recall fact and a later search: the ranking is opaque, so no saved fact is promised to come back.
