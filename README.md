# Retrieval-augmented question answering: pipeline and session memory

This project models the deterministic core of a question-answering service
that answers a user's query either from an ingested document corpus or from a
web search, and keeps per-session conversational memory.

- `memory.dfy` (module `Memory`) models the session memory store
  (`MemoryManager`): a table from session id to an ordered list of messages,
  changed in place. The class `MemoryManager` holds a `map<string, seq<Message>>`
  field; its methods are proved against the functions `History`, `Appended`
  and `Cleared`. A replay of any series of add/clear calls is tied to an
  independent definition, "the messages added since the last clear".
- `answer.dfy` (module `AnswerAgent`) models `generate_answer`: read the
  session's history, call the language model once, append exactly one
  `{query, answer}` message, return the answer.
- `lang_graph.dfy` (module `LangGraph`) models the four pipeline nodes
  (clarify, route, retrieve, answer), the mutable state record they share
  (class `State`, whose value is the datatype `StateRecord`), the edge table
  of the compiled graph, and `graph.invoke` as a loop that follows the edges
  from the entry point until `END`. Keys of the state record that no node has
  written yet are `None`; each node requires only the keys it reads. The
  module-level singletons (`llm`, `tavily`, `memory`) are explicit
  parameters: the memory store is a `MemoryManager` object, and every
  language-model, search and vector-store call is a field of the `Services`
  datatype, a total function of what that call's prompt is built from.

Two behaviours of the code a reader may not expect, which the model keeps:

- The message the answer step stores holds the **clarified** query, not the
  raw query the user sent: the answer node passes `clarified_query` to
  `generate_answer` (app/src/lang_graph.py:42). `AskRecordsOneTurn` states it.
- The route decision is the router's **raw text**, stored without any
  matching to a two-value tag (app/src/lang_graph.py:29). Only the exact
  string `"pdf"` selects the corpus retriever; anything else, including
  `"PDF"` or a quoted `"pdf"`, takes the web path (app/src/lang_graph.py:34-37).
  `UnforcedRouteIsRouterText` and `NearMissRoutesGoToWeb` state it.

## Model

| member | source | states |
|---|---|---|
| `Memory.Appended` | app/src/memory.py:8-9 | after an append the session is stored, its history is the old history followed by the message, the key set grows by that id only, every other session's history is unchanged, and no stored session becomes empty |
| `Memory.Cleared` | app/src/memory.py:14-16 | after a clear the id is no longer a key and its history is empty, every other session's history and key is unchanged, and no stored session becomes empty |
| `Memory.ClearAbsentIsNoOp` | app/src/memory.py:15-16 | clearing a session that is not stored leaves the table as it was |
| `Memory.ClearIdempotent` | app/src/memory.py:14-16 | clearing twice has the effect of clearing once |
| `Memory.StoredIffHistory` | app/src/memory.py:6-12 | in a table that keeps the store's invariant, a session is a key exactly when its history is non-empty |
| `Memory.ReplayHistory` | app/src/memory.py:4-16 | after any series of add and clear calls on a new store, a session's history is exactly the messages added to it since its last clear, in call order |
| `Memory.ReplayKeepsSessionsNonEmpty` | app/src/memory.py:4-16 | no series of calls leaves a stored session with an empty list |
| `Memory.ApplyKeepsPrefix` | app/src/memory.py:8-16 | any call other than clearing a session keeps that session's history as a prefix of its new history |
| `Memory.AppendOnlyUntilClear` | app/src/memory.py:8-16 | while a session is not cleared, its history only grows: the earlier history is a prefix of the later one |
| `Memory.MemoryManager.constructor` | app/src/memory.py:5-6 | a new store holds no session |
| `Memory.MemoryManager.AddMessage` | app/src/memory.py:8-9 | the table becomes `Appended` of the old table (the session is created if absent) and the invariant is kept |
| `Memory.MemoryManager.GetSessionHistory` | app/src/memory.py:11-12 | returns the stored list, or the empty sequence for an unknown session; it changes nothing, so no key is added |
| `Memory.MemoryManager.ClearSession` | app/src/memory.py:14-16 | the table becomes `Cleared` of the old table, a no-op on an absent id, and the invariant is kept |
| `AnswerAgent.GenerateAnswer` | app/src/agents/answer.py:5-15 | the model is asked with the history read before the append; exactly one message `{query, answer}` is appended to that session and no other session changes; the returned value is the stored answer |
| `AnswerAgent.AnswerPromptExcludesOwnTurn` | app/src/agents/answer.py:6-14 | the history in the answer prompt is the session's new history without its last message, and that last message is the turn being answered |
| `LangGraph.State.constructor` | app/src/main.py:13 | a run starts from a record holding only query, session id and the web-search flag |
| `LangGraph.Clarified` | app/src/lang_graph.py:20-22 | the clarify node writes only the clarified query, computed from the raw query and the session's history |
| `LangGraph.Routed` | app/src/lang_graph.py:25-30 | the route node writes only the route decision: `"web"` when the flag is set, otherwise the router's output for the clarified query, unchanged |
| `LangGraph.Retrieved` | app/src/lang_graph.py:33-38 | the retrieve node writes only the context: the corpus retriever's result when the route is exactly `"pdf"`, the web search's result for any other route, both given the clarified query |
| `LangGraph.Answered` | app/src/lang_graph.py:41-43 | the answer node writes only the response, and the store gains the message made of the clarified query and that response |
| `LangGraph.ClarificationNode` | app/src/lang_graph.py:20-22 | the shared record becomes `Clarified` of the old record; the store is not modified |
| `LangGraph.RoutingNode` | app/src/lang_graph.py:25-30 | the shared record becomes `Routed` of the old record |
| `LangGraph.RetrievalNode` | app/src/lang_graph.py:33-38 | the shared record becomes `Retrieved` of the old record |
| `LangGraph.AnswerNode` | app/src/lang_graph.py:41-43 | record and store become `Answered` of the old ones |
| `LangGraph.NoBackEdges` | app/src/lang_graph.py:51-54 | every edge goes one step closer to `END`, so the graph has no cycle |
| `LangGraph.GraphIsLinear` | app/src/lang_graph.py:47-55 | from the entry point the graph visits clarify, route, retrieve, answer, in that order, once each, and ends |
| `LangGraph.Step` | app/src/lang_graph.py:20-43 | each node finds the keys it reads already written and leaves written the keys its successor reads; only the answer node changes the store |
| `LangGraph.RunFrom` | app/src/lang_graph.py:46-56 | a run from any node fills every key, keeps the request fields, changes no other session, and adds exactly one message to the request's session when the answer node is still ahead, none otherwise |
| `LangGraph.Invoke` | app/src/lang_graph.py:46-56 | following the edges from the entry point and running each node on the shared record ends in the outcome `Ask` describes |
| `LangGraph.Ask` | app/src/lang_graph.py:46-56 | a run fills every key of the record and keeps the request's session id |
| `LangGraph.GraphRunsPipeline` | app/src/lang_graph.py:47-55 | running the compiled graph is running the four nodes once each in the order clarify, route, retrieve, answer |
| `LangGraph.AskClosedForm` | app/src/lang_graph.py:20-43 | the whole outcome of a run; the answer step sees the same history as the clarify step |
| `LangGraph.ForcedWebIgnoresRouter` | app/src/lang_graph.py:25-27 | with the flag set the route is `"web"`, the web search runs, and any router gives the same outcome |
| `LangGraph.UnforcedRouteIsRouterText` | app/src/lang_graph.py:28-37 | without the flag the route is the router's text for the clarified query, and the corpus retriever runs exactly when that text is `"pdf"` |
| `LangGraph.NearMissRoutesGoToWeb` | app/src/lang_graph.py:34-37 | router text such as `"PDF"`, a quoted `"pdf"`, `" pdf"` or `"pdf\n"` takes the web path |
| `LangGraph.OnlyClarifiedQueryFlowsOn` | app/src/lang_graph.py:33-43 | retrievers and answer step receive only the clarified query: two requests whose queries clarify to the same text end with the same route, context, response and store |
| `LangGraph.AskRecordsOneTurn` | app/src/lang_graph.py:41-43 | one run appends exactly one message to its session, made of the clarified query and the returned response, and changes no other session |
| `LangGraph.AskClarifiesWithHistory` | app/src/lang_graph.py:20-22 | the clarify step reads the session's history as it stood when the run began |
| `LangGraph.AskExtendsHistory` | app/src/lang_graph.py:41-43 | one run extends the history of its own session by its turn and leaves every other session's history unchanged |
| `LangGraph.Converse` | app/src/lang_graph.py:17 | runs a series of requests on one shared store, recording one finished record per request |
| `LangGraph.ConversationHistory` | app/src/lang_graph.py:17-43 | after a series of requests, a session's history is its earlier history followed by one message per request on it, in request order |
| `LangGraph.TurnsCountAsks` | app/src/lang_graph.py:41-43 | the turns recorded for a session number exactly the requests on it |
| `LangGraph.HistoryCountsAsks` | app/src/lang_graph.py:17-43 | a session's history grows by exactly one message per completed request on it |
| `LangGraph.LaterRequestsSeeEarlierTurns` | app/src/lang_graph.py:20-43 | each request's clarify step and its answer step both see its session's earlier history followed by the turns of every earlier request on that session |

## Left out

- The language-model, web-search and vector-store calls (`clarify_query`,
  `route_query`, `retrieve_and_answer`, `web_search`, `llm.invoke`, with their
  prompt wording, the `k=5` and `max_results=3` limits and the newline join of
  results) are fields of `Services`, arbitrary total functions. Each is taken
  as a function of what its prompt is built from; prompt formatting itself is
  not modelled.
- `LangGraph.Converse` gives each request its own `Services`, so a model that
  answers the same prompt differently on different requests is covered; within
  one run each external call is made once, so a function suffices there.
- Errors raised by the external clients, which abort a run, are not modelled:
  every external call returns a string.
- The ingestion job (app/scripts/ingest_pdfs.py) is file-system, PDF-parsing and
  embedding I/O and is not part of this model.
- The HTTP endpoints (app/src/main.py) are not modelled beyond the initial
  record `graph.invoke` receives; `/clear_memory` only calls `clear_session`,
  which `Memory.MemoryManager.ClearSession` covers.
- Request validation of `QueryRequest` is library behaviour; only its fields
  and the default `web_search = False` enter the model, as `Request` (whose
  `webSearch` defaults to `false`).
- Concurrent requests on the shared store are not modelled: calls are
  sequential.
- `Memory.MemoryManager.GetSessionHistory` returns a value; in the source it
  returns the stored list object itself, so a later append is visible through
  it. No code in the core reads that list after appending, so the model does
  not capture the aliasing.
- The graph builder (`StateGraph`, `add_node`, `add_edge`, `set_entry_point`,
  `compile`) is library code; the model keeps only the edge table it compiles
  to (`LangGraph.Successor`, `LangGraph.EntryPoint`).
