/**
 The request pipeline: a graph of four nodes, clarify -> route -> retrieve ->
 answer -> END, run over one mutable state record per request. Each node
 writes one field of the record; the answer node is the only one that writes
 the memory store.
 */
module LangGraph {
  import opened Memory
  import opened AnswerAgent

  datatype Option<T> = None | Some(value: T)

  /** One request: query text, session id and the flag that forces web search
      (false unless the caller sets it). */
  datatype Request = Request(query: string, sessionId: string, webSearch: bool := false)

  /** The external calls the pipeline makes, passed in instead of reached
      through module-level clients. Each is some function of what its prompt
      is built from. */
  datatype Services = Services(
    clarify: (string, seq<Message>) -> string,  // rewrite of the query given the history
    route: string -> string,                    // raw router text for a query
    retrieveAndAnswer: string -> string,        // corpus search plus a model call
    webSearch: string -> string,                // web search plus a model call
    answer: AnswerModel)                        // the model call of the answer step

  /** The value of the state record. A key not yet written is `None`. */
  datatype StateRecord = StateRecord(
    query: string,
    sessionId: string,
    clarifiedQuery: Option<string>,
    routeDecision: Option<string>,
    context: Option<string>,
    response: Option<string>,
    webSearch: bool)

  /** The record a run starts from: only query, session id and flag are set. */
  function Initial(req: Request): StateRecord
  {
    StateRecord(req.query, req.sessionId, None, None, None, None, req.webSearch)
  }

  /** The state record one run threads through the nodes. */
  class State {
    var query: string
    var sessionId: string
    var clarifiedQuery: Option<string>
    var routeDecision: Option<string>
    var context: Option<string>
    var response: Option<string>
    var webSearch: bool

    function Value(): StateRecord
      reads this
    {
      StateRecord(query, sessionId, clarifiedQuery, routeDecision, context, response, webSearch)
    }

    constructor (req: Request)
      ensures Value() == Initial(req)
    {
      query, sessionId, webSearch := req.query, req.sessionId, req.webSearch;
      clarifiedQuery, routeDecision, context, response := None, None, None, None;
    }
  }

  /** The store and the record after a node or a whole run. */
  datatype Outcome = Outcome(state: StateRecord, sessions: Sessions)

  // ---------------------------------------------------------------------------
  // The nodes, as functions of the record and the store

  /** clarification_node: writes the clarified query, computed from the raw
      query and the session's history; the store is only read. */
  function Clarified(svc: Services, st: StateRecord, sessions: Sessions): (r: StateRecord)
    ensures r == st.(clarifiedQuery := r.clarifiedQuery)
    ensures r.clarifiedQuery == Some(svc.clarify(st.query, History(sessions, st.sessionId)))
  {
    st.(clarifiedQuery := Some(svc.clarify(st.query, History(sessions, st.sessionId))))
  }

  /** routing_node: the flag forces "web" without consulting the router;
      otherwise the router's raw text is stored as it is. */
  function Routed(svc: Services, st: StateRecord): (r: StateRecord)
    requires st.webSearch || st.clarifiedQuery.Some?
    ensures r == st.(routeDecision := r.routeDecision)
    ensures st.webSearch ==> r.routeDecision == Some("web")
    ensures !st.webSearch ==> r.routeDecision == Some(svc.route(st.clarifiedQuery.value))
  {
    if st.webSearch then st.(routeDecision := Some("web"))
    else st.(routeDecision := Some(svc.route(st.clarifiedQuery.value)))
  }

  /** retrieval_node: the corpus retriever runs exactly when the route is the
      string "pdf"; every other string takes the web path. Both get the
      clarified query. */
  function Retrieved(svc: Services, st: StateRecord): (r: StateRecord)
    requires st.routeDecision.Some? && st.clarifiedQuery.Some?
    ensures r == st.(context := r.context)
    ensures st.routeDecision.value == "pdf" ==> r.context == Some(svc.retrieveAndAnswer(st.clarifiedQuery.value))
    ensures st.routeDecision.value != "pdf" ==> r.context == Some(svc.webSearch(st.clarifiedQuery.value))
  {
    if st.routeDecision.value == "pdf" then st.(context := Some(svc.retrieveAndAnswer(st.clarifiedQuery.value)))
    else st.(context := Some(svc.webSearch(st.clarifiedQuery.value)))
  }

  /** answer_node: writes the response, and the store gains one message made of
      the clarified query and that response. */
  function Answered(svc: Services, st: StateRecord, sessions: Sessions): (r: Outcome)
    requires st.clarifiedQuery.Some? && st.context.Some?
    ensures r.state == st.(response := r.state.response)
    ensures var t := AnswerTurn(svc.answer, sessions, st.clarifiedQuery.value, st.context.value, st.sessionId);
            r.state.response == Some(t.answer) && r.sessions == Appended(sessions, st.sessionId, t)
  {
    var t := AnswerTurn(svc.answer, sessions, st.clarifiedQuery.value, st.context.value, st.sessionId);
    Outcome(st.(response := Some(t.answer)), Appended(sessions, st.sessionId, t))
  }

  // ---------------------------------------------------------------------------
  // The nodes, as methods on the shared record and the store

  method ClarificationNode(st: State, svc: Services, memory: MemoryManager)
    modifies st
    ensures st.Value() == Clarified(svc, old(st.Value()), memory.sessions)
  {
    var history := memory.GetSessionHistory(st.sessionId);
    st.clarifiedQuery := Some(svc.clarify(st.query, history));
  }

  method RoutingNode(st: State, svc: Services)
    requires st.webSearch || st.clarifiedQuery.Some?
    modifies st
    ensures st.Value() == Routed(svc, old(st.Value()))
  {
    if st.webSearch {
      st.routeDecision := Some("web");
    } else {
      st.routeDecision := Some(svc.route(st.clarifiedQuery.value));
    }
  }

  method RetrievalNode(st: State, svc: Services)
    requires st.routeDecision.Some? && st.clarifiedQuery.Some?
    modifies st
    ensures st.Value() == Retrieved(svc, old(st.Value()))
  {
    if st.routeDecision.value == "pdf" {
      st.context := Some(svc.retrieveAndAnswer(st.clarifiedQuery.value));
    } else {
      st.context := Some(svc.webSearch(st.clarifiedQuery.value));
    }
  }

  method AnswerNode(st: State, svc: Services, memory: MemoryManager)
    requires st.clarifiedQuery.Some? && st.context.Some?
    requires memory.Valid()
    modifies st, memory
    ensures memory.Valid()
    ensures Outcome(st.Value(), memory.sessions) == Answered(svc, old(st.Value()), old(memory.sessions))
  {
    var answer := GenerateAnswer(st.clarifiedQuery.value, st.context.value, st.sessionId, svc.answer, memory);
    st.response := Some(answer);
  }

  // ---------------------------------------------------------------------------
  // The compiled graph

  /** The graph's nodes; `End` is the terminal marker. */
  datatype Node = Clarify | Route | Retrieve | Answer | End

  const EntryPoint: Node := Clarify

  /** The edge table: one outgoing edge per node. */
  function Successor(n: Node): Node
    requires n != End
  {
    match n
    case Clarify => Route
    case Route => Retrieve
    case Retrieve => Answer
    case Answer => End
  }

  /** Distance to `End`; every edge lowers it. */
  function Rank(n: Node): nat
  {
    match n
    case Clarify => 4
    case Route => 3
    case Retrieve => 2
    case Answer => 1
    case End => 0
  }

  /** Every edge goes forward, so the graph has no cycle and no back edge. */
  lemma NoBackEdges(n: Node)
    requires n != End
    ensures Rank(Successor(n)) == Rank(n) - 1
  {
  }

  /** The nodes visited from `n` until `End`. */
  function Path(n: Node): seq<Node>
    decreases Rank(n)
  {
    if n == End then [] else [n] + Path(Successor(n))
  }

  /** From the entry point the graph visits clarify, route, retrieve and answer,
      each exactly once, in that order, and then ends. */
  lemma GraphIsLinear()
    ensures Path(EntryPoint) == [Clarify, Route, Retrieve, Answer]
  {
  }

  /** The keys that the nodes before `n` have written. */
  ghost predicate Written(n: Node, st: StateRecord)
  {
    match n
    case Clarify => true
    case Route => st.clarifiedQuery.Some?
    case Retrieve => st.clarifiedQuery.Some? && st.routeDecision.Some?
    case Answer => st.clarifiedQuery.Some? && st.routeDecision.Some? && st.context.Some?
    case End => st.clarifiedQuery.Some? && st.routeDecision.Some? && st.context.Some? && st.response.Some?
  }

  /** One node's effect. Each node finds the keys it reads written, and
      leaves the keys its successor reads written. */
  function Step(svc: Services, n: Node, st: StateRecord, sessions: Sessions): (r: Outcome)
    requires n != End && Written(n, st)
    ensures Written(Successor(n), r.state)
    ensures r.state.query == st.query && r.state.sessionId == st.sessionId && r.state.webSearch == st.webSearch
    ensures n != Answer ==> r.sessions == sessions
    ensures n == Answer ==>
              r.sessions == Appended(sessions, st.sessionId, Message(st.clarifiedQuery.value, r.state.response.value))
  {
    match n
    case Clarify => Outcome(Clarified(svc, st, sessions), sessions)
    case Route => Outcome(Routed(svc, st), sessions)
    case Retrieve => Outcome(Retrieved(svc, st), sessions)
    case Answer => Answered(svc, st, sessions)
  }

  /** Running the graph from node `n` until `End`. The run fills every key,
      keeps the request fields, touches no other session, and adds one message
      to the request's session exactly when the answer node is still ahead. */
  function RunFrom(svc: Services, n: Node, st: StateRecord, sessions: Sessions): (r: Outcome)
    requires Written(n, st)
    decreases Rank(n)
    ensures Written(End, r.state)
    ensures r.state.query == st.query && r.state.sessionId == st.sessionId && r.state.webSearch == st.webSearch
    ensures NoEmptySession(sessions) ==> NoEmptySession(r.sessions)
    ensures forall other :: other != st.sessionId ==> History(r.sessions, other) == History(sessions, other)
    ensures History(sessions, st.sessionId) <= History(r.sessions, st.sessionId)
    ensures Rank(Answer) <= Rank(n) ==> r.sessions.Keys == sessions.Keys + {st.sessionId}
    ensures |History(r.sessions, st.sessionId)| == |History(sessions, st.sessionId)| + (if Rank(Answer) <= Rank(n) then 1 else 0)
    ensures Rank(n) < Rank(Answer) ==> r.sessions == sessions
  {
    if n == End then Outcome(st, sessions)
    else
      var o := Step(svc, n, st, sessions);
      RunFrom(svc, Successor(n), o.state, o.sessions)
  }

  /** graph.invoke: follows the edges from the entry point, running each node
      on the shared record, until `End`. */
  method Invoke(svc: Services, memory: MemoryManager, req: Request) returns (st: State)
    requires memory.Valid()
    modifies memory
    ensures fresh(st)
    ensures memory.Valid()
    ensures Outcome(st.Value(), memory.sessions) == Ask(svc, req, old(memory.sessions))
  {
    st := new State(req);
    var node := EntryPoint;
    while node != End
      invariant Written(node, st.Value())
      invariant memory.Valid()
      invariant RunFrom(svc, node, st.Value(), memory.sessions) == RunFrom(svc, EntryPoint, Initial(req), old(memory.sessions))
      decreases Rank(node)
    {
      if node == Clarify {
        ClarificationNode(st, svc, memory);
      } else if node == Route {
        RoutingNode(st, svc);
      } else if node == Retrieve {
        RetrievalNode(st, svc);
      } else {
        AnswerNode(st, svc, memory);
      }
      node := Successor(node);
    }
    GraphRunsPipeline(svc, Initial(req), old(memory.sessions));
  }

  // ---------------------------------------------------------------------------
  // What one run does

  /** The four steps written out one after another: the reference the graph
      run is compared with. */
  function Pipeline(svc: Services, st: StateRecord, sessions: Sessions): Outcome
  {
    var clarified := Clarified(svc, st, sessions);
    var routed := Routed(svc, clarified);
    var retrieved := Retrieved(svc, routed);
    Answered(svc, retrieved, sessions)
  }

  /** The outcome of one request: the graph's run, by GraphRunsPipeline. */
  function Ask(svc: Services, req: Request, sessions: Sessions): (o: Outcome)
    ensures Written(End, o.state) && o.state.sessionId == req.sessionId
  {
    Pipeline(svc, Initial(req), sessions)
  }

  /** Running the graph from its entry point is running clarify, route,
      retrieve and answer once each, in that order. */
  lemma GraphRunsPipeline(svc: Services, st: StateRecord, sessions: Sessions)
    ensures RunFrom(svc, EntryPoint, st, sessions) == Pipeline(svc, st, sessions)
  {
  }

  /** The whole outcome of one run, in closed form. The answer step sees the
      same history as the clarify step, since nothing writes the store in
      between. */
  lemma AskClosedForm(svc: Services, req: Request, sessions: Sessions)
    ensures var history := History(sessions, req.sessionId);
            var cq := svc.clarify(req.query, history);
            var route := if req.webSearch then "web" else svc.route(cq);
            var context := if route == "pdf" then svc.retrieveAndAnswer(cq) else svc.webSearch(cq);
            var response := svc.answer(cq, context, history);
            Ask(svc, req, sessions) ==
              Outcome(StateRecord(req.query, req.sessionId, Some(cq), Some(route), Some(context), Some(response), req.webSearch),
                      Appended(sessions, req.sessionId, Message(cq, response)))
  {
  }

  /** The flag forces the web route and the web retriever, and the router is
      not consulted: any router gives the same outcome. */
  lemma ForcedWebIgnoresRouter(svc: Services, router: string -> string, req: Request, sessions: Sessions)
    requires req.webSearch
    ensures var o := Ask(svc, req, sessions);
            o.state.routeDecision == Some("web")
            && o.state.context == Some(svc.webSearch(o.state.clarifiedQuery.value))
    ensures Ask(svc.(route := router), req, sessions) == Ask(svc, req, sessions)
  {
    AskClosedForm(svc, req, sessions);
    AskClosedForm(svc.(route := router), req, sessions);
  }

  /** Without the flag, the route is the router's text for the clarified query,
      unchanged, and the corpus retriever runs exactly when that text is "pdf". */
  lemma UnforcedRouteIsRouterText(svc: Services, req: Request, sessions: Sessions)
    requires !req.webSearch
    ensures var o := Ask(svc, req, sessions);
            var cq := o.state.clarifiedQuery.value;
            o.state.routeDecision == Some(svc.route(cq))
            && (svc.route(cq) == "pdf" ==> o.state.context == Some(svc.retrieveAndAnswer(cq)))
            && (svc.route(cq) != "pdf" ==> o.state.context == Some(svc.webSearch(cq)))
  {
    AskClosedForm(svc, req, sessions);
  }

  /** Router text that only resembles "pdf" (another case, quotes, spacing)
      takes the web path. */
  lemma NearMissRoutesGoToWeb(svc: Services, st: StateRecord)
    requires st.clarifiedQuery.Some?
    requires st.routeDecision in {Some("PDF"), Some("\"pdf\""), Some(" pdf"), Some("pdf\n")}
    ensures Retrieved(svc, st).context == Some(svc.webSearch(st.clarifiedQuery.value))
  {
  }

  /** The retrievers and the answer step see only the clarified query: two
      requests whose queries clarify to the same text have the same route,
      context, response and store afterwards. */
  lemma OnlyClarifiedQueryFlowsOn(svc: Services, req1: Request, req2: Request, sessions: Sessions)
    requires req1.sessionId == req2.sessionId && req1.webSearch == req2.webSearch
    requires svc.clarify(req1.query, History(sessions, req1.sessionId))
          == svc.clarify(req2.query, History(sessions, req2.sessionId))
    ensures var o1, o2 := Ask(svc, req1, sessions), Ask(svc, req2, sessions);
            o1.state.routeDecision == o2.state.routeDecision
            && o1.state.context == o2.state.context
            && o1.state.response == o2.state.response
            && o1.sessions == o2.sessions
  {
    AskClosedForm(svc, req1, sessions);
    AskClosedForm(svc, req2, sessions);
  }

  /** One run adds exactly one message to the request's session, made of the
      clarified query (not the raw one) and the response the run returns, and
      changes no other session. */
  lemma AskRecordsOneTurn(svc: Services, req: Request, sessions: Sessions)
    ensures var o := Ask(svc, req, sessions);
            History(o.sessions, req.sessionId)
              == History(sessions, req.sessionId) + [Message(o.state.clarifiedQuery.value, o.state.response.value)]
            && o.state.clarifiedQuery == Some(svc.clarify(req.query, History(sessions, req.sessionId)))
            && o.sessions.Keys == sessions.Keys + {req.sessionId}
            && (forall other :: other != req.sessionId ==> History(o.sessions, other) == History(sessions, other))
  {
    AskClosedForm(svc, req, sessions);
  }

  /** The clarify step of a run reads the session's history as it stood when
      the run started. */
  lemma AskClarifiesWithHistory(svc: Services, req: Request, sessions: Sessions)
    ensures Ask(svc, req, sessions).state.clarifiedQuery
              == Some(svc.clarify(req.query, History(sessions, req.sessionId)))
  {
    AskClosedForm(svc, req, sessions);
  }

  // ---------------------------------------------------------------------------
  // Several requests in a row

  /** One request together with the external behaviour it meets. */
  datatype AskCall = AskCall(svc: Services, req: Request)

  /** The final records of a series of runs and the store after the last. */
  datatype Transcript = Transcript(states: seq<StateRecord>, sessions: Sessions)

  /** Every run in `states` went through to `End`. */
  ghost predicate AllFinished(states: seq<StateRecord>)
  {
    forall i :: 0 <= i < |states| ==> Written(End, states[i])
  }

  /** Running `calls` one after another on a shared store. */
  function Converse(calls: seq<AskCall>, sessions: Sessions): (t: Transcript)
    ensures |t.states| == |calls|
    ensures AllFinished(t.states)
    ensures forall i :: 0 <= i < |calls| ==> t.states[i].sessionId == calls[i].req.sessionId
  {
    if calls == [] then Transcript([], sessions)
    else
      var o := Ask(calls[0].svc, calls[0].req, sessions);
      var rest := Converse(calls[1..], o.sessions);
      Transcript([o.state] + rest.states, rest.sessions)
  }

  /** The message a finished run records: its clarified query and its response. */
  function TurnOf(st: StateRecord): Message
    requires Written(End, st)
  {
    Message(st.clarifiedQuery.value, st.response.value)
  }

  /** The messages the runs in `states` recorded for session `id`, in order. */
  function TurnsOf(states: seq<StateRecord>, id: string): seq<Message>
    requires AllFinished(states)
  {
    if states == [] then []
    else (if states[0].sessionId == id then [TurnOf(states[0])] else []) + TurnsOf(states[1..], id)
  }

  /** How many of `calls` are requests on session `id`. */
  function AsksOn(calls: seq<AskCall>, id: string): nat
  {
    if calls == [] then 0
    else (if calls[0].req.sessionId == id then 1 else 0) + AsksOn(calls[1..], id)
  }

  /** What one run does to the history of any session `id`. */
  lemma AskExtendsHistory(svc: Services, req: Request, sessions: Sessions, id: string)
    ensures var o := Ask(svc, req, sessions);
            History(o.sessions, id) == History(sessions, id) + (if req.sessionId == id then [TurnOf(o.state)] else [])
  {
    AskRecordsOneTurn(svc, req, sessions);
  }

  /** `TurnsOf` of a series that starts with the run `st`. */
  lemma TurnsOfCons(st: StateRecord, states: seq<StateRecord>, id: string)
    requires Written(End, st) && AllFinished(states)
    ensures AllFinished([st] + states)
    ensures TurnsOf([st] + states, id) == (if st.sessionId == id then [TurnOf(st)] else []) + TurnsOf(states, id)
  {
  }

  /** The history fact for a series follows from the one for the series
      after its first request. */
  lemma HistoryShift(calls: seq<AskCall>, sessions: Sessions, id: string)
    requires calls != []
    requires var o := Ask(calls[0].svc, calls[0].req, sessions);
             var rest := Converse(calls[1..], o.sessions);
             History(rest.sessions, id) == History(o.sessions, id) + TurnsOf(rest.states, id)
    ensures var t := Converse(calls, sessions);
            History(t.sessions, id) == History(sessions, id) + TurnsOf(t.states, id)
  {
    var o := Ask(calls[0].svc, calls[0].req, sessions);
    var rest := Converse(calls[1..], o.sessions);
    var t := Converse(calls, sessions);
    assert t == Transcript([o.state] + rest.states, rest.sessions);
    AskExtendsHistory(calls[0].svc, calls[0].req, sessions, id);
    var x := if calls[0].req.sessionId == id then [TurnOf(o.state)] else [];
    TurnsOfCons(o.state, rest.states, id);
    AppendAssociates(History(sessions, id), x, TurnsOf(rest.states, id));
  }

  /** After a series of requests, a session's history is its earlier history
      followed by one message per request on it, in request order. */
  lemma {:induction false} ConversationHistory(calls: seq<AskCall>, sessions: Sessions, id: string)
    ensures var t := Converse(calls, sessions);
            History(t.sessions, id) == History(sessions, id) + TurnsOf(t.states, id)
  {
    if calls != [] {
      var o := Ask(calls[0].svc, calls[0].req, sessions);
      ConversationHistory(calls[1..], o.sessions, id);
      HistoryShift(calls, sessions, id);
    }
  }

  /** The number of messages `TurnsOf` lists for a session is the number of
      requests on that session. */
  lemma {:induction false} TurnsCountAsks(calls: seq<AskCall>, sessions: Sessions, id: string)
    ensures |TurnsOf(Converse(calls, sessions).states, id)| == AsksOn(calls, id)
  {
    if calls != [] {
      var o := Ask(calls[0].svc, calls[0].req, sessions);
      var t := Converse(calls, sessions);
      assert t.states[1..] == Converse(calls[1..], o.sessions).states;
      TurnsCountAsks(calls[1..], o.sessions, id);
    }
  }

  /** For a session never cleared, its history grows by exactly one message
      per completed request on it. */
  lemma HistoryCountsAsks(calls: seq<AskCall>, sessions: Sessions, id: string)
    ensures |History(Converse(calls, sessions).sessions, id)| == |History(sessions, id)| + AsksOn(calls, id)
  {
    ConversationHistory(calls, sessions, id);
    TurnsCountAsks(calls, sessions, id);
  }

  lemma AppendAssociates(a: seq<Message>, b: seq<Message>, c: seq<Message>)
    ensures (a + b) + c == a + (b + c)
  {
  }

  /** `TurnsOf` of the first `i` runs of a series that starts with the run `st`. */
  lemma TurnsOfConsPrefix(st: StateRecord, states: seq<StateRecord>, i: nat, id: string)
    requires Written(End, st) && AllFinished(states) && 0 < i <= |states| + 1
    ensures AllFinished(([st] + states)[..i])
    ensures TurnsOf(([st] + states)[..i], id)
         == (if st.sessionId == id then [TurnOf(st)] else []) + TurnsOf(states[..i - 1], id)
  {
    var p := ([st] + states)[..i];
    assert p[0] == st;
    assert p[1..] == states[..i - 1];
  }

  /** What request `i` of a series saw in its clarify step and in its answer
      step: the history of its session before the series, followed by the
      earlier requests' turns. */
  ghost predicate SawEarlierTurns(calls: seq<AskCall>, sessions: Sessions, i: nat)
    requires i < |calls|
  {
    var t := Converse(calls, sessions);
    var id := calls[i].req.sessionId;
    var seen := History(sessions, id) + TurnsOf(t.states[..i], id);
    t.states[i].clarifiedQuery == Some(calls[i].svc.clarify(calls[i].req.query, seen))
    && t.states[i].response
         == Some(calls[i].svc.answer(t.states[i].clarifiedQuery.value, t.states[i].context.value, seen))
  }

  /** The first request of a series sees the history as it was. */
  lemma FirstRequestSeesHistory(calls: seq<AskCall>, sessions: Sessions)
    requires calls != []
    ensures SawEarlierTurns(calls, sessions, 0)
  {
    var o := Ask(calls[0].svc, calls[0].req, sessions);
    var t := Converse(calls, sessions);
    AskClosedForm(calls[0].svc, calls[0].req, sessions);
    assert t.states[0] == o.state;
    assert t.states[..0] == [];
    assert History(sessions, calls[0].req.sessionId) + TurnsOf(t.states[..0], calls[0].req.sessionId)
        == History(sessions, calls[0].req.sessionId);
  }

  /** If request `i - 1` of the series after the first sees the turns before
      it, request `i` of the whole series does: the first request's turn, if
      on the same session, is now part of the history. */
  lemma SeenTurnsShift(calls: seq<AskCall>, sessions: Sessions, i: nat)
    requires 0 < i < |calls|
    requires SawEarlierTurns(calls[1..], Ask(calls[0].svc, calls[0].req, sessions).sessions, i - 1)
    ensures SawEarlierTurns(calls, sessions, i)
  {
    var o := Ask(calls[0].svc, calls[0].req, sessions);
    var rest := Converse(calls[1..], o.sessions);
    var t := Converse(calls, sessions);
    var id := calls[i].req.sessionId;
    assert t.states == [o.state] + rest.states;
    assert calls[1..][i - 1] == calls[i];
    var earlier := TurnsOf(rest.states[..i - 1], id);
    var x := if calls[0].req.sessionId == id then [TurnOf(o.state)] else [];
    AskExtendsHistory(calls[0].svc, calls[0].req, sessions, id);
    TurnsOfConsPrefix(o.state, rest.states, i, id);
    assert TurnsOf(t.states[..i], id) == x + earlier;
    var h := History(sessions, id);
    assert History(o.sessions, id) == h + x;
    AppendAssociates(h, x, earlier);
  }

  /** Each request's clarify step and its answer step see every turn the
      earlier requests on its session recorded. */
  lemma {:induction false} LaterRequestsSeeEarlierTurns(calls: seq<AskCall>, sessions: Sessions, i: nat)
    requires i < |calls|
    ensures var t := Converse(calls, sessions);
            var id := calls[i].req.sessionId;
            t.states[i].clarifiedQuery
              == Some(calls[i].svc.clarify(calls[i].req.query, History(sessions, id) + TurnsOf(t.states[..i], id)))
    ensures var t := Converse(calls, sessions);
            var id := calls[i].req.sessionId;
            t.states[i].response
              == Some(calls[i].svc.answer(t.states[i].clarifiedQuery.value, t.states[i].context.value,
                                          History(sessions, id) + TurnsOf(t.states[..i], id)))
  {
    if i == 0 {
      FirstRequestSeesHistory(calls, sessions);
    } else {
      var o := Ask(calls[0].svc, calls[0].req, sessions);
      LaterRequestsSeeEarlierTurns(calls[1..], o.sessions, i - 1);
      SeenTurnsShift(calls, sessions, i);
    }
  }
}
