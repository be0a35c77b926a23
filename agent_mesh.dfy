/** The event-driven dispatcher: it assembles one context per event, asks
    every agent that accepts the event (in registration order) for an
    outcome, executes the outcome's tool calls through the registry, and
    runs a FIFO event queue for at most a fixed number of events. */
module AgentMesh {
  import opened Text
  import opened Collections
  import opened Sorting
  import opened Json
  import opened ToolRegistry
  import opened StateEngine
  import opened AgentContracts
  import opened BuiltinAgents

  const TopK: int := 5
  const DefaultMaxEvents: int := 50

  predicate NonBlank(s: string) {
    Strip(s) != []
  }

  /** [str(item) for item in items] */
  function StrItems(items: seq<Json>): (r: seq<string>)
    ensures |r| == |items| && forall i :: 0 <= i < |items| ==> r[i] == Str(items[i])
  {
    seq(|items|, i requires 0 <= i < |items| => Str(items[i]))
  }

  /** AgentMesh._extract_canonical_ids */
  function ExtractCanonicalIds(payload: Fields): (r: seq<string>)
    ensures forall id :: id in r ==> Strip(id) != []
  {
    var raw := Get(payload, "canonical_ids");
    if raw.JArr? then Filter(StrItems(raw.items), NonBlank)
    else
      var single := Get(payload, "canonical_id");
      if single.JNull? then []
      else
        var value := Strip(Str(single));
        if value != [] then [value] else []
  }

  /** A list under "canonical_ids" wins: its items are kept as str(item),
      untrimmed, in order, when they are not blank. */
  lemma CanonicalIdsFromList(payload: Fields)
    requires Get(payload, "canonical_ids").JArr?
    ensures var items, r := Get(payload, "canonical_ids").items, ExtractCanonicalIds(payload);
      (forall x :: x in r <==> (exists i :: 0 <= i < |items| && x == Str(items[i])) && Strip(x) != [])
      && Embeds(r, StrItems(items), FilterIndices(StrItems(items), NonBlank))
  {
    var items := Get(payload, "canonical_ids").items;
    FilterInOrder(StrItems(items), NonBlank);
  }

  /** Otherwise the single "canonical_id" is used, trimmed, when present
      and not blank. */
  lemma CanonicalIdFromSingle(payload: Fields)
    requires !Get(payload, "canonical_ids").JArr?
    ensures var single, r := Get(payload, "canonical_id"), ExtractCanonicalIds(payload);
      |r| <= 1
      && (r == [] <==> single.JNull? || Strip(Str(single)) == [])
      && (r != [] ==> r[0] == Strip(Str(single)) && IsStripped(r[0]))
  {
    StripIsStripped(Str(Get(payload, "canonical_id")));
  }

  const QueryKeys: seq<string> := ["query", "text", "title", "content"]

  predicate IsQueryValue(v: Json) {
    v.JStr? && Strip(v.s) != []
  }

  /** The early-return search of _extract_query_text over the given keys. */
  function FirstQuery(payload: Fields, keys: seq<string>): string {
    if keys == [] then ""
    else
      var value := Get(payload, keys[0]);
      if IsQueryValue(value) then Strip(value.s) else FirstQuery(payload, keys[1..])
  }

  /** AgentMesh._extract_query_text */
  function ExtractQueryText(payload: Fields): (r: string)
    ensures IsStripped(r)
    ensures r == [] <==> forall i :: 0 <= i < |QueryKeys| ==> !IsQueryValue(Get(payload, QueryKeys[i]))
  {
    FirstQueryIsFirst(payload, QueryKeys);
    FirstQuery(payload, QueryKeys)
  }

  /** The query text is the trimmed value of the first key holding a
      non-blank string, and "" exactly when there is none. */
  lemma {:induction false} FirstQueryIsFirst(payload: Fields, keys: seq<string>)
    ensures var r := FirstQuery(payload, keys);
      IsStripped(r)
      && (r == [] <==> forall i :: 0 <= i < |keys| ==> !IsQueryValue(Get(payload, keys[i])))
      && (r != [] ==> exists i :: 0 <= i < |keys| && IsQueryValue(Get(payload, keys[i]))
                          && r == Strip(Get(payload, keys[i]).s)
                          && forall j :: 0 <= j < i ==> !IsQueryValue(Get(payload, keys[j])))
  {
    if keys != [] {
      var value := Get(payload, keys[0]);
      if IsQueryValue(value) {
        StripIsStripped(value.s);
      } else {
        var rest := keys[1..];
        FirstQueryIsFirst(payload, rest);
        assert forall i :: 0 < i < |keys| ==> keys[i] == rest[i - 1];
        var r := FirstQuery(payload, rest);
        if r != [] {
          var i :| 0 <= i < |rest| && IsQueryValue(Get(payload, rest[i])) && r == Strip(Get(payload, rest[i]).s)
                   && forall j :: 0 <= j < i ==> !IsQueryValue(Get(payload, rest[j]));
          assert keys[i + 1] == rest[i];
          assert forall j :: 0 <= j < i + 1 ==> !IsQueryValue(Get(payload, keys[j])) by {
            forall j | 0 < j < i + 1 ensures !IsQueryValue(Get(payload, keys[j])) {
              assert keys[j] == rest[j - 1];
            }
          }
        }
      }
    }
  }

  /** The collaborators of a mesh: its agents in registration order, the
      graph and vector memories, the current state (get_state() answers the
      same within one run) and the registry's table with its key order. */
  datatype Env = Env(
    agents: seq<Agent>,
    relationsFor: seq<string> -> seq<Fields>,
    search: (string, int) -> seq<(string, real)>,
    state: Snapshot,
    tools: map<string, Executor>,
    toolNames: seq<string>)

  /** The context dispatch builds for an event. */
  function ContextOf(env: Env, e: AgentEvent): AgentContext {
    var queryText := ExtractQueryText(e.payload);
    AgentContext(
      env.state,
      env.relationsFor(ExtractCanonicalIds(e.payload)),
      if queryText != [] then env.search(queryText, TopK) else [],
      SortStrings(env.toolNames))
  }

  /** The outcome dispatch records: the draft with its tool calls executed. */
  function Executed(tools: map<string, Executor>, draft: AgentOutcome): AgentOutcome {
    AgentOutcome(draft.agentName, draft.emittedEvents, draft.toolCalls,
      seq(|draft.toolCalls|, k requires 0 <= k < |draft.toolCalls| => ExecuteIn(tools, draft.toolCalls[k])),
      draft.notes)
  }

  /** The outcomes of the first n agents. */
  function OutcomesUpTo(env: Env, e: AgentEvent, ctx: AgentContext, n: int): seq<AgentOutcome>
    requires 0 <= n <= |env.agents|
  {
    if n == 0 then []
    else
      var a := env.agents[n - 1];
      OutcomesUpTo(env, e, ctx, n - 1) + (if Handles(a, e) then [Executed(env.tools, Handle(a, e, ctx))] else [])
  }

  /** AgentMesh.dispatch as a function of the collaborators. */
  function DispatchOf(env: Env, e: AgentEvent): seq<AgentOutcome> {
    OutcomesUpTo(env, e, ContextOf(env, e), |env.agents|)
  }

  /** The events a list of outcomes emits, outcome by outcome. */
  function Emitted(os: seq<AgentOutcome>): seq<AgentEvent> {
    if os == [] then [] else Emitted(os[..|os| - 1]) + os[|os| - 1].emittedEvents
  }

  /** dispatch as a function value, for the event loop below. */
  function Dispatcher(env: Env): AgentEvent -> seq<AgentOutcome> {
    e => DispatchOf(env, e)
  }

  /** The events run processes, in order, starting from `queue` with
      `budget` dispatches left. */
  function Trace(dispatch: AgentEvent -> seq<AgentOutcome>, queue: seq<AgentEvent>, budget: int): seq<AgentEvent>
    decreases budget
  {
    if queue == [] || budget <= 0 then []
    else [queue[0]] + Trace(dispatch, queue[1..] + Emitted(dispatch(queue[0])), budget - 1)
  }

  /** AgentMesh.run as a function of dispatch. */
  function RunFrom(dispatch: AgentEvent -> seq<AgentOutcome>, queue: seq<AgentEvent>, budget: int): seq<AgentOutcome>
    decreases budget
  {
    if queue == [] || budget <= 0 then []
    else
      var out := dispatch(queue[0]);
      out + RunFrom(dispatch, queue[1..] + Emitted(out), budget - 1)
  }

  /** The outcomes of dispatching the events one after another. */
  function DispatchAll(dispatch: AgentEvent -> seq<AgentOutcome>, events: seq<AgentEvent>): seq<AgentOutcome> {
    if events == [] then [] else dispatch(events[0]) + DispatchAll(dispatch, events[1..])
  }

  predicate Aligned(tools: map<string, Executor>, o: AgentOutcome) {
    |o.toolResults| == |o.toolCalls|
    && forall k :: 0 <= k < |o.toolCalls| ==> o.toolResults[k] == ExecuteIn(tools, o.toolCalls[k])
  }

  function HandlerTest(e: AgentEvent): Agent -> bool {
    a => Handles(a, e)
  }

  lemma {:induction false} OutcomesOfHandlers(env: Env, e: AgentEvent, ctx: AgentContext, n: int)
    requires 0 <= n <= |env.agents|
    ensures var out, hs := OutcomesUpTo(env, e, ctx, n), Filter(env.agents[..n], HandlerTest(e));
      |out| == |hs| && forall i :: 0 <= i < |hs| ==> out[i] == Executed(env.tools, Handle(hs[i], e, ctx))
  {
    if n > 0 {
      OutcomesOfHandlers(env, e, ctx, n - 1);
      assert env.agents[..n][..n - 1] == env.agents[..n - 1];
    }
  }

  /** dispatch yields one outcome per agent that handles the event, in
      registration order: the agent's own outcome with its tool calls
      executed. */
  lemma DispatchSelectsHandlers(env: Env, e: AgentEvent)
    ensures var out, hs := DispatchOf(env, e), Filter(env.agents, HandlerTest(e));
      |out| == |hs| && forall i :: 0 <= i < |hs| ==> out[i] == Executed(env.tools, Handle(hs[i], e, ContextOf(env, e)))
    ensures forall a :: a in Filter(env.agents, HandlerTest(e)) <==> a in env.agents && Handles(a, e)
  {
    OutcomesOfHandlers(env, e, ContextOf(env, e), |env.agents|);
    assert env.agents[..|env.agents|] == env.agents;
  }

  lemma {:induction false} OutcomesAligned(env: Env, e: AgentEvent, ctx: AgentContext, n: int)
    requires 0 <= n <= |env.agents|
    ensures forall o :: o in OutcomesUpTo(env, e, ctx, n) ==> Aligned(env.tools, o)
  {
    if n > 0 {
      OutcomesAligned(env, e, ctx, n - 1);
    }
  }

  /** In every outcome the results line up with the calls: result k is the
      registry's answer to call k. */
  lemma DispatchResultsAligned(env: Env, e: AgentEvent)
    ensures forall o :: o in DispatchOf(env, e) ==> Aligned(env.tools, o)
  {
    OutcomesAligned(env, e, ContextOf(env, e), |env.agents|);
  }

  /** The vector memory is asked, with top_k = 5, only for a non-blank
      query; the tools offered are the registered names in ascending order,
      each once. */
  lemma ContextAssembly(env: Env, e: AgentEvent)
    requires Distinct(env.toolNames)
    ensures var ctx, q := ContextOf(env, e), ExtractQueryText(e.payload);
      ctx.userState == env.state
      && ctx.relatedRelations == env.relationsFor(ExtractCanonicalIds(e.payload))
      && (q == [] ==> ctx.vectorHits == [])
      && (q != [] ==> ctx.vectorHits == env.search(q, 5))
      && StrictlyAscending(ctx.availableTools)
      && (forall t :: t in ctx.availableTools <==> t in env.toolNames)
  {
    SortStringsAscending(env.toolNames);
    SortByPermutation(env.toolNames, x => [x]);
    assert forall t :: t in SortStrings(env.toolNames) <==> t in multiset(env.toolNames);
  }

  /** run dispatches at most max_events events, however many the agents
      emit. */
  lemma {:induction false} TraceBounded(dispatch: AgentEvent -> seq<AgentOutcome>, queue: seq<AgentEvent>, budget: int)
    ensures |Trace(dispatch, queue, budget)| <= if budget > 0 then budget else 0
    decreases budget
  {
    if queue != [] && budget > 0 {
      TraceBounded(dispatch, queue[1..] + Emitted(dispatch(queue[0])), budget - 1);
    }
  }

  /** With the default max_events of 50, run dispatches at most 50 events. */
  lemma DefaultRunBounded(dispatch: AgentEvent -> seq<AgentOutcome>, queue: seq<AgentEvent>)
    ensures |Trace(dispatch, queue, DefaultMaxEvents)| <= 50
  {
    TraceBounded(dispatch, queue, DefaultMaxEvents);
  }

  /** run's result is the concatenation of the dispatches of the processed
      events, in processing order. */
  lemma {:induction false} RunIsDispatchesInOrder(dispatch: AgentEvent -> seq<AgentOutcome>, queue: seq<AgentEvent>, budget: int)
    ensures RunFrom(dispatch, queue, budget) == DispatchAll(dispatch, Trace(dispatch, queue, budget))
    decreases budget
  {
    if queue != [] && budget > 0 {
      var rest := queue[1..] + Emitted(dispatch(queue[0]));
      RunIsDispatchesInOrder(dispatch, rest, budget - 1);
      var t := Trace(dispatch, queue, budget);
      assert t[0] == queue[0] && t[1..] == Trace(dispatch, rest, budget - 1);
    }
  }

  function Min(a: int, b: int): int {
    if a <= b then a else b
  }

  /** The queue is first in, first out: whatever is queued behind them, the
      events already waiting are processed first and in their order, as far
      as the budget reaches. */
  lemma {:induction false} TraceFifo(dispatch: AgentEvent -> seq<AgentOutcome>, queue: seq<AgentEvent>, behind: seq<AgentEvent>, budget: int)
    requires budget >= 0
    ensures var m, t := Min(|queue|, budget), Trace(dispatch, queue + behind, budget);
      m <= |t| && t[..m] == queue[..m]
    decreases budget
  {
    if queue != [] && budget > 0 {
      var q := queue + behind;
      var emitted := Emitted(dispatch(q[0]));
      assert q[1..] + emitted == queue[1..] + (behind + emitted);
      TraceFifo(dispatch, queue[1..], behind + emitted, budget - 1);
      var t := Trace(dispatch, q, budget);
      var m := Min(|queue|, budget);
      assert t == [queue[0]] + Trace(dispatch, queue[1..] + (behind + emitted), budget - 1);
      assert queue[..m] == [queue[0]] + queue[1..][..m - 1];
    }
  }

  /** The queue after the first event: the rest of the queue followed by
      the events the outcomes emitted, outcome by outcome. */
  lemma EmittedSnoc(os: seq<AgentOutcome>, o: AgentOutcome)
    ensures Emitted(os + [o]) == Emitted(os) + o.emittedEvents
  {
    assert (os + [o])[..|os|] == os;
  }

  /** One step of the event loop, for either view of it. */
  lemma RunStep(dispatch: AgentEvent -> seq<AgentOutcome>, queue: seq<AgentEvent>, budget: int)
    requires queue != [] && budget > 0
    ensures RunFrom(dispatch, queue, budget)
         == dispatch(queue[0]) + RunFrom(dispatch, queue[1..] + Emitted(dispatch(queue[0])), budget - 1)
    ensures Trace(dispatch, queue, budget)
         == [queue[0]] + Trace(dispatch, queue[1..] + Emitted(dispatch(queue[0])), budget - 1)
  {
  }

  /** What the loop of run keeps: the outcomes so far followed by what the
      rest of the run yields are the whole run, and one iteration keeps it. */
  lemma LoopStep(dispatch: AgentEvent -> seq<AgentOutcome>, queue: seq<AgentEvent>, budget: int,
                 done: seq<AgentOutcome>, doneEvents: seq<AgentEvent>, total: seq<AgentOutcome>, totalEvents: seq<AgentEvent>)
    requires queue != [] && budget > 0
    requires done + RunFrom(dispatch, queue, budget) == total
    requires doneEvents + Trace(dispatch, queue, budget) == totalEvents
    ensures var next := queue[1..] + Emitted(dispatch(queue[0]));
      (done + dispatch(queue[0])) + RunFrom(dispatch, next, budget - 1) == total
      && (doneEvents + [queue[0]]) + Trace(dispatch, next, budget - 1) == totalEvents
  {
    var next := queue[1..] + Emitted(dispatch(queue[0]));
    RunStep(dispatch, queue, budget);
    var r, t := RunFrom(dispatch, next, budget - 1), Trace(dispatch, next, budget - 1);
    assert (done + dispatch(queue[0])) + r == done + (dispatch(queue[0]) + r);
    assert (doneEvents + [queue[0]]) + t == doneEvents + ([queue[0]] + t);
  }

  /** `for outcome in outcomes: queue.extend(outcome.emitted_events)` */
  method Enqueue(queue: seq<AgentEvent>, outcomes: seq<AgentOutcome>) returns (q: seq<AgentEvent>)
    ensures q == queue + Emitted(outcomes)
  {
    q := queue;
    for k := 0 to |outcomes|
      invariant q == queue + Emitted(outcomes[..k])
    {
      EmittedSnoc(outcomes[..k], outcomes[k]);
      assert outcomes[..k + 1] == outcomes[..k] + [outcomes[k]];
      q := q + outcomes[k].emittedEvents;
    }
    assert outcomes[..|outcomes|] == outcomes;
  }

  /** The registry key of "create_task" is the name itself. */
  lemma CreateTaskKey()
    ensures NormalizeName("create_task") == "create_task"
  {
    StripOfStripped("create_task");
    LowerOfLower("create_task");
  }

  /** The payload of the dispatch scenario: one id in a list and a query. */
  function ExamplePayload(id: string, query: string): Fields {
    [("canonical_ids", JArr([JStr(id)])), ("query", JStr(query))]
  }

  lemma ExampleExtraction(id: string, query: string)
    requires Strip(id) != [] && IsStripped(query) && query != []
    ensures ExtractCanonicalIds(ExamplePayload(id, query)) == [id]
    ensures ExtractQueryText(ExamplePayload(id, query)) == query
  {
    var p := ExamplePayload(id, query);
    GetLast(p, 0);
    GetLast(p, 1);
    StripOfStripped(query);
    assert StrItems([JStr(id)]) == [id];
    assert Filter([id], NonBlank) == Filter([id][..0], NonBlank) + [id];
  }

  /** With create_task registered, the planner's one call is offered the
      tool and the registry runs it. */
  lemma ExamplePlannerCall(env: Env, ctx: AgentContext, rel: Fields)
    requires ctx.relatedRelations == [rel] && IsFollowUpEdge(rel)
    requires "create_task" in ctx.availableTools
    requires "create_task" in env.tools && forall p :: env.tools["create_task"](p).ok
    ensures var o := Executed(env.tools, PlannerOutcome(ctx));
      |o.toolCalls| == 1 && |o.toolResults| == 1 && o.toolResults[0].ok
  {
    assert Filter([rel], IsFollowUpEdge) == Filter([rel][..0], IsFollowUpEdge) + [rel];
    CreateTaskKey();
  }

  /** The dispatch scenario of the mesh's own test: an event of type
      RELATION_GRAPH_UPDATED whose payload names one record and a query,
      a graph memory answering one FOLLOW_UP edge for that record, and a
      registry holding create_task. Both built-in agents answer, in order;
      the planner's one call is executed with an ok result. */
  lemma ExampleDispatch(env: Env, e: AgentEvent, id: string, query: string, rel: Fields)
    requires env.agents == [FollowUpPlanner, MemoryContext]
    requires e.eventType == "RELATION_GRAPH_UPDATED" && e.payload == ExamplePayload(id, query)
    requires Strip(id) != [] && IsStripped(query) && query != []
    requires env.relationsFor([id]) == [rel] && IsFollowUpEdge(rel)
    requires "create_task" in env.toolNames
    requires "create_task" in env.tools && forall p :: env.tools["create_task"](p).ok
    ensures var out := DispatchOf(env, e);
      |out| == 2 && out[0].agentName == PlannerName && out[1].agentName == MemoryAgentName
      && |out[0].toolCalls| == 1 && |out[0].toolResults| == 1 && out[0].toolResults[0].ok
  {
    ExampleExtraction(id, query);
    var ctx := ContextOf(env, e);
    ExampleContext(env, e, id, query);
    ExamplePlannerCall(env, ctx, rel);
    ExampleShape(env, e);
  }

  /** In the same scenario the memory agent reports one vector-memory
      answer's worth of hits and the one edge. */
  lemma ExampleDispatchNotes(env: Env, e: AgentEvent, id: string, query: string, rel: Fields)
    requires env.agents == [FollowUpPlanner, MemoryContext]
    requires e.eventType == "RELATION_GRAPH_UPDATED" && e.payload == ExamplePayload(id, query)
    requires Strip(id) != [] && IsStripped(query) && query != []
    requires env.relationsFor([id]) == [rel]
    requires "create_task" in env.toolNames
    ensures var out := DispatchOf(env, e);
      |out| == 2
      && out[1].notes[0] == "vector_hits=" + NatToString(|env.search(query, 5)|)
      && out[1].notes[1] == "relation_edges=" + NatToString(|[rel]|)
  {
    ExampleExtraction(id, query);
    ExampleContext(env, e, id, query);
    ExampleShape(env, e);
    var ctx := ContextOf(env, e);
    MemoryAgentNotes(ctx);
    var m := MemoryOutcome(ctx);
    assert Executed(env.tools, m).notes == m.notes;
  }

  lemma ExampleShape(env: Env, e: AgentEvent)
    requires env.agents == [FollowUpPlanner, MemoryContext]
    requires e.eventType == "RELATION_GRAPH_UPDATED"
    ensures DispatchOf(env, e) == [Executed(env.tools, PlannerOutcome(ContextOf(env, e))), Executed(env.tools, MemoryOutcome(ContextOf(env, e)))]
  {
    assert Handles(FollowUpPlanner, e) && Handles(MemoryContext, e);
    BothHandle(env, e, ContextOf(env, e));
  }

  lemma ExampleContext(env: Env, e: AgentEvent, id: string, query: string)
    requires ExtractCanonicalIds(e.payload) == [id] && ExtractQueryText(e.payload) == query && query != []
    requires "create_task" in env.toolNames
    ensures var ctx := ContextOf(env, e);
      ctx.relatedRelations == env.relationsFor([id]) && ctx.vectorHits == env.search(query, 5)
      && "create_task" in ctx.availableTools
  {
    SortByPermutation(env.toolNames, x => [x]);
    assert "create_task" in multiset(SortStrings(env.toolNames));
  }

  /** Two agents that both accept the event give two outcomes, in order. */
  lemma BothHandle(env: Env, e: AgentEvent, ctx: AgentContext)
    requires |env.agents| == 2 && Handles(env.agents[0], e) && Handles(env.agents[1], e)
    ensures OutcomesUpTo(env, e, ctx, 2)
         == [Executed(env.tools, Handle(env.agents[0], e, ctx)), Executed(env.tools, Handle(env.agents[1], e, ctx))]
  {
    assert OutcomesUpTo(env, e, ctx, 1) == [Executed(env.tools, Handle(env.agents[0], e, ctx))];
  }

  class Mesh {
    const agents: seq<Agent>
    const graphMemory: seq<string> -> seq<Fields>
    const vectorMemory: (string, int) -> seq<(string, real)>
    const userState: Snapshot
    const registry: Registry

    constructor(agents: seq<Agent>, graphMemory: seq<string> -> seq<Fields>,
                vectorMemory: (string, int) -> seq<(string, real)>, userState: Snapshot, registry: Registry)
      ensures this.agents == agents && this.graphMemory == graphMemory && this.vectorMemory == vectorMemory
      ensures this.userState == userState && this.registry == registry
    {
      this.agents := agents;
      this.graphMemory := graphMemory;
      this.vectorMemory := vectorMemory;
      this.userState := userState;
      this.registry := registry;
    }

    function Setup(): Env
      reads registry
    {
      Env(agents, graphMemory, vectorMemory, userState, registry.tools, registry.names)
    }

    /** AgentMesh.dispatch */
    method Dispatch(e: AgentEvent) returns (outcomes: seq<AgentOutcome>)
      requires registry.Valid()
      ensures outcomes == DispatchOf(Setup(), e)
    {
      var canonicalIds := ExtractCanonicalIds(e.payload);
      var queryText := ExtractQueryText(e.payload);
      var context := AgentContext(
        userState,
        graphMemory(canonicalIds),
        if queryText != [] then vectorMemory(queryText, TopK) else [],
        SortStrings(registry.names));
      assert context == ContextOf(Setup(), e);
      var tools := registry.tools;
      outcomes := [];
      for i := 0 to |agents|
        invariant outcomes == OutcomesUpTo(Setup(), e, context, i)
      {
        var agent := agents[i];
        if !Handles(agent, e) {
          continue;
        }
        var draft := HandleEvent(agent, e, context);
        var executedToolResults := seq(|draft.toolCalls|, k requires 0 <= k < |draft.toolCalls| => ExecuteIn(tools, draft.toolCalls[k]));
        outcomes := outcomes + [AgentOutcome(draft.agentName, draft.emittedEvents, draft.toolCalls, executedToolResults, draft.notes)];
      }
    }

    /** AgentMesh.run: pop the front event, dispatch it, append what its
        outcomes emit, until the queue is empty or max_events events have
        been processed. `processedEvents` lists the dispatched events. */
    method Run(seedEvents: seq<AgentEvent>, maxEvents: int) returns (outcomes: seq<AgentOutcome>, ghost processedEvents: seq<AgentEvent>)
      requires registry.Valid()
      ensures outcomes == RunFrom(Dispatcher(Setup()), seedEvents, maxEvents)
      ensures processedEvents == Trace(Dispatcher(Setup()), seedEvents, maxEvents)
    {
      ghost var dispatch := Dispatcher(Setup());
      ghost var total, totalEvents := RunFrom(dispatch, seedEvents, maxEvents), Trace(dispatch, seedEvents, maxEvents);
      var queue := seedEvents;
      outcomes := [];
      processedEvents := [];
      var processed := 0;
      ghost var budget := maxEvents;
      assert outcomes + total == total && processedEvents + totalEvents == totalEvents;
      while queue != [] && processed < maxEvents
        invariant budget == maxEvents - processed
        invariant outcomes + RunFrom(dispatch, queue, budget) == total
        invariant processedEvents + Trace(dispatch, queue, budget) == totalEvents
        decreases budget
      {
        var event := queue[0];
        var eventOutcomes := Dispatch(event);
        assert eventOutcomes == dispatch(event);
        LoopStep(dispatch, queue, budget, outcomes, processedEvents, total, totalEvents);
        outcomes := outcomes + eventOutcomes;
        queue := Enqueue(queue[1..], eventOutcomes);
        processedEvents := processedEvents + [event];
        budget := budget - 1;
        processed := processed + 1;
      }
    }
  }
}
