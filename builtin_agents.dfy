/** The two agents the repository ships, and the agent protocol as a
    datatype: an agent is one of the built-ins or any pair of a `handles`
    test and a `handle` function. */
module BuiltinAgents {
  import opened Text
  import opened Collections
  import opened Json
  import opened ToolRegistry
  import opened StateEngine
  import opened AgentContracts

  const PlannerName: string := "follow_up_planner"
  const MemoryAgentName: string := "memory_context_agent"

  const NoEdgesNote: string := "No follow-up relations in event scope."
  const NoToolNote: string := "create_task tool unavailable; follow-up actions not materialized."

  datatype Agent =
    | FollowUpPlanner
    | MemoryContext
    | Custom(name: string, accepts: AgentEvent -> bool, respond: (AgentEvent, AgentContext) -> AgentOutcome)

  /** FollowUpPlannerAgent.handles */
  predicate PlannerHandles(e: AgentEvent) {
    e.eventType == "RELATION_GRAPH_UPDATED" || e.eventType == "FOLLOW_UP_TRIGGERED"
  }

  /** MemoryContextAgent.handles */
  predicate MemoryAgentHandles(e: AgentEvent) {
    e.eventType == "MEMORY_QUERY" || e.eventType == "RELATION_GRAPH_UPDATED" || e.eventType == "STATE_RECALCULATED"
  }

  predicate Handles(a: Agent, e: AgentEvent) {
    match a
    case FollowUpPlanner => PlannerHandles(e)
    case MemoryContext => MemoryAgentHandles(e)
    case Custom(_, accepts, _) => accepts(e)
  }

  /** rel.get("relation_type") == "FOLLOW_UP": the value must be that very
      string, not merely render as it. */
  predicate IsFollowUpEdge(rel: Fields) {
    Get(rel, "relation_type") == JStr("FOLLOW_UP")
  }

  function FollowUpEdges(rels: seq<Fields>): seq<Fields> {
    Filter(rels, IsFollowUpEdge)
  }

  /** The create_task call the planner makes for one edge. */
  function TaskCall(rel: Fields, domainHint: string): ToolCall {
    ToolCall("create_task", [
      ("title", JStr("Follow up: " + TextField(rel, "from_canonical_id") + " -> " + TextField(rel, "to_canonical_id"))),
      ("details", JStr(TextField(rel, "reason"))),
      ("domain", JStr(domainHint))])
  }

  function TaskCalls(edges: seq<Fields>, domainHint: string): (r: seq<ToolCall>) {
    seq(|edges|, i requires 0 <= i < |edges| => TaskCall(edges[i], domainHint))
  }

  /** FollowUpPlannerAgent.handle as a function of the context. */
  function PlannerOutcome(ctx: AgentContext): (o: AgentOutcome)
    ensures o.agentName == PlannerName && o.emittedEvents == [] && o.toolResults == [] && |o.notes| == 1
    ensures o.toolCalls != [] ==>
      "create_task" in ctx.availableTools && |o.toolCalls| == |FollowUpEdges(ctx.relatedRelations)|
  {
    var edges := FollowUpEdges(ctx.relatedRelations);
    if edges == [] then AgentOutcome(PlannerName, [], [], [], [NoEdgesNote])
    else if ctx.availableTools == [] || "create_task" !in ctx.availableTools then
      AgentOutcome(PlannerName, [], [], [], [NoToolNote])
    else
      var calls := TaskCalls(edges, ctx.userState.domainContext);
      AgentOutcome(PlannerName, [], calls, [], ["Queued " + NatToString(|calls|) + " deterministic follow-up task(s)."])
  }

  /** FollowUpPlannerAgent.handle: the edge filter, the two early returns
      and the loop that queues one call per edge. */
  method PlanFollowUps(e: AgentEvent, ctx: AgentContext) returns (o: AgentOutcome)
    ensures o == PlannerOutcome(ctx)
  {
    var edges := FollowUpEdges(ctx.relatedRelations);
    if edges == [] {
      return AgentOutcome(PlannerName, [], [], [], [NoEdgesNote]);
    }
    if ctx.availableTools == [] || "create_task" !in ctx.availableTools {
      return AgentOutcome(PlannerName, [], [], [], [NoToolNote]);
    }
    var domainHint := ctx.userState.domainContext;
    var toolCalls: seq<ToolCall> := [];
    for i := 0 to |edges|
      invariant |toolCalls| == i
      invariant forall k :: 0 <= k < i ==> toolCalls[k] == TaskCall(edges[k], domainHint)
    {
      toolCalls := toolCalls + [TaskCall(edges[i], domainHint)];
    }
    return AgentOutcome(PlannerName, [], toolCalls, [], ["Queued " + NatToString(|toolCalls|) + " deterministic follow-up task(s)."]);
  }

  /** MemoryContextAgent.handle */
  function MemoryOutcome(ctx: AgentContext): (o: AgentOutcome)
    ensures o.agentName == MemoryAgentName && o.toolCalls == [] && o.emittedEvents == [] && |o.notes| == 4
  {
    AgentOutcome(MemoryAgentName, [], [], [], [
      "vector_hits=" + NatToString(|ctx.vectorHits|),
      "relation_edges=" + NatToString(|ctx.relatedRelations|),
      "state_domain=" + ctx.userState.domainContext,
      "stress_probability=" + FormatFixed(ctx.userState.stressProbability, 3)])
  }

  function Handle(a: Agent, e: AgentEvent, ctx: AgentContext): AgentOutcome {
    match a
    case FollowUpPlanner => PlannerOutcome(ctx)
    case MemoryContext => MemoryOutcome(ctx)
    case Custom(_, _, respond) => respond(e, ctx)
  }

  /** agent.handle(event, context) */
  method HandleEvent(a: Agent, e: AgentEvent, ctx: AgentContext) returns (o: AgentOutcome)
    ensures o == Handle(a, e, ctx)
  {
    match a
    case FollowUpPlanner => o := PlanFollowUps(e, ctx);
    case MemoryContext => o := MemoryOutcome(ctx);
    case Custom(_, _, respond) => o := respond(e, ctx);
  }

  /** The planner handles exactly the graph-update and follow-up events,
      the memory agent exactly the memory, graph-update and state events. */
  lemma HandledEventTypes(e: AgentEvent)
    ensures Handles(FollowUpPlanner, e) <==> e.eventType in {"RELATION_GRAPH_UPDATED", "FOLLOW_UP_TRIGGERED"}
    ensures Handles(MemoryContext, e) <==> e.eventType in {"MEMORY_QUERY", "RELATION_GRAPH_UPDATED", "STATE_RECALCULATED"}
  {
  }

  /** The planner's edges are exactly the relations of the context whose
      relation_type is "FOLLOW_UP". */
  lemma FollowUpEdgesMembers(rels: seq<Fields>)
    ensures forall rel :: rel in FollowUpEdges(rels) <==> rel in rels && Get(rel, "relation_type") == JStr("FOLLOW_UP")
  {
  }

  /** Without FOLLOW_UP edges the planner asks for nothing and says so in
      a single note, whatever tools exist. */
  lemma PlannerWithoutEdges(ctx: AgentContext)
    requires forall rel :: rel in ctx.relatedRelations ==> Get(rel, "relation_type") != JStr("FOLLOW_UP")
    ensures PlannerOutcome(ctx).toolCalls == []
    ensures PlannerOutcome(ctx).notes == [NoEdgesNote]
  {
    FilterNone(ctx.relatedRelations, IsFollowUpEdge);
  }

  /** With edges but no create_task tool the planner asks for nothing and
      reports the missing tool. */
  lemma PlannerWithoutTool(ctx: AgentContext)
    requires exists rel :: rel in ctx.relatedRelations && Get(rel, "relation_type") == JStr("FOLLOW_UP")
    requires "create_task" !in ctx.availableTools
    ensures PlannerOutcome(ctx).toolCalls == []
    ensures PlannerOutcome(ctx).notes == [NoToolNote]
  {
    var rel :| rel in ctx.relatedRelations && Get(rel, "relation_type") == JStr("FOLLOW_UP");
    assert rel in FollowUpEdges(ctx.relatedRelations);
  }

  /** Otherwise the planner makes one create_task call per edge, in context
      order: the title names both endpoints, the details carry the edge's
      reason and the domain is the state's domain context; its single note
      reports the number of calls. */
  lemma PlannerQueuesOnePerEdge(ctx: AgentContext)
    requires FollowUpEdges(ctx.relatedRelations) != []
    requires "create_task" in ctx.availableTools
    ensures var o, edges := PlannerOutcome(ctx), FollowUpEdges(ctx.relatedRelations);
      |o.toolCalls| == |edges|
      && (forall i :: 0 <= i < |edges| ==>
            (o.toolCalls[i].toolName == "create_task"
             && Get(o.toolCalls[i].payload, "title") == JStr("Follow up: " + TextField(edges[i], "from_canonical_id") + " -> " + TextField(edges[i], "to_canonical_id"))
             && Get(o.toolCalls[i].payload, "details") == JStr(TextField(edges[i], "reason"))
             && Get(o.toolCalls[i].payload, "domain") == JStr(ctx.userState.domainContext)))
      && o.notes == ["Queued " + NatToString(|o.toolCalls|) + " deterministic follow-up task(s)."]
  {
    var edges := FollowUpEdges(ctx.relatedRelations);
    forall i | 0 <= i < |edges|
      ensures var c := TaskCall(edges[i], ctx.userState.domainContext);
        Get(c.payload, "title") == JStr("Follow up: " + TextField(edges[i], "from_canonical_id") + " -> " + TextField(edges[i], "to_canonical_id"))
        && Get(c.payload, "details") == JStr(TextField(edges[i], "reason"))
        && Get(c.payload, "domain") == JStr(ctx.userState.domainContext)
    {
      TaskCallFields(edges[i], ctx.userState.domainContext);
    }
  }

  lemma TaskCallFields(rel: Fields, domainHint: string)
    ensures var c := TaskCall(rel, domainHint);
      Get(c.payload, "title") == JStr("Follow up: " + TextField(rel, "from_canonical_id") + " -> " + TextField(rel, "to_canonical_id"))
      && Get(c.payload, "details") == JStr(TextField(rel, "reason"))
      && Get(c.payload, "domain") == JStr(domainHint)
  {
    var p := TaskCall(rel, domainHint).payload;
    GetLast(p, 0);
    GetLast(p, 1);
    GetLast(p, 2);
  }

  /** The memory agent reports the hit and edge counts, the state's domain
      and its stress probability to three decimals, and asks for nothing. */
  lemma MemoryAgentNotes(ctx: AgentContext)
    ensures var o := MemoryOutcome(ctx);
      o.agentName == MemoryAgentName && o.toolCalls == [] && |o.notes| == 4
      && o.notes[0] == "vector_hits=" + NatToString(|ctx.vectorHits|)
      && o.notes[1] == "relation_edges=" + NatToString(|ctx.relatedRelations|)
  {
  }

  /** Neither built-in agent emits events or fills in tool results. */
  lemma BuiltinsEmitNothing(a: Agent, e: AgentEvent, ctx: AgentContext)
    requires !a.Custom?
    ensures Handle(a, e, ctx).emittedEvents == []
    ensures Handle(a, e, ctx).toolResults == []
  {
  }
}
