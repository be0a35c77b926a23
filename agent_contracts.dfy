/** The values that flow through the agent mesh: events, the context an
    agent is given, and the outcome it returns. */
module AgentContracts {
  import opened Json
  import opened ToolRegistry
  import opened StateEngine

  /** An event; its timestamp is held as UTC seconds. */
  datatype AgentEvent = AgentEvent(eventType: string, emittedAt: int, payload: Fields)

  /** What an agent sees when it handles an event. */
  datatype AgentContext = AgentContext(
    userState: Snapshot,
    relatedRelations: seq<Fields>,
    vectorHits: seq<(string, real)>,
    availableTools: seq<string>)

  /** What an agent produced: the events it emits, the tool calls it asks
      for, their results (filled in by the mesh) and free-text notes. */
  datatype AgentOutcome = AgentOutcome(
    agentName: string,
    emittedEvents: seq<AgentEvent>,
    toolCalls: seq<ToolCall>,
    toolResults: seq<ToolResult>,
    notes: seq<string>)
}
