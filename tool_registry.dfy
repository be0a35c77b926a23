/** The registry the agent mesh dispatches tool calls through: executors
    are keyed by their trimmed, lowercased name; registering a name again
    replaces its executor; an unknown name is answered with a failed result
    instead of an exception. */
module ToolRegistry {
  import opened Wrappers
  import opened Text
  import opened Collections
  import opened Json

  datatype ToolCall = ToolCall(toolName: string, payload: Fields)

  datatype ToolResult = ToolResult(ok: bool, output: Json, error: string)

  /** A tool: a total, deterministic function from the call's payload to
      its result. */
  type Executor = Fields -> ToolResult

  /** name.strip().lower() */
  function NormalizeName(name: string): string {
    Lower(Strip(name))
  }

  /** A lowercased stripped name stays stripped: lowering maps no
      character to whitespace. */
  lemma LowerKeepsStripped(s: string)
    requires IsStripped(s)
    ensures IsStripped(Lower(s))
  {
  }

  /** Normalising a normalised name changes nothing, so every spelling of a
      name that differs only in case and surrounding whitespace reaches the
      same entry. */
  lemma NormalizeNameIdempotent(name: string)
    ensures NormalizeName(NormalizeName(name)) == NormalizeName(name)
  {
    var s := Strip(name);
    StripIsStripped(name);
    LowerKeepsStripped(s);
    StripOfStripped(Lower(s));
    LowerIdempotent(s);
  }

  /** ToolRegistry.execute against a table of executors. */
  function ExecuteIn(tools: map<string, Executor>, call: ToolCall): ToolResult {
    var key := NormalizeName(call.toolName);
    if key !in tools then ToolResult(false, JNull, "tool not found: " + call.toolName)
    else tools[key](call.payload)
  }

  /** An unknown name yields ok = false, no output and an error naming the
      tool as the caller spelled it. */
  lemma ExecuteMissing(tools: map<string, Executor>, call: ToolCall)
    requires NormalizeName(call.toolName) !in tools
    ensures !ExecuteIn(tools, call).ok
    ensures ExecuteIn(tools, call).output == JNull
    ensures ExecuteIn(tools, call).error == "tool not found: " + call.toolName
  {
  }

  /** After registering an executor, a call whose name matches it up to case
      and surrounding whitespace runs that executor on the call's payload. */
  lemma ExecuteRegistered(tools: map<string, Executor>, name: string, executor: Executor, call: ToolCall)
    requires NormalizeName(call.toolName) == NormalizeName(name)
    ensures ExecuteIn(tools[NormalizeName(name) := executor], call) == executor(call.payload)
  {
  }

  /** Registering one name does not change how calls to other names run. */
  lemma ExecuteOther(tools: map<string, Executor>, name: string, executor: Executor, call: ToolCall)
    requires NormalizeName(call.toolName) != NormalizeName(name)
    ensures ExecuteIn(tools[NormalizeName(name) := executor], call) == ExecuteIn(tools, call)
  {
  }

  class Registry {
    /** The `_tools` dict: its keys in insertion order and its entries. */
    var names: seq<string>
    var tools: map<string, Executor>

    ghost predicate Valid()
      reads this
    {
      Distinct(names) && (forall k :: k in tools <==> k in names)
    }

    /** A new registry is empty. */
    constructor()
      ensures Valid() && names == [] && tools == map[]
    {
      names := [];
      tools := map[];
    }

    /** register: a name that is blank after trimming is refused (the
        ValueError); otherwise the normalised key is bound to the executor,
        replacing an earlier binding and leaving every other one alone. */
    method Register(name: string, executor: Executor) returns (r: Result<()>)
      requires Valid()
      modifies this
      ensures Valid()
      ensures r.Err? <==> NormalizeName(name) == []
      ensures r.Err? ==> names == old(names) && tools == old(tools)
      ensures r.Ok? ==> tools == old(tools)[NormalizeName(name) := executor]
      ensures r.Ok? ==> names == if NormalizeName(name) in old(names) then old(names) else old(names) + [NormalizeName(name)]
      ensures r.Ok? ==> Has(name)
    {
      var normalized := NormalizeName(name);
      if normalized == [] {
        return Err("ValueError: tool name cannot be empty");
      }
      if normalized !in tools {
        names := names + [normalized];
      }
      tools := tools[normalized := executor];
      return Ok(());
    }

    /** has: whether the normalised name is registered. */
    predicate Has(name: string)
      reads this
      ensures Valid() ==> (Has(name) <==> NormalizeName(name) in names)
    {
      NormalizeName(name) in tools
    }

    /** has answers the same for a name and for its normalised form. */
    lemma HasNormalized(name: string)
      ensures Has(name) == Has(NormalizeName(name))
    {
      NormalizeNameIdempotent(name);
    }

    /** execute: never fails; see ExecuteIn. */
    function Execute(call: ToolCall): (r: ToolResult)
      reads this
      ensures !Has(call.toolName) ==> !r.ok && r.error == "tool not found: " + call.toolName
    {
      ExecuteIn(tools, call)
    }

    /** list_tools: a copy of the table. Dafny maps are values, so changing
        the copy cannot reach the registry. */
    function ListTools(): (m: map<string, Executor>)
      reads this
      ensures Valid() ==> forall k :: k in m <==> k in names
    {
      tools
    }
  }
}
