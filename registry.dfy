/** The tool registry: an insertion-ordered name-to-tool map that contains tool failures. */
module Registry {
  import opened Wrappers
  import opened Values
  import opened Dicts
  import opened Tools
  import opened ToolCalls
  import opened ToolCallResults

  function NotFoundError(name: string): string {
    "Tool '" + name + "' not found"
  }

  function DuplicateError(name: string): string {
    "Tool '" + name + "' is already registered. Use replace=True to override."
  }

  /**
   * `execute` against a name-to-tool table. An unknown name and a tool that
   * raises both come back as error results; nothing propagates. The result
   * always answers the call (same id and name) and is consistent: it carries
   * an error message exactly when it is flagged as an error, and then no result.
   */
  function ExecuteWith(tools: map<string, Tool>, call: ToolCall): (r: ToolCallResult)
    ensures r.toolCallId == call.id && r.toolName == call.name
    ensures r.Consistent() && (r.isError ==> r.result == VNull)
    ensures call.name !in tools ==> r.isError && r.error == Some(NotFoundError(call.name))
    ensures call.name in tools ==>
      match tools[call.name].invoke(call.arguments)
      case Ok(v) => !r.isError && r.result == v
      case Err(msg) => r.isError && r.error == Some(msg)
  {
    if call.name !in tools then
      ToolCallResult(call.id, call.name, error := Some(NotFoundError(call.name)), isError := true)
    else
      match tools[call.name].invoke(call.arguments)
      case Ok(v) => ToolCallResult(call.id, call.name, result := v, isError := false)
      case Err(msg) => ToolCallResult(call.id, call.name, error := Some(msg), isError := true)
  }

  /** `[tool.to_dict() for tool in tools]`, in the dict's order. */
  function CatalogOf(tools: Dict<Tool>): (c: seq<CatalogEntry>)
    requires tools.Valid()
    ensures |c| == |tools.keys|
    ensures forall i :: 0 <= i < |c| ==> c[i] == tools.entries[tools.keys[i]].ToDict()
  {
    var vs := tools.Values();
    seq(|vs|, i requires 0 <= i < |vs| => vs[i].ToDict())
  }

  class ToolRegistry {
    var tools: Dict<Tool>

    /** A well-formed dict in which every tool is filed under its own name. */
    ghost predicate Valid()
      reads this
    {
      && tools.Valid()
      && forall k :: k in tools.entries ==> tools.entries[k].name == k
    }

    constructor ()
      ensures Valid() && tools.keys == [] && tools.entries == map[]
    {
      tools := Empty();
    }

    /**
     * `register(tool, replace)`: a name already present with `replace` false
     * is refused with the ValueError message and nothing changes; otherwise
     * the tool is filed under its name, last if new, in place if replacing.
     */
    method Register(tool: Tool, replace: bool := false) returns (o: Outcome)
      requires Valid()
      modifies this
      ensures Valid()
      ensures tool.name in old(tools.entries) && !replace ==>
        o == Fail(DuplicateError(tool.name)) && tools == old(tools)
      ensures !(tool.name in old(tools.entries) && !replace) ==>
        o == Pass && tools == old(tools).Put(tool.name, tool)
    {
      if tool.name in tools.entries && !replace {
        return Fail(DuplicateError(tool.name));
      }
      tools := tools.Put(tool.name, tool);
      o := Pass;
    }

    /** `unregister(name)`: removes the name if present, otherwise does nothing. */
    method Unregister(name: string)
      requires Valid()
      modifies this
      ensures Valid()
      ensures tools == old(tools).Remove(name)
    {
      tools := tools.Remove(name);
    }

    /** `get(name)`: the tool filed under `name`, if any; never raises. */
    function Get(name: string): (r: Option<Tool>)
      reads this
      requires Valid()
      ensures r.Some? <==> name in tools.entries
      ensures r.Some? ==> r.value == tools.entries[name] && r.value.name == name
    {
      tools.Get(name)
    }

    /** `list()`: every registered tool once, in registration order. */
    function List(): (r: seq<Tool>)
      reads this
      requires Valid()
      ensures |r| == |tools.keys|
      ensures forall i :: 0 <= i < |r| ==> r[i].name == tools.keys[i] && r[i] == tools.entries[tools.keys[i]]
    {
      tools.Values()
    }

    /** `list_for_llm()`: one catalog entry per registered tool, in registration order. */
    function ListForLLM(): (r: seq<CatalogEntry>)
      reads this
      requires Valid()
      ensures |r| == |tools.keys|
      ensures forall i :: 0 <= i < |r| ==> r[i] == tools.entries[tools.keys[i]].ToDict()
      ensures forall i :: 0 <= i < |r| ==> r[i].kind == "function" && r[i].fn.name == tools.keys[i]
    {
      CatalogOf(tools)
    }

    /** `execute(call)`: reads the registry and never changes it. */
    function Execute(call: ToolCall): (r: ToolCallResult)
      reads this
      ensures r == ExecuteWith(tools.entries, call)
    {
      ExecuteWith(tools.entries, call)
    }
  }
}
