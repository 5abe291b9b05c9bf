/** A tool invocation requested by the model. */
module ToolCalls {
  import opened Wrappers
  import opened Values

  /** A structured tool call; `arguments` defaults to an empty map. */
  datatype ToolCall = ToolCall(id: string, name: string, arguments: Args := map[])

  /**
   * A tool call as a dict in the model's response, where each of the keys
   * "id", "name" and "arguments" may be missing.
   */
  datatype ToolCallDict = ToolCallDict(
    id: Option<string> := None,
    name: Option<string> := None,
    arguments: Option<Args> := None)

  /**
   * `ToolCall.from_dict`: copies each key that is present; a missing "id" or
   * "name" becomes "" and missing "arguments" become {}.
   */
  function FromDict(d: ToolCallDict): (tc: ToolCall)
    ensures tc.id == (if d.id.Some? then d.id.value else "")
    ensures tc.name == (if d.name.Some? then d.name.value else "")
    ensures tc.arguments == (if d.arguments.Some? then d.arguments.value else map[])
  {
    ToolCall(d.id.GetOr(""), d.name.GetOr(""), d.arguments.GetOr(map[]))
  }
}
