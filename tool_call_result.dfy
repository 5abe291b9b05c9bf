/** The outcome of executing one tool call. */
module ToolCallResults {
  import opened Wrappers
  import opened Values
  import opened Messages

  /**
   * A tool call's outcome. The record itself does not tie `isError` to
   * `error`: any combination can be built, and only the registry's three
   * ways of building one keep them consistent.
   */
  datatype ToolCallResult = ToolCallResult(
    toolCallId: string,
    toolName: string,
    result: Value := VNull,
    error: Option<string> := None,
    isError: bool := false)
  {
    /** `isError` holds exactly when an error message is present. */
    predicate Consistent() {
      isError <==> error.Some?
    }

    /** The text the model sees: the error when it failed, else the result. */
    function Content(): (s: string)
      ensures isError && error.Some? ==> s == error.value
      ensures !isError ==> s == Str(result)
    {
      if isError then OptStr(error) else Str(result)
    }

    /**
     * `to_message`: a "tool" entry answering this call, named after the tool,
     * whose content is `str(error)` when it failed and `str(result)` otherwise.
     */
    function ToMessage(): (m: Message)
      ensures m.role == "tool"
      ensures m.toolCallId == Some(toolCallId) && m.name == Some(toolName)
      ensures m.content == Content()
    {
      Message("tool", Content(), Some(toolCallId), Some(toolName))
    }
  }

  /** The record allows an error flag without a message: nothing enforces consistency. */
  lemma RecordAllowsInconsistency()
    ensures !ToolCallResult("c", "t", isError := true).Consistent()
    ensures ToolCallResult("c", "t", isError := true).ToMessage().content == "None"
  {
  }
}
