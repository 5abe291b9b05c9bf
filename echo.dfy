/** The builtin identity tool. */
module Echo {
  import opened Wrappers
  import opened Text
  import opened Values
  import opened Tools
  import opened ToolCalls
  import opened ToolCallResults
  import opened Registry

  const ECHO_SCHEMA := ParamSchema([("message", ParamSpec("string", "The message to echo back"))], ["message"])

  /**
   * `EchoTool()(**args)`: the "message" argument unchanged; other keywords are
   * ignored, and a missing "message" is Python's missing-argument `TypeError`.
   */
  function EchoInvoke(args: Args): (r: Result<Value>)
    ensures "message" in args ==> r == Ok(args["message"])
    ensures "message" !in args ==> r == Err(MissingArgumentsError("EchoTool.__call__", ["message"]))
  {
    match Bind("EchoTool.__call__", ["message"], args)
    case Ok(vs) => Ok(vs[0])
    case Err(e) =>
      assert Missing(["message"], args) == ["message"];
      Err(e)
  }

  const ECHO_TOOL := Tool("echo", "Echoes back the input message. Useful for testing.", ECHO_SCHEMA, EchoInvoke)

  /**
   * Through a registry holding the echo tool: a call with a message succeeds
   * with that message; a call without one comes back as an error result
   * carrying the `TypeError` text instead of raising.
   */
  lemma EchoThroughRegistry(tools: map<string, Tool>, call: ToolCall)
    requires "echo" in tools && tools["echo"] == ECHO_TOOL && call.name == "echo"
    ensures "message" in call.arguments ==>
      var r := ExecuteWith(tools, call); !r.isError && r.result == call.arguments["message"]
    ensures "message" !in call.arguments ==>
      var r := ExecuteWith(tools, call);
      r.isError
      && r.error == Some("EchoTool.__call__" + "() missing " + "1" + " required positional argument" + ": " + "'message'")
  {
    if "message" !in call.arguments {
      MissingMessageText();
    }
  }

  /** The `TypeError` text of a call without its message, piece by piece. */
  lemma MissingMessageText()
    ensures MissingArgumentsError("EchoTool.__call__", ["message"])
         == "EchoTool.__call__" + "() missing " + "1" + " required positional argument" + ": " + "'message'"
  {
    assert NatToString(1) == "1";
    assert QuoteNames(["message"]) == "'message'";
    var head := "EchoTool.__call__" + "() missing " + "1" + " required positional argument";
    assert head + "" == head;
  }


}
