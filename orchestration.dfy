/** Stop-condition and context-formatting helpers for agent steps. */
module Orchestration {
  import opened Text
  import opened Values
  import opened ToolCallResults

  /**
   * `should_continue`: keep going only while both the step budget and the
   * consecutive-failure budget have room left.
   */
  function ShouldContinue(stepCount: int, maxSteps: int, failures: int, maxFailures: int): (r: bool)
    ensures r <==> stepCount < maxSteps && failures < maxFailures
  {
    if stepCount >= maxSteps then false
    else if failures >= maxFailures then false
    else true
  }

  /** The context line for one result: what failed and why, or what came back. */
  function ResultLine(r: ToolCallResult): (line: string)
    ensures r.isError ==> line == "Tool " + r.toolName + " failed: " + OptStr(r.error)
    ensures !r.isError ==> line == "Tool " + r.toolName + " returned: " + Str(r.result)
  {
    if r.isError then "Tool " + r.toolName + " failed: " + OptStr(r.error)
    else "Tool " + r.toolName + " returned: " + Str(r.result)
  }

  /** The lines for every result, in order. */
  function ResultLines(rs: seq<ToolCallResult>): (ls: seq<string>)
    ensures |ls| == |rs|
    ensures forall i :: 0 <= i < |rs| ==> ls[i] == ResultLine(rs[i])
  {
    seq(|rs|, i requires 0 <= i < |rs| => ResultLine(rs[i]))
  }

  /**
   * `format_tool_results_for_context`: the result lines joined by newlines,
   * or the empty string when there are no results.
   */
  function FormatToolResults(rs: seq<ToolCallResult>): (text: string)
    ensures rs == [] <==> text == ""
  {
    if rs == [] then ""
    else
      Join(ResultLines(rs), '\n')
  }

  /**
   * When no tool name, result or error text spans several lines, splitting the
   * formatted context at newlines gives back one line per result, in the
   * order of the results.
   */
  lemma FormatSplitsPerResult(rs: seq<ToolCallResult>)
    requires rs != []
    requires forall i :: 0 <= i < |rs| ==> '\n' !in ResultLine(rs[i])
    ensures Split(FormatToolResults(rs), '\n') == ResultLines(rs)
    ensures |Split(FormatToolResults(rs), '\n')| == |rs|
  {
    SplitJoin(ResultLines(rs), '\n');
  }
}
