/**
 * The deterministic scripted backend: pattern matching on the last user
 * message, then a default tool call or a default text answer.
 */
module MockLlm {
  import opened Wrappers
  import opened Text
  import opened Dicts
  import opened Messages
  import opened ToolCalls
  import opened Tools
  import opened Llm

  /** A scripted response dict, where "content" and "tool_calls" may each be missing. */
  datatype ScriptedReply = ScriptedReply(
    content: Option<string> := None,
    toolCalls: Option<seq<ToolCallDict>> := None)

  /** Scripted responses keyed by pattern, in insertion order. */
  type Script = Dict<ScriptedReply>

  const DEFAULT_ANSWER := "I understand. Task complete."

  /** The position of the last "user" entry of the conversation, if there is one. */
  function LastUserIndex(ms: seq<Message>): (k: Option<nat>)
    ensures k.Some? ==> k.value < |ms| && ms[k.value].role == "user"
    ensures k.Some? ==> forall j :: k.value < j < |ms| ==> ms[j].role != "user"
    ensures k.None? ==> forall j :: 0 <= j < |ms| ==> ms[j].role != "user"
    decreases |ms|
  {
    if ms == [] then None
    else if ms[|ms| - 1].role == "user" then Some(|ms| - 1)
    else LastUserIndex(ms[..|ms| - 1])
  }

  /** The lower-cased content of the last user entry, or "" when there is none. */
  function LastUserContent(ms: seq<Message>): (s: string)
    ensures LastUserIndex(ms).None? ==> s == ""
    ensures LastUserIndex(ms).Some? ==> s == Lower(ms[LastUserIndex(ms).value].content)
  {
    match LastUserIndex(ms)
    case None => ""
    case Some(k) => Lower(ms[k].content)
  }

  /** Entries appended after the last user entry do not change what is matched. */
  lemma {:induction false} LastUserIgnoresTrailing(ms: seq<Message>, extra: seq<Message>)
    requires forall j :: 0 <= j < |extra| ==> extra[j].role != "user"
    ensures LastUserIndex(ms + extra) == LastUserIndex(ms)
    ensures LastUserContent(ms + extra) == LastUserContent(ms)
    decreases |extra|
  {
    if extra != [] {
      var init := extra[..|extra| - 1];
      assert (ms + extra)[..|ms + extra| - 1] == ms + init;
      assert (ms + extra)[|ms + extra| - 1] == extra[|extra| - 1];
      LastUserIgnoresTrailing(ms, init);
    } else {
      assert ms + extra == ms;
    }
  }

  /**
   * The first pattern, in order, whose lower-cased form occurs in `text`;
   * later patterns are not looked at once one matches.
   */
  function FirstMatch(patterns: seq<string>, text: string): (i: Option<nat>)
    ensures i.Some? ==> i.value < |patterns| && Contains(text, Lower(patterns[i.value]))
    ensures i.Some? ==> forall j :: 0 <= j < i.value ==> !Contains(text, Lower(patterns[j]))
    ensures i.None? ==> forall j :: 0 <= j < |patterns| ==> !Contains(text, Lower(patterns[j]))
    decreases |patterns|
  {
    if patterns == [] then None
    else if Contains(text, Lower(patterns[0])) then Some(0)
    else match FirstMatch(patterns[1..], text)
      case None => None
      case Some(k) => Some(k + 1)
  }

  /** The reply a matched pattern produces: finish reason "stop", tool calls default to none. */
  function Scripted(reply: ScriptedReply): (r: LLMResponse)
    ensures r.content == reply.content && r.finishReason == Some("stop")
    ensures r.toolCalls == (if reply.toolCalls.Some? then reply.toolCalls.value else [])
  {
    LLMResponse(reply.content, reply.toolCalls.GetOr([]), Some("stop"))
  }

  /**
   * `MockLLM.generate` as the `n`-th call: a scripted reply for the first
   * matching pattern; otherwise a call of the first catalogued tool with no
   * arguments and id "call_<n>"; otherwise the default text answer.
   */
  function MockRespond(script: Script, n: nat, ms: seq<Message>, tools: seq<CatalogEntry>): (r: LLMResponse)
    ensures script.Valid() && FirstMatch(script.keys, LastUserContent(ms)).Some? ==>
      r == Scripted(script.entries[script.keys[FirstMatch(script.keys, LastUserContent(ms)).value]])
    ensures FirstMatch(script.keys, LastUserContent(ms)).None? && tools != [] ==>
      r.content == None && r.finishReason == Some("tool_calls")
      && r.toolCalls == [ToolCallDict(Some("call_" + NatToString(n)), Some(tools[0].fn.name), Some(map[]))]
    ensures FirstMatch(script.keys, LastUserContent(ms)).None? && tools == [] ==>
      r == LLMResponse(Some(DEFAULT_ANSWER), [], Some("stop"))
  {
    match FirstMatch(script.keys, LastUserContent(ms))
    case Some(i) =>
      (match script.Get(script.keys[i])
       case Some(reply) => Scripted(reply)
       case None => LLMResponse())
    case None =>
      if tools != [] then
        LLMResponse(None, [ToolCallDict(Some("call_" + NatToString(n)), Some(tools[0].fn.name), Some(map[]))], Some("tool_calls"))
      else
        LLMResponse(Some(DEFAULT_ANSWER), [], Some("stop"))
  }

  /**
   * The answer depends on the conversation only through its last user entry:
   * appending tool or assistant entries does not change it, so a scripted
   * reply that matched once matches again on the next step.
   */
  lemma ScriptedReplyRepeats(script: Script, n: nat, m: nat, ms: seq<Message>, extra: seq<Message>, tools: seq<CatalogEntry>)
    requires script.Valid()
    requires forall j :: 0 <= j < |extra| ==> extra[j].role != "user"
    requires FirstMatch(script.keys, LastUserContent(ms)).Some?
    ensures MockRespond(script, m, ms + extra, tools) == MockRespond(script, n, ms, tools)
  {
    LastUserIgnoresTrailing(ms, extra);
  }

  /**
   * `MockLLM(scripted_responses)`: a backend with no calls made yet that
   * answers as `MockRespond`; a missing or empty script means no patterns.
   */
  method NewMockLLM(scripted: Option<Script>) returns (m: LanguageModel)
    requires scripted.Some? ==> scripted.value.Valid()
    ensures fresh(m) && m.callCount == 0
    ensures forall n, ms, tools :: m.respond(n, ms, tools) == MockRespond(ScriptOf(scripted), n, ms, tools)
  {
    var script := ScriptOf(scripted);
    m := new LanguageModel((n: nat, ms: seq<Message>, tools: seq<CatalogEntry>) => MockRespond(script, n, ms, tools));
  }

  /** `scripted_responses or {}`. */
  function ScriptOf(scripted: Option<Script>): (s: Script)
    requires scripted.Some? ==> scripted.value.Valid()
    ensures s.Valid()
    ensures scripted.None? ==> s.keys == []
    ensures scripted.Some? ==> s.entries == scripted.value.entries && s.keys == scripted.value.keys
  {
    if scripted.Some? && scripted.value.keys != [] then scripted.value else Empty()
  }
}
