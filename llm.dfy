/** The boundary to the language-model backend (`BaseLLM`). */
module Llm {
  import opened Wrappers
  import opened Messages
  import opened ToolCalls
  import opened Tools

  /**
   * One generation: optional text, tool-call dicts in emission order (none by
   * default) and an optional finish reason.
   */
  datatype LLMResponse = LLMResponse(
    content: Option<string> := None,
    toolCalls: seq<ToolCallDict> := [],
    finishReason: Option<string> := None)

  /**
   * What a backend computes: from its call number (1 for the first call), the
   * conversation so far and the tool catalog, a response. Backends that keep
   * no count ignore the number.
   */
  type Generator = (nat, seq<Message>, seq<CatalogEntry>) -> LLMResponse

  /** A backend object: its behaviour and the number of `generate` calls made on it. */
  class LanguageModel {
    var callCount: nat
    const respond: Generator

    constructor (respond: Generator)
      ensures this.respond == respond && callCount == 0
    {
      this.respond := respond;
      callCount := 0;
    }

    /** `generate(messages, tools)`: counts the call, then answers. */
    method Generate(messages: seq<Message>, tools: seq<CatalogEntry>) returns (r: LLMResponse)
      modifies this
      ensures callCount == old(callCount) + 1
      ensures r == respond(callCount, messages, tools)
    {
      callCount := callCount + 1;
      r := respond(callCount, messages, tools);
    }
  }
}
