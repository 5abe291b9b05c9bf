/** Conversation entries exchanged with the language model (`dict[str, str]`). */
module Messages {
  import opened Wrappers

  /**
   * One conversation entry. System, user and assistant entries carry only a
   * role and content; tool entries also name the call they answer.
   */
  datatype Message = Message(
    role: string,
    content: string,
    toolCallId: Option<string> := None,
    name: Option<string> := None)
}
