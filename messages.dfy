/** Chat messages and the graph state they live in. */
module Messages {
  import opened Wrappers

  /** A content block of a list-shaped reply; only its optional "text" entry is ever consulted. */
  datatype Block = Block(text: Option<string>)

  /** Message content is either a plain string or a list of blocks. */
  datatype Content = Text(s: string) | Blocks(blocks: seq<Block>)

  /** A tool invocation requested by the model. The arguments are passed through unread. */
  datatype ToolCall = ToolCall(id: string, name: string, args: map<string, string>)

  /** The three message roles that occur in a conversation. Only assistant messages carry tool
      calls; a tool message names the call it answers. */
  datatype Message =
    | UserMessage(content: Content, id: Option<string>)
    | AssistantMessage(content: Content, toolCalls: seq<ToolCall>, id: Option<string>)
    | ToolMessage(content: Content, toolCallId: string, id: Option<string>)

  /** What the language model returns. */
  type AIMessage = m: Message | m.AssistantMessage? witness AssistantMessage(Text(""), [], None)

  /** The graph state: the ordered conversation and the user-info entry. */
  datatype State = State(messages: seq<Message>, userInfo: string)

  /** Python truthiness of an optional string: present and non-empty. */
  predicate Truthy(t: Option<string>) {
    t.Some? && t.value != ""
  }

  /** The reply is empty: no tool calls, and either the content is falsy (an empty string or an
      empty list) or it is a list whose first block has no truthy text. */
  predicate IsEmptyReply(m: AIMessage) {
    && m.toolCalls == []
    && match m.content
       case Text(s) => s == ""
       case Blocks(bs) => bs == [] || !Truthy(bs[0].text)
  }

  /** A reply counts as real exactly when it requests a tool, or has non-empty string content,
      or is a list whose first block carries non-empty text. */
  lemma RealReplyIff(m: AIMessage)
    ensures !IsEmptyReply(m) <==>
      || m.toolCalls != []
      || (m.content.Text? && |m.content.s| > 0)
      || (m.content.Blocks? && |m.content.blocks| > 0 && m.content.blocks[0].text.Some?
          && |m.content.blocks[0].text.value| > 0)
  {
  }
}
