/** The fallback of the tool node: when running the requested tools raises, every tool call of the
    last assistant message is answered with the same error message, so that the model can correct
    its next request instead of the turn failing. */
module ToolErrors {
  import opened Wrappers
  import opened Messages

  /** The value stored under the state's "error" key. Its `repr` is produced by the runtime and is
      taken as given; an absent key reads as None. */
  datatype ErrorValue = NoError | Raised(repr: string)

  function Repr(e: ErrorValue): string {
    match e
    case NoError => "None"
    case Raised(r) => r
  }

  /** Why the fallback itself can fail: the message list is empty (IndexError), or its last message
      is not an assistant message and so has no tool calls (AttributeError). */
  datatype HandlerFailure = NoMessages | NoToolCallsAttribute

  /** The text every error message carries. */
  function ErrorText(error: ErrorValue): string {
    "Error: " + Repr(error) + "\n please fix your mistakes."
  }

  /** The tool messages `result` answer the calls `calls` one for one, in order. */
  predicate AnswersInOrder(result: seq<Message>, calls: seq<ToolCall>) {
    && |result| == |calls|
    && forall i :: 0 <= i < |result| ==> result[i].ToolMessage? && result[i].toolCallId == calls[i].id
  }

  /** One tool message per call, each carrying `text` and linked to that call's id. */
  function ErrorMessages(calls: seq<ToolCall>, text: string): (r: seq<Message>)
    ensures AnswersInOrder(r, calls)
    ensures forall i :: 0 <= i < |r| ==> r[i].content == Text(text) && r[i].id == None
  {
    if calls == [] then []
    else [ToolMessage(Text(text), calls[0].id, None)] + ErrorMessages(calls[1..], text)
  }

  /** `handle_tool_error`: reads the error and the last message's tool calls and answers them all. */
  function HandleToolError(messages: seq<Message>, error: ErrorValue): (r: Result<seq<Message>, HandlerFailure>)
    ensures messages == [] <==> r == Err(NoMessages)
    ensures messages != [] && !messages[|messages| - 1].AssistantMessage? <==> r == Err(NoToolCallsAttribute)
    ensures r.Ok? ==> AnswersInOrder(r.value, messages[|messages| - 1].toolCalls)
    ensures r.Ok? ==> forall i :: 0 <= i < |r.value| ==> r.value[i].content == Text("Error: " + Repr(error) + "\n please fix your mistakes.")
  {
    if messages == [] then Err(NoMessages)
    else
      var last := messages[|messages| - 1];
      if !last.AssistantMessage? then Err(NoToolCallsAttribute)
      else Ok(ErrorMessages(last.toolCalls, ErrorText(error)))
  }

  /** Every call is answered, not only the one that failed: the set of answered ids is exactly the
      set of requested ids. */
  lemma EveryCallAnswered(calls: seq<ToolCall>, text: string)
    ensures (set m | m in ErrorMessages(calls, text) :: m.toolCallId) == (set c | c in calls :: c.id)
  {
  }

  /** The error messages depend on the calls only through their ids: two call lists with the same
      ids give the same messages. */
  lemma DependsOnlyOnIds(a: seq<ToolCall>, b: seq<ToolCall>, text: string)
    requires |a| == |b|
    requires forall i :: 0 <= i < |a| ==> a[i].id == b[i].id
    ensures ErrorMessages(a, text) == ErrorMessages(b, text)
  {
  }
}
