/** The conversation graph: entry at the assistant node, the tools node always returns to the
    assistant, and the branch out of the assistant goes to the tools when the last message requests
    tools and ends the turn otherwise. */
module Graph {
  import opened Wrappers
  import opened Messages
  import opened ToolErrors
  import opened AssistantStep

  datatype Node = Start | AssistantNode | ToolsNode | End

  /** The routing decision out of the assistant, taken as "the last message has tool calls". */
  predicate ToolsCondition(messages: seq<Message>) {
    messages != [] && messages[|messages| - 1].AssistantMessage? && messages[|messages| - 1].toolCalls != []
  }

  /** The edges of the graph. */
  function Next(n: Node, messages: seq<Message>): (r: Node)
    ensures n == Start ==> r == AssistantNode
    ensures n == ToolsNode ==> r == AssistantNode
    ensures n == AssistantNode ==> (r == ToolsNode <==> ToolsCondition(messages))
    ensures n == AssistantNode ==> (r == End <==> !ToolsCondition(messages))
    ensures r != Start
  {
    match n
    case Start => AssistantNode
    case AssistantNode => if ToolsCondition(messages) then ToolsNode else End
    case ToolsNode => AssistantNode
    case End => End
  }

  /** What running the requested tools gives: the tool messages, or the error raised. */
  datatype ToolRun = ToolsOk(replies: seq<Message>) | ToolsRaised(error: ErrorValue)

  /** The collaborators of a turn: the model, the tool runner and the retry budget of one
      assistant step. */
  datatype Env = Env(invoke: State -> AIMessage, runTools: seq<Message> -> ToolRun, retryFuel: nat)

  /** How far a turn got within `steps` node executions. */
  datatype TurnOutcome =
    | Finished(state: State)
    | OutOfSteps(node: Node, state: State)
    | AssistantRetrying(state: State)

  /** The tools node: the tools' messages, or on failure the fallback's error message per call. At
      this node the last message is an assistant message with tool calls. */
  function ToolsStep(env: Env, s: State): (r: seq<Message>)
    requires ToolsCondition(s.messages)
  {
    match env.runTools(s.messages)
    case ToolsOk(replies) => replies
    case ToolsRaised(e) => HandleToolError(s.messages, e).value
  }

  /** Executes node `n` and its successors, appending each node's output to the conversation. */
  function Run(env: Env, n: Node, s: State, steps: nat): TurnOutcome
    requires n == ToolsNode ==> ToolsCondition(s.messages)
    decreases steps
  {
    if n == End then Finished(s)
    else if steps == 0 then OutOfSteps(n, s)
    else match n
      case Start => Run(env, Next(Start, s.messages), s, steps - 1)
      case AssistantNode =>
        (match Retry(env.invoke, s, env.retryFuel)
         case StillRetrying(_) => AssistantRetrying(s)
         case Returned(u) =>
           var s' := s.(messages := s.messages + [u.message]);
           Run(env, Next(AssistantNode, s'.messages), s', steps - 1))
      case ToolsNode =>
        var s' := s.(messages := s.messages + ToolsStep(env, s));
        Run(env, Next(ToolsNode, s'.messages), s', steps - 1)
  }

  /** A finished run keeps the conversation as a prefix and ends on an assistant message with no
      tool calls and non-empty text, or at its starting state when it was started at End. */
  lemma {:induction false} FinishedEndsWithReply(env: Env, n: Node, s: State, steps: nat)
    requires n == ToolsNode ==> ToolsCondition(s.messages)
    requires n != End
    requires Run(env, n, s, steps).Finished?
    ensures var f := Run(env, n, s, steps).state;
      && s.messages <= f.messages
      && f.userInfo == s.userInfo
      && |f.messages| > 0
      && var last := f.messages[|f.messages| - 1];
         last.AssistantMessage? && last.toolCalls == [] && !IsEmptyReply(last)
    decreases steps
  {
    match n
    case Start =>
      FinishedEndsWithReply(env, AssistantNode, s, steps - 1);
    case AssistantNode =>
      var u := Retry(env.invoke, s, env.retryFuel).update;
      ReturnedIsReal(env.invoke, s, env.retryFuel);
      var s' := s.(messages := s.messages + [u.message]);
      if Next(AssistantNode, s'.messages) != End {
        FinishedEndsWithReply(env, ToolsNode, s', steps - 1);
      }
    case ToolsNode =>
      var s' := s.(messages := s.messages + ToolsStep(env, s));
      FinishedEndsWithReply(env, AssistantNode, s', steps - 1);
  }

  /** A turn: the user's line is added to the stored conversation and the graph runs from its entry. */
  function Turn(env: Env, conversation: State, userInput: string, steps: nat): TurnOutcome {
    Run(env, Start, conversation.(messages := conversation.messages + [UserMessage(Text(userInput), None)]), steps)
  }

  /** Every finished turn ends with the assistant's real reply, after the user's line. */
  lemma TurnEndsWithReply(env: Env, conversation: State, userInput: string, steps: nat)
    requires Turn(env, conversation, userInput, steps).Finished?
    ensures var f := Turn(env, conversation, userInput, steps).state.messages;
      && conversation.messages + [UserMessage(Text(userInput), None)] <= f
      && |f| > |conversation.messages| + 1
      && f[|f| - 1].AssistantMessage? && f[|f| - 1].toolCalls == [] && !IsEmptyReply(f[|f| - 1])
  {
    var s := conversation.(messages := conversation.messages + [UserMessage(Text(userInput), None)]);
    FinishedEndsWithReply(env, Start, s, steps);
  }

  /** When the tools raise, the fallback answers every call of the last assistant message in
      order, and the tools node hands back to the assistant. */
  lemma ToolFailureAnswersAll(env: Env, s: State, e: ErrorValue)
    requires ToolsCondition(s.messages)
    requires env.runTools(s.messages) == ToolsRaised(e)
    ensures AnswersInOrder(ToolsStep(env, s), s.messages[|s.messages| - 1].toolCalls)
    ensures Next(ToolsNode, s.messages + ToolsStep(env, s)) == AssistantNode
  {
  }
}
