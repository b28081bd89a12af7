/** The assistant node: invokes the model and, while the reply is empty, re-prompts it on a local
    copy of the state extended with two nudge messages. */
module AssistantStep {
  import opened Wrappers
  import opened Messages

  const NudgeText := "Respond with a real output."

  /** The synthetic user message appended on every empty reply. */
  const NudgeMessage: Message := UserMessage(Text(NudgeText), None)

  /** `{**state, "messages": state["messages"] + [("user", ...)]}`: a copy with one nudge added. */
  function Nudge(s: State): State {
    s.(messages := s.messages + [NudgeMessage])
  }

  /** The state handed to the model on attempt `k` (counting from 0): each earlier, empty attempt
      nudged the state twice. */
  function Prompted(s: State, k: nat): State {
    if k == 0 then s else Nudge(Nudge(Prompted(s, k - 1)))
  }

  /** `n` copies of the nudge message. */
  function Nudges(n: nat): (r: seq<Message>)
    ensures |r| == n && forall i :: 0 <= i < n ==> r[i] == NudgeMessage
  {
    seq(n, _ => NudgeMessage)
  }

  /** What the node gives back: `{"messages": result}`, the accepted reply alone. */
  datatype Update = Update(message: AIMessage)

  /** The source loops until the model gives a real reply. With a finite budget of attempts the
      model either returned (`Returned`) or would still be retrying from state `pending`. */
  datatype CallOutcome = Returned(update: Update) | StillRetrying(pending: State)

  /** The retry loop as a function of the model, the caller's state and the attempt budget. */
  function Retry(invoke: State -> AIMessage, s: State, fuel: nat): CallOutcome
    decreases fuel
  {
    if fuel == 0 then StillRetrying(s)
    else
      var result := invoke(s);
      if IsEmptyReply(result) then Retry(invoke, Nudge(Nudge(s)), fuel - 1)
      else Returned(Update(result))
  }

  /** The state of attempt `k` keeps the caller's messages as a prefix, adds exactly two nudges per
      earlier attempt and nothing else, and keeps the user-info entry. */
  lemma {:induction false} PromptedShape(s: State, k: nat)
    ensures Prompted(s, k).messages == s.messages + Nudges(2 * k)
    ensures Prompted(s, k).userInfo == s.userInfo
  {
    if k > 0 {
      PromptedShape(s, k - 1);
      assert Nudges(2 * k) == Nudges(2 * (k - 1)) + [NudgeMessage, NudgeMessage];
    }
  }

  /** Retrying from attempt `k` with `fuel` attempts left is retrying from the start with `k` more
      attempts, when the first `k` replies were empty. */
  lemma {:induction false} RetryFromAttempt(invoke: State -> AIMessage, s: State, k: nat, fuel: nat)
    requires forall j :: 0 <= j < k ==> IsEmptyReply(invoke(Prompted(s, j)))
    ensures Retry(invoke, s, k + fuel) == Retry(invoke, Prompted(s, k), fuel)
    decreases k
  {
    if k > 0 {
      RetryFromAttempt(invoke, s, k - 1, fuel + 1);
      assert k + fuel == (k - 1) + (fuel + 1);
    }
  }

  /** A reply that the loop returns is never empty. */
  lemma {:induction false} ReturnedIsReal(invoke: State -> AIMessage, s: State, fuel: nat)
    requires Retry(invoke, s, fuel).Returned?
    ensures !IsEmptyReply(Retry(invoke, s, fuel).update.message)
    decreases fuel
  {
    if fuel > 0 && IsEmptyReply(invoke(s)) {
      ReturnedIsReal(invoke, Nudge(Nudge(s)), fuel - 1);
    }
  }

  /** The budget is not behaviour: once the loop returns within `fuel` attempts, every larger budget
      returns the same reply. */
  lemma {:induction false} BudgetIrrelevant(invoke: State -> AIMessage, s: State, fuel: nat, more: nat)
    requires Retry(invoke, s, fuel).Returned?
    requires fuel <= more
    ensures Retry(invoke, s, more) == Retry(invoke, s, fuel)
    decreases fuel
  {
    if IsEmptyReply(invoke(s)) {
      BudgetIrrelevant(invoke, Nudge(Nudge(s)), fuel - 1, more - 1);
    }
  }

  /** The loop returns the first real reply: if attempt `k` is the first non-empty one and the budget
      covers it, that reply is what comes back. */
  lemma FirstRealReplyReturned(invoke: State -> AIMessage, s: State, k: nat, fuel: nat)
    requires forall j :: 0 <= j < k ==> IsEmptyReply(invoke(Prompted(s, j)))
    requires !IsEmptyReply(invoke(Prompted(s, k)))
    requires k < fuel
    ensures Retry(invoke, s, fuel) == Returned(Update(invoke(Prompted(s, k))))
  {
    RetryFromAttempt(invoke, s, k, fuel - k);
  }

  /** `Assistant`: wraps the model runnable; calling it runs the retry loop. */
  class Assistant {
    const runnable: State -> AIMessage

    constructor (runnable: State -> AIMessage)
      ensures this.runnable == runnable
    {
      this.runnable := runnable;
    }

    /** `__call__` with a budget of `fuel` model invocations. `attempts` is how many were made. The
        caller's state is a value and is never changed; only the accepted reply is returned. */
    method Call(state: State, fuel: nat) returns (outcome: CallOutcome, attempts: nat)
      ensures outcome == Retry(runnable, state, fuel)
      ensures attempts <= fuel
      ensures forall j :: 0 <= j < attempts - 1 ==> IsEmptyReply(runnable(Prompted(state, j)))
      ensures outcome.Returned? ==>
        && 1 <= attempts
        && outcome.update.message == runnable(Prompted(state, attempts - 1))
        && !IsEmptyReply(outcome.update.message)
      ensures outcome.StillRetrying? ==>
        && attempts == fuel
        && (fuel > 0 ==> IsEmptyReply(runnable(Prompted(state, fuel - 1))))
        && outcome.pending == Prompted(state, fuel)
    {
      var s := state;
      attempts := 0;
      while attempts < fuel
        invariant attempts <= fuel
        invariant s == Prompted(state, attempts)
        invariant forall j :: 0 <= j < attempts ==> IsEmptyReply(runnable(Prompted(state, j)))
        invariant Retry(runnable, state, fuel) == Retry(runnable, s, fuel - attempts)
      {
        var result := runnable(s);
        attempts := attempts + 1;
        if !IsEmptyReply(result) {
          return Returned(Update(result)), attempts;
        }
        var messages := s.messages + [NudgeMessage];
        s := s.(messages := messages);
        messages := s.messages + [NudgeMessage];
        s := s.(messages := messages);
      }
      outcome := StillRetrying(s);
    }
  }
}
