/** Printing a streamed event: the dialog state's last entry if there is one, then the event's
    (last) message, truncated, at most once per message id. */
module PrintEvent {
  import opened Wrappers
  import opened Messages

  const TruncationMarker := " ... (truncated)"
  const DefaultMaxLength := 1500

  /** The "messages" entry of an event: one message or a list of them. */
  datatype EventMessages = One(message: Message) | Many(messages: seq<Message>)

  /** The two event entries that are read. */
  datatype StreamEvent = StreamEvent(dialogState: Option<seq<string>>, messages: Option<EventMessages>)

  function Id(m: Message): Option<string> {
    m.id
  }

  function Min(a: int, b: int): int { if a <= b then a else b }
  function Max(a: int, b: int): int { if a <= b then b else a }

  /** Python's `s[:n]`: a negative `n` counts from the end. */
  function SlicePrefix(s: string, n: int): (r: string)
    ensures r <= s
  {
    if n >= 0 then s[..Min(n, |s|)] else s[..Max(0, |s| + n)]
  }

  /** `msg_repr` with truncation: kept whole when it fits, else a prefix followed by the marker. */
  function Truncate(s: string, maxLength: int): (r: string)
    ensures |s| <= maxLength ==> r == s
    ensures |s| > maxLength ==>
      && |r| >= |TruncationMarker|
      && r[..|r| - |TruncationMarker|] <= s
      && r[|r| - |TruncationMarker|..] == TruncationMarker
    ensures 0 <= maxLength ==> |r| <= maxLength + |TruncationMarker|
    ensures 0 <= maxLength < |s| ==> r == s[..maxLength] + TruncationMarker
  {
    if |s| > maxLength then SlicePrefix(s, maxLength) + TruncationMarker else s
  }

  /** The message an event shows: a single message, or the last of a non-empty list. An absent
      entry or an empty list shows nothing. */
  function ShownMessage(e: StreamEvent): (r: Option<Message>)
    ensures e.messages.None? ==> r.None?
    ensures e.messages.Some? && e.messages.value.One? ==> r == Some(e.messages.value.message)
    ensures e.messages.Some? && e.messages.value.Many? ==>
      var ms := e.messages.value.messages;
      && (r.None? <==> ms == [])
      && (ms != [] ==> r == Some(ms[|ms| - 1]))
  {
    match e.messages
    case None => None
    case Some(One(m)) => Some(m)
    case Some(Many(ms)) => if ms == [] then None else Some(ms[|ms| - 1])
  }

  /** The printed lines and the set of printed ids after the call. */
  datatype Printout = Printout(lines: seq<string>, printed: set<Option<string>>)

  /** The dialog-state line, if the dialog state is a non-empty list. */
  function StateLines(e: StreamEvent): seq<string> {
    match e.dialogState
    case Some(ds) => if ds == [] then [] else ["Currently in:  " + ds[|ds| - 1]]
    case None => []
  }

  /** `_print_event` as a function of the already-printed ids; `render` stands for the message's
      pretty representation. */
  function PrintEventSpec(e: StreamEvent, printed: set<Option<string>>, maxLength: int,
                          render: Message -> string): (r: Printout)
    ensures printed <= r.printed
    ensures ShownMessage(e).None? ==> r == Printout(StateLines(e), printed)
    ensures ShownMessage(e).Some? ==>
      var m := ShownMessage(e).value;
      && r.printed == printed + {Id(m)}
      && (Id(m) in printed ==> r.lines == StateLines(e))
      && (Id(m) !in printed ==> r.lines == StateLines(e) + [Truncate(render(m), maxLength)])
  {
    match ShownMessage(e)
    case None => Printout(StateLines(e), printed)
    case Some(m) =>
      if Id(m) in printed then Printout(StateLines(e), printed)
      else Printout(StateLines(e) + [Truncate(render(m), maxLength)], printed + {Id(m)})
  }

  /** Printing the same event again prints only its dialog-state line: the message is printed once. */
  lemma PrintedOnce(e: StreamEvent, printed: set<Option<string>>, maxLength: int, render: Message -> string)
    ensures var first := PrintEventSpec(e, printed, maxLength, render);
            PrintEventSpec(e, first.printed, maxLength, render) == Printout(StateLines(e), first.printed)
  {
  }

  /** Every printed line is bounded: the message line by the truncation bound, the state line by
      its entry. */
  lemma {:induction false} PrintedLengthBound(e: StreamEvent, printed: set<Option<string>>, maxLength: int,
                                               render: Message -> string)
    requires 0 <= maxLength
    requires ShownMessage(e).Some?
    ensures var lines := PrintEventSpec(e, printed, maxLength, render).lines;
      |lines| <= 2 && (Id(ShownMessage(e).value) !in printed ==>
                       |lines[|lines| - 1]| <= maxLength + |TruncationMarker|)
  {
  }

  /** The `_printed` set that the caller keeps across events and that each call updates in place. */
  class PrintedIds {
    var ids: set<Option<string>>

    constructor ()
      ensures ids == {}
    {
      ids := {};
    }
  }

  /** `_print_event(event, _printed, max_length)`: returns the printed lines and adds the shown
      message's id to `printed`. */
  method PrintEventInto(e: StreamEvent, printed: PrintedIds, render: Message -> string,
                        maxLength: int := DefaultMaxLength) returns (lines: seq<string>)
    modifies printed
    ensures Printout(lines, printed.ids) == PrintEventSpec(e, old(printed.ids), maxLength, render)
  {
    lines := [];
    var currentState := e.dialogState;
    if currentState.Some? && currentState.value != [] {
      lines := lines + ["Currently in:  " + currentState.value[|currentState.value| - 1]];
    }
    var message := ShownMessage(e);
    if message.Some? {
      var m := message.value;
      if Id(m) !in printed.ids {
        var msgRepr := render(m);
        if |msgRepr| > maxLength {
          msgRepr := SlicePrefix(msgRepr, maxLength) + TruncationMarker;
        }
        lines := lines + [msgRepr];
        printed.ids := printed.ids + {Id(m)};
      }
    }
  }
}
