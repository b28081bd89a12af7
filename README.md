# PersonalAssistantBot core, modelled in Dafny

The bot is a LangGraph chatbot. A conversation graph alternates between an **assistant** node and
a **tools** node. The assistant node calls a language model and re-prompts it while its reply is
empty. The tools node runs the calendar, task and search tools the model asks for. A fallback turns
a tool failure into one error message per requested call. This project models that control flow
and the tools' request bodies, and proves properties of both. Everything is in
`personal_assistant.py`.

Modules:

- `Wrappers`, `Json`: option/result values, and the JSON-shaped dictionaries the tools exchange
  with the services.
- `Messages`: user, assistant and tool messages, the graph state, and the empty-reply predicate.
- `ToolErrors`: `handle_tool_error`.
- `AssistantStep`: the `Assistant` class and its retry loop (`Assistant.Call`, a `while` loop).
  `Retry` is the same loop written as a function, used by the graph and by the lemmas.
- `ToolRequests`: the bodies built by `schedule_event`, `schedule_recurring_event` and
  `create_task`, the `list_upcoming_events` query, the confirmation strings, and the `list_tasks`
  projection.
- `Graph`: the node wiring and a run of one turn through the graph.
- `PrintEvent`: `_print_event`. The mutable `_printed` set is a class (`PrintedIds`).
- `Session`: the case-insensitive quit check and the input loop of `main`.

Collaborators that the code only calls are parameters:

- the model runnable is `State -> AIMessage`;
- the tool runner is `seq<Message> -> ToolRun`;
- `pretty_repr` is `Message -> string`;
- the clock is the `now` string;
- the services' replies are `map<string, Json>` values.

A note on the model oracle: within one run, no two model invocations see the same state. Inside
one call of the assistant the message list grows by two nudges per attempt. A later assistant
step's list holds, right after an earlier step's starting list, the assistant reply appended
there; at that position the earlier step's attempts had a nudge or had ended. So a function of the
state is as general as any sequence of answers.

Three points where the code behaves differently from what a reader might expect, modelled as the code has them:

- The retry loop has no cap (`while True`). The model gives it an attempt budget. Running out of
  budget is its own outcome, `StillRetrying`, meaning "the code would still be looping". It is not
  presented as behaviour. `BudgetIrrelevant` proves that a returned reply does not depend on the
  budget.
- Each empty reply adds two nudge messages, not one (lines 205-208).
- The error text is `"Error: " + repr(error) + "\n please fix your mistakes."`. It answers every
  call of the last message, not only the one that failed.

## Model

| member | source | states |
|---|---|---|
| `Messages.IsEmptyReply` | personal_assistant.py:200-204 | the emptiness test: no tool calls, and content that is falsy or a list whose first block has no truthy text; `RealReplyIff` states its complement |
| `Messages.RealReplyIff` | personal_assistant.py:200-204 | a reply is accepted exactly when it has tool calls, non-empty string content, or list content whose first block has non-empty text |
| `ToolErrors.ErrorMessages` | personal_assistant.py:70-76 | one tool message per call, same order, i-th linked to the i-th call's id, each with the same text |
| `ToolErrors.HandleToolError` | personal_assistant.py:66-77 | empty history fails (IndexError); a last message that is not an assistant message fails (no `tool_calls`); otherwise every call of the last message is answered in order with content `"Error: " + repr(error) + "\n please fix your mistakes."` |
| `ToolErrors.EveryCallAnswered` | personal_assistant.py:70-76 | the answered ids are exactly the requested ids: every call gets an error message, not only the failing one |
| `ToolErrors.DependsOnlyOnIds` | personal_assistant.py:71-75 | the fallback's messages depend on the calls only through their ids |
| `AssistantStep.Retry` | personal_assistant.py:196-210 | the retry loop as a function; `ReturnedIsReal`, `FirstRealReplyReturned` and `BudgetIrrelevant` state what it returns |
| `AssistantStep.PromptedShape` | personal_assistant.py:205-208 | the state passed on attempt k keeps the caller's messages as a prefix, followed by exactly 2k "Respond with a real output." user messages, with the other state entries unchanged |
| `AssistantStep.RetryFromAttempt` | personal_assistant.py:196-210 | after k empty replies the loop continues from the twice-nudged state of attempt k |
| `AssistantStep.ReturnedIsReal` | personal_assistant.py:196-211 | a reply the loop returns is never empty |
| `AssistantStep.BudgetIrrelevant` | personal_assistant.py:196-210 | once the loop returns within some budget, every larger budget returns the same reply |
| `AssistantStep.FirstRealReplyReturned` | personal_assistant.py:196-211 | the loop returns the model's first non-empty reply |
| `AssistantStep.Assistant.constructor` | personal_assistant.py:192-193 | the assistant keeps the given runnable |
| `AssistantStep.Assistant.Call` | personal_assistant.py:195-211 | the loop agrees with `Retry`; on return it hands back `{"messages": result}` with the reply of the last attempt, which is non-empty, after only empty replies; the caller's state is a value and stays as it was |
| `ToolRequests.ScheduleEvent` | personal_assistant.py:101-118 | targets calendar `primary`; body has exactly summary, location, description, start, end; start/end carry the given times unchanged and time zone `America/Los_Angeles` |
| `ToolRequests.ScheduleRecurringEvent` | personal_assistant.py:121-150 | targets the given calendar id (default `primary`); same times and time zone; `recurrence` is the one-element list of the rule |
| `ToolRequests.RecurringExtendsSingle` | personal_assistant.py:134-149 | the recurring body is the single-event body plus a `recurrence` entry, which a single event lacks |
| `ToolRequests.CreateTask` | personal_assistant.py:166-175 | body always has title and notes; it has `due` exactly when `due` is truthy, and then holds it; inserted into the given task list |
| `ToolRequests.Confirmation` | personal_assistant.py:118-176 | each confirmation starts with its tool's fixed text, then the created event's `htmlLink` or the created task's `title`, or `None` when that entry is absent |
| `ToolRequests.UpcomingEventsQuery` | personal_assistant.py:154-161 | the listing asks the primary calendar from now (ISO time + `Z`), at most `num_events` (default 3), ordered by start time |
| `ToolRequests.UpcomingEvents` | personal_assistant.py:162-163 | the reply's items as given, or an empty list when absent |
| `ToolRequests.ProjectTasks` | personal_assistant.py:185 | a successful projection has one record per item |
| `ToolRequests.ProjectTasksSpec` | personal_assistant.py:185 | the projection succeeds exactly when every item has `id` and `title`; then record i has exactly those two keys, copied from item i |
| `ToolRequests.ListTasksSpec` | personal_assistant.py:183-185 | for a list of items, `list_tasks` succeeds iff every item has id and title, and returns `{id, title}` per item in item order |
| `ToolRequests.ListTasks` | personal_assistant.py:183-185 | `list_tasks` on the service reply; `ListTasksSpec` and `NoItemsNoTasks` state its results |
| `ToolRequests.NoItemsNoTasks` | personal_assistant.py:184 | a reply without `items` gives an empty list |
| `Graph.Next` | personal_assistant.py:248-255 | entry goes to the assistant; tools always go back to the assistant; the assistant goes to tools exactly when the last message has tool calls, and ends otherwise |
| `Graph.ToolsStep` | personal_assistant.py:80-83 | the tools node with its fallback; `ToolFailureAnswersAll` states the failure path |
| `Graph.Run` | personal_assistant.py:248-255 | a run through the wired graph; `FinishedEndsWithReply` states how a finished run ends |
| `Graph.FinishedEndsWithReply` | personal_assistant.py:248-255 | a finished run keeps the earlier conversation as a prefix and ends on an assistant message with no tool calls and a non-empty reply |
| `Graph.TurnEndsWithReply` | personal_assistant.py:275 | a finished turn keeps the stored conversation and the user's line as a prefix and ends on the assistant's real reply |
| `Graph.Turn` | personal_assistant.py:275 | one turn: the user line appended, then a run from the entry; `TurnEndsWithReply` states how it ends |
| `Graph.ToolFailureAnswersAll` | personal_assistant.py:80-83 | when the tools raise, the fallback's messages answer every call of the last assistant message in order, and control returns to the assistant |
| `PrintEvent.Truncate` | personal_assistant.py:95-96 | a text that fits is printed whole; a longer one is a prefix of it followed by `" ... (truncated)"`; for a non-negative limit its length is at most the limit plus the marker's length |
| `PrintEvent.ShownMessage` | personal_assistant.py:89-92 | the event shows a single message, or the last of a non-empty list, and nothing for an absent entry or an empty list |
| `PrintEvent.PrintEventSpec` | personal_assistant.py:85-98 | a message whose id was printed is not printed again; otherwise its truncated rendering is printed after the dialog-state line; afterwards its id is in the printed set, which only grows |
| `PrintEvent.PrintedOnce` | personal_assistant.py:93-98 | printing the same event twice prints its message only the first time |
| `PrintEvent.PrintedLengthBound` | personal_assistant.py:94-97 | at most two lines are printed, and a printed message line fits the truncation bound |
| `PrintEvent.PrintedIds.constructor` | personal_assistant.py:268 | the printed-id set starts empty |
| `PrintEvent.PrintEventInto` | personal_assistant.py:85-98 | the in-place version: the printed lines and the new set agree with `PrintEventSpec` on the old set |
| `Session.IsQuit` | personal_assistant.py:272 | the quit test on the lower-cased line; `QuitIff` states it case by case |
| `Session.LowerIsWordIff` | personal_assistant.py:272 | lower-casing gives a lower-case word exactly when the input spells it in any mix of cases |
| `Session.QuitIff` | personal_assistant.py:272 | a line quits exactly when it is `quit`, `exit` or `q` in any mix of cases |
| `Session.ReadTurns` | personal_assistant.py:269-275 | the lines before the first quit word become turns, none of them a quit word; the session stops at the first quit word |

## Left out

- Credential loading, refresh, interactive acquisition and token files (`get_tasks_service`,
  `get_calendar_service`) are left out: they are file I/O and foreign library calls. `gcal.py` is
  left out too: it is a standalone script built from OAuth, one listing and printing.
- The service calls (`execute()`), the search tool and the model call are left out. Their replies
  are parameters of the model.
- A failing model call is not modelled: `invoke` always returns. In the code an exception from
  `runnable.invoke` leaves `__call__` and `graph.stream` and ends `main`, which has no `try`.
- LangGraph's own behaviour is left out: `ToolNode` execution, `with_fallbacks`, `tools_condition`
  and the `SqliteSaver` checkpointer. The branch is modelled as "the last message has tool calls".
  The `add_messages` merge is modelled as an append.
- LangGraph's own step limit is not modelled. `Graph.Run` takes a step budget instead, and
  `OutOfSteps` means "still running".
- `datetime.now()`, the environment variables (lines 26-29), the system prompt's text, `input` and
  `print` are left out. Printed output is modelled as returned lines.
- The `config` argument of `Assistant.__call__` is unused by the code and is not modelled.
- The final "Assistant: ..." printing of the last event (lines 278-281) is left out.
- `Session.LowerIsWordIff`: lower-casing covers ASCII letters only; other Unicode case mappings are
  not modelled.
- `PrintEvent.Truncate`: the length bound is stated only for a non-negative `max_length`. For a
  negative one, Python's slicing counts from the end and the bound does not hold. The running
  program never calls `_print_event`: its only call (lines 276-277) is commented out and would use
  the default of 1500, and the `_printed` set of line 268 is not used after it is created.
- `ToolRequests.Confirmation`: a link or title that is present but not a string is shown as `None`.
  Python would print its `str()` instead. The services return strings there.
- `Session.ReadTurns`: reading past the end of input raises EOFError in the code. The model simply
  stops there with `quit` false.
