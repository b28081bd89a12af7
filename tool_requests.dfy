/** The request bodies the calendar and task tools send, and the projections of the replies they
    read back. The remote calls themselves are not modelled: each builder returns the call it
    would issue. */
module ToolRequests {
  import opened Wrappers
  import opened Json

  const TimeZone := "America/Los_Angeles"
  const PrimaryCalendar := "primary"
  const DefaultTaskList := "@default"

  /** One insert call: the target collection (a calendar id or a task list) and the body sent. */
  datatype InsertCall = InsertCall(target: string, body: map<string, Json>)

  /** The `start`/`end` entry of an event: the given time and the fixed time zone. */
  function EventTime(dateTime: string): Json {
    Obj(map["dateTime" := Str(dateTime), "timeZone" := Str(TimeZone)])
  }

  /** The entries shared by single and recurring events. */
  function EventBody(summary: string, startTime: string, endTime: string, description: string, location: string): map<string, Json> {
    map[
      "summary" := Str(summary),
      "location" := Str(location),
      "description" := Str(description),
      "start" := EventTime(startTime),
      "end" := EventTime(endTime)
    ]
  }

  /** A start or end time as the calendar reads it back: the "dateTime" entry of the given key. */
  function DateTimeOf(body: map<string, Json>, key: string): Option<string> {
    if key in body && body[key].Obj? && "dateTime" in body[key].fields && body[key].fields["dateTime"].Str?
    then Some(body[key].fields["dateTime"].s)
    else None
  }

  /** The time-zone entry of the given key. */
  function TimeZoneOf(body: map<string, Json>, key: string): Option<string> {
    if key in body && body[key].Obj? && "timeZone" in body[key].fields && body[key].fields["timeZone"].Str?
    then Some(body[key].fields["timeZone"].s)
    else None
  }

  /** `schedule_event`: inserts into the primary calendar. */
  function ScheduleEvent(summary: string, startTime: string, endTime: string,
                         description: string := "", location: string := ""): (r: InsertCall)
    ensures r.target == PrimaryCalendar
    ensures r.body.Keys == {"summary", "location", "description", "start", "end"}
    ensures DateTimeOf(r.body, "start") == Some(startTime) && DateTimeOf(r.body, "end") == Some(endTime)
    ensures TimeZoneOf(r.body, "start") == Some(TimeZone) && TimeZoneOf(r.body, "end") == Some(TimeZone)
    ensures r.body["summary"] == Str(summary) && r.body["description"] == Str(description)
    ensures r.body["location"] == Str(location)
  {
    InsertCall(PrimaryCalendar, EventBody(summary, startTime, endTime, description, location))
  }

  /** `schedule_recurring_event`: the same event with a one-rule recurrence list, inserted into the
      given calendar. */
  function ScheduleRecurringEvent(summary: string, startTime: string, endTime: string, recurrenceRule: string,
                                  description: string := "", location: string := "",
                                  calendarId: string := PrimaryCalendar): (r: InsertCall)
    ensures r.target == calendarId
    ensures r.body.Keys == {"summary", "location", "description", "start", "end", "recurrence"}
    ensures DateTimeOf(r.body, "start") == Some(startTime) && DateTimeOf(r.body, "end") == Some(endTime)
    ensures TimeZoneOf(r.body, "start") == Some(TimeZone) && TimeZoneOf(r.body, "end") == Some(TimeZone)
    ensures r.body["recurrence"].Arr? && r.body["recurrence"].items == [Str(recurrenceRule)]
  {
    var event := EventBody(summary, startTime, endTime, description, location);
    InsertCall(calendarId, event["recurrence" := Arr([Str(recurrenceRule)])])
  }

  /** A recurring event differs from a single one only by its recurrence entry and its target:
      dropping "recurrence" gives back the single event's body. */
  lemma RecurringExtendsSingle(summary: string, startTime: string, endTime: string, recurrenceRule: string,
                               description: string, location: string, calendarId: string)
    ensures var single := ScheduleEvent(summary, startTime, endTime, description, location).body;
            var recurring := ScheduleRecurringEvent(summary, startTime, endTime, recurrenceRule,
                                                    description, location, calendarId).body;
            "recurrence" !in single && recurring - {"recurrence"} == single
  {
  }

  /** `create_task`: title and notes always, `due` only when it is truthy. */
  function CreateTask(title: string, notes: string := "", due: Option<string> := None,
                      tasklist: string := DefaultTaskList): (r: InsertCall)
    ensures r.target == tasklist
    ensures "title" in r.body && r.body["title"] == Str(title)
    ensures "notes" in r.body && r.body["notes"] == Str(notes)
    ensures "due" in r.body <==> due.Some? && due.value != ""
    ensures "due" in r.body ==> r.body["due"] == Str(due.value)
    ensures r.body.Keys <= {"title", "notes", "due"}
  {
    var task := map["title" := Str(title), "notes" := Str(notes)];
    var task := if due.Some? && due.value != "" then task["due" := Str(due.value)] else task;
    InsertCall(tasklist, task)
  }

  /** The tools that confirm a creation, and what each confirmation reads from the created resource. */
  datatype Creation = EventCreation | RecurringEventCreation | TaskCreation

  function ConfirmationPrefix(c: Creation): string {
    match c
    case EventCreation => "Event created: "
    case RecurringEventCreation => "Recurring event created: "
    case TaskCreation => "Task created: "
  }

  /** Events are confirmed by their link, tasks by their title. */
  function ConfirmationKey(c: Creation): string {
    match c
    case EventCreation => "htmlLink"
    case RecurringEventCreation => "htmlLink"
    case TaskCreation => "title"
  }

  /** Python's `str()` of `resource.get(key)` when the entry is a string or absent. */
  function Shown(resource: map<string, Json>, key: string): string {
    if key in resource && resource[key].Str? then resource[key].s else "None"
  }

  /** The confirmation a tool returns, built from the resource the service sends back. */
  function Confirmation(c: Creation, inserted: map<string, Json>): (r: string)
    ensures ConfirmationPrefix(c) <= r
    ensures var key := ConfirmationKey(c);
      && (key in inserted && inserted[key].Str? ==> r == ConfirmationPrefix(c) + inserted[key].s)
      && (key !in inserted ==> r == ConfirmationPrefix(c) + "None")
  {
    ConfirmationPrefix(c) + Shown(inserted, ConfirmationKey(c))
  }

  /** The query `list_upcoming_events` sends; `now` is the clock's ISO time, taken as a parameter. */
  datatype EventQuery = EventQuery(calendarId: string, timeMin: string, maxResults: int,
                                   singleEvents: bool, orderBy: string)

  function UpcomingEventsQuery(now: string, numEvents: int := 3): (q: EventQuery)
    ensures q.calendarId == PrimaryCalendar && q.timeMin == now + "Z" && q.maxResults == numEvents
    ensures q.singleEvents && q.orderBy == "startTime"
  {
    EventQuery(PrimaryCalendar, now + "Z", numEvents, true, "startTime")
  }

  /** `results.get('items', [])`. */
  function Items(results: map<string, Json>): Json {
    Get(results, "items", Arr([]))
  }

  /** The element sequence a `for` loop visits in the items value. A string or dictionary yields
      strings; both are only accepted here when empty, since subscripting a string element with
      'id' raises TypeError anyway. */
  function Iterate(items: Json): Result<seq<Json>, PyError> {
    match items
    case Arr(xs) => Ok(xs)
    case Str(s) => if s == "" then Ok([]) else Err(TypeError)
    case Obj(m) => if m == map[] then Ok([]) else Err(TypeError)
    case _ => Err(TypeError)
  }

  /** Has both keys that the projection reads. */
  predicate HasIdAndTitle(item: Json) {
    item.Obj? && "id" in item.fields && "title" in item.fields
  }

  /** `{'id': task['id'], 'title': task['title']}` for one item. */
  function ProjectTask(item: Json): Result<map<string, Json>, PyError> {
    if !item.Obj? then Err(TypeError)
    else if "id" !in item.fields then Err(KeyError("id"))
    else if "title" !in item.fields then Err(KeyError("title"))
    else Ok(map["id" := item.fields["id"], "title" := item.fields["title"]])
  }

  /** The comprehension over the items, failing at the first item that cannot be projected. */
  function ProjectTasks(items: seq<Json>): (r: Result<seq<map<string, Json>>, PyError>)
    ensures r.Ok? ==> |r.value| == |items|
  {
    if items == [] then Ok([])
    else match ProjectTask(items[0])
      case Err(e) => Err(e)
      case Ok(t) =>
        match ProjectTasks(items[1..])
        case Err(e) => Err(e)
        case Ok(ts) => Ok([t] + ts)
  }

  /** `list_tasks` applied to the service's reply. */
  function ListTasks(results: map<string, Json>): Result<seq<map<string, Json>>, PyError> {
    match Iterate(Items(results))
    case Err(e) => Err(e)
    case Ok(items) => ProjectTasks(items)
  }

  /** The projection succeeds exactly when every item has an id and a title; it then yields one
      record per item, in item order, with exactly the keys id and title copied from the item. */
  lemma {:induction false} ProjectTasksSpec(items: seq<Json>)
    ensures ProjectTasks(items).Ok? <==> forall i :: 0 <= i < |items| ==> HasIdAndTitle(items[i])
    ensures ProjectTasks(items).Ok? ==>
      var out := ProjectTasks(items).value;
      && |out| == |items|
      && forall i :: 0 <= i < |out| ==>
           && out[i].Keys == {"id", "title"}
           && out[i]["id"] == items[i].fields["id"]
           && out[i]["title"] == items[i].fields["title"]
  {
    if items != [] {
      ProjectTasksSpec(items[1..]);
      if ProjectTasks(items).Ok? {
        var out := ProjectTasks(items).value;
        assert out == [ProjectTask(items[0]).value] + ProjectTasks(items[1..]).value;
        forall i | 0 <= i < |out|
          ensures out[i].Keys == {"id", "title"}
        {
          if i == 0 {
            assert out[0] == map["id" := items[0].fields["id"], "title" := items[0].fields["title"]];
          }
          else {
            assert out[i] == ProjectTasks(items[1..]).value[i - 1];
          }
        }
      }
      else if ProjectTask(items[0]).Ok? {
        assert !HasIdAndTitle(items[1..][0]) || exists i :: 0 <= i < |items[1..]| && !HasIdAndTitle(items[1..][i]);
      }
    }
  }

  /** A reply without "items" lists no tasks. */
  lemma NoItemsNoTasks(results: map<string, Json>)
    requires "items" !in results
    ensures ListTasks(results) == Ok([])
  {
  }

  /** When the reply holds a list of items, `list_tasks` succeeds exactly when every item has an id
      and a title, and then returns one {id, title} record per item in item order. */
  lemma ListTasksSpec(results: map<string, Json>, items: seq<Json>)
    requires "items" in results && results["items"] == Arr(items)
    ensures ListTasks(results).Ok? <==> forall i :: 0 <= i < |items| ==> HasIdAndTitle(items[i])
    ensures ListTasks(results).Ok? ==>
      var out := ListTasks(results).value;
      && |out| == |items|
      && forall i :: 0 <= i < |out| ==>
           out[i] == map["id" := items[i].fields["id"], "title" := items[i].fields["title"]]
  {
    ProjectTasksSpec(items);
    if ListTasks(results).Ok? {
      var out := ListTasks(results).value;
      forall i | 0 <= i < |out|
        ensures out[i] == map["id" := items[i].fields["id"], "title" := items[i].fields["title"]]
      {
        assert out[i].Keys == {"id", "title"};
      }
    }
  }

  /** `list_upcoming_events` returns the reply's items as they are, or an empty list. */
  function UpcomingEvents(results: map<string, Json>): (r: Json)
    ensures "items" !in results ==> r == Arr([])
    ensures "items" in results ==> r == results["items"]
  {
    Items(results)
  }
}
