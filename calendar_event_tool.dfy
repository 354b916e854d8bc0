/** The calendar_event_tool: adds or lists Google Calendar events, or, in
    stub mode, answers with fixed results. The tool's configuration is the
    value its constructor settles on; the calendar service is a parameter
    (`google`) that answers each request the tool sends, and the current
    time is the parameter `now`. */
module CalendarEventTool {
  import opened Common
  import opened Json

  /** An attribute of the settings object: absent, or present with a value. */
  datatype Attr<T> = Missing | Present(value: T)

  /** The two settings attributes the constructor looks for. */
  datatype CalendarSettings = CalendarSettings(credentials: Attr<Json>, defaultCalendarId: Attr<Json>)

  /** GOOGLE_APPLICATION_CREDENTIALS and DEFAULT_CALENDAR_ID in the process
      environment. */
  datatype Environment = Environment(credentials: Option<string>, defaultCalendarId: Option<string>)

  /** The configuration the constructor leaves: whether the tool is a stub,
      whether it holds a calendar service, and the default calendar. */
  datatype Tool = Tool(stubMode: bool, hasService: bool, defaultCalendarId: Json)

  /** The credentials path: the settings attribute when it is truthy,
      the environment variable otherwise. */
  function CredentialsPath(settings: Option<CalendarSettings>, env: Environment): (r: Json)
    ensures settings.Some? && settings.value.credentials.Present? && Truthy(settings.value.credentials.value) ==>
              r == settings.value.credentials.value
    ensures !(settings.Some? && settings.value.credentials.Present? && Truthy(settings.value.credentials.value)) ==>
              r == OptStr(env.credentials)
  {
    var fromSettings := if settings.Some? && settings.value.credentials.Present? then settings.value.credentials.value else JNull;
    if Truthy(fromSettings) then fromSettings else OptStr(env.credentials)
  }

  /** The default calendar: the settings attribute whenever it exists,
      whatever its value; otherwise the environment variable, even when it
      is empty; otherwise "primary". */
  function DefaultCalendarId(settings: Option<CalendarSettings>, env: Environment): (r: Json)
    ensures settings.Some? && settings.value.defaultCalendarId.Present? ==> r == settings.value.defaultCalendarId.value
    ensures !(settings.Some? && settings.value.defaultCalendarId.Present?) && env.defaultCalendarId.Some? ==>
              r == JStr(env.defaultCalendarId.value)
    ensures !(settings.Some? && settings.value.defaultCalendarId.Present?) && env.defaultCalendarId.None? ==>
              r == JStr("primary")
  {
    if settings.Some? && settings.value.defaultCalendarId.Present? then settings.value.defaultCalendarId.value
    else if env.defaultCalendarId.Some? then JStr(env.defaultCalendarId.value)
    else JStr("primary")
  }

  /** The constructor. `libsAvailable` says whether the Google client
      libraries imported, `pathExists` whether a path exists, and `builds`
      whether a service is built from the credentials at a path. */
  function Init(settings: Option<CalendarSettings>, env: Environment, libsAvailable: bool,
                pathExists: Json -> bool, builds: Json -> bool): (t: Tool)
    ensures t.defaultCalendarId == DefaultCalendarId(settings, env)
  {
    var creds := CredentialsPath(settings, env);
    var calendar := DefaultCalendarId(settings, env);
    if !libsAvailable || !Truthy(creds) || !pathExists(creds) || !builds(creds) then Tool(true, false, calendar)
    else Tool(false, true, calendar)
  }

  /** Whether the tool talks to the service: not a stub, and holding one. */
  predicate Live(tool: Tool) {
    !tool.stubMode && tool.hasService
  }

  /** The tool is a stub exactly when the libraries are missing, no
      credentials path is set, the path does not exist or the service
      cannot be built from it; it holds a service exactly when it is not a
      stub. */
  lemma InitSpec(settings: Option<CalendarSettings>, env: Environment, libsAvailable: bool,
                 pathExists: Json -> bool, builds: Json -> bool)
    ensures var t := Init(settings, env, libsAvailable, pathExists, builds);
            var creds := CredentialsPath(settings, env);
            (t.stubMode <==> !libsAvailable || !Truthy(creds) || !pathExists(creds) || !builds(creds)) &&
            (t.hasService <==> !t.stubMode) &&
            (Live(t) <==> !t.stubMode)
  {
  }

  // ---------------------------------------------------------------- requests

  /** What the tool asks of the calendar service: an event insert, or an
      event listing (always single events ordered by start time). */
  datatype GoogleRequest =
    | Insert(calendarId: Json, body: Obj)
    | ListRequest(calendarId: Json, timeMin: Json, timeMax: Json, maxResults: Json, singleEvents: bool, orderBy: string)

  /** The service's answer: a value, an HttpError with its message, or any
      other error. For a listing the value stands for the events already
      reduced to their id, summary, start, end, description and link. */
  datatype GoogleReply = Done(value: Json) | HttpFailed(message: string) | Failed(message: string)

  /** What a call returns and the request it sent, if any. */
  datatype Outcome = Outcome(result: Json, sent: Option<GoogleRequest>)

  const MissingAddArgs := "Missing required arguments for 'add' action: title, start_time, end_time."
  const StubStatus := "success_stub_mode"

  function InvalidAction(action: string): string {
    "Invalid action: '" + action + "'. Must be 'add' or 'list'."
  }

  /** The stub answer to an add: a fixed event id, the title as summary. */
  function StubAdded(title: Json): (r: Json)
    ensures r.JObj? && "status" in r.fields && r.fields["status"] == JStr(StubStatus)
    ensures "result" in r.fields && r.fields["result"].JObj? && "summary" in r.fields["result"].fields
    ensures r.fields["result"].fields["summary"] == title
  {
    SuccessResult(JObj(map["id" := JStr("stub_event_123"), "summary" := title, "status" := JStr("confirmed_stub")]), StubStatus)
  }

  /** The stub answer to a list: two fixed events. */
  function StubEvent(id: string, summary: string): Json {
    JObj(map["id" := JStr(id), "summary" := JStr(summary), "start" := JObj(map["dateTime" := JStr("...")])])
  }

  const StubEvents: Json := SuccessResult(JList([StubEvent("stub_event_A", "Stub Meeting 1"),
                                                 StubEvent("stub_event_B", "Stub Appointment")]), StubStatus)

  /** The calendar a request goes to: the one asked for when truthy, the
      default otherwise. */
  function TargetCalendar(tool: Tool, calendarId: Json): Json {
    if Truthy(calendarId) then calendarId else tool.defaultCalendarId
  }

  /** The body of an inserted event; a falsy description becomes "". */
  function EventBody(title: Json, startTime: Json, endTime: Json, description: Json): Obj {
    map["summary" := title,
        "description" := if Truthy(description) then description else JStr(""),
        "start" := JObj(map["dateTime" := startTime]),
        "end" := JObj(map["dateTime" := endTime])]
  }

  /** The error answers shared by add and list. */
  function ServiceError(reply: GoogleReply): Json
    requires !reply.Done?
  {
    match reply
    case HttpFailed(message) => ErrorResult("Google API error: " + message)
    case Failed(message) => ErrorResult("Unexpected error: " + message)
  }

  /** The answer to an insert: the created event's id, summary and link;
      an answer that is not a dict has no `get`. */
  function AddAnswer(reply: GoogleReply): (r: Json)
    ensures r.JObj? && "status" in r.fields
    ensures r.fields["status"] == JStr("success") <==> reply.Done? && reply.value.JObj?
  {
    match reply
    case Done(created) =>
      if created.JObj? then
        SuccessResult(JObj(map["id" := Get(created.fields, "id", JNull),
                               "summary" := Get(created.fields, "summary", JNull),
                               "link" := Get(created.fields, "htmlLink", JNull)]), "success")
      else ErrorResult("Unexpected error: '" + TypeName(created) + "' object has no attribute 'get'")
    case _ => ServiceError(reply)
  }

  /** `_add_event`: the stub answer, or one insert into the target calendar. */
  function AddEvent(tool: Tool, title: Json, startTime: Json, endTime: Json, description: Json, calendarId: Json,
                    google: GoogleRequest -> GoogleReply): (o: Outcome)
    ensures !Live(tool) ==> o == Outcome(StubAdded(title), None)
    ensures Live(tool) ==> o.sent == Some(Insert(TargetCalendar(tool, calendarId), EventBody(title, startTime, endTime, description)))
  {
    if !Live(tool) then Outcome(StubAdded(title), None)
    else
      var request := Insert(TargetCalendar(tool, calendarId), EventBody(title, startTime, endTime, description));
      Outcome(AddAnswer(google(request)), Some(request))
  }

  /** `_list_events`: the stub answer, or one listing of the target
      calendar from `fromTime` (now when falsy) to `toTime`. */
  function ListEvents(tool: Tool, fromTime: Json, toTime: Json, calendarId: Json, maxResults: Json, now: string,
                      google: GoogleRequest -> GoogleReply): (o: Outcome)
    ensures !Live(tool) ==> o == Outcome(StubEvents, None)
    ensures Live(tool) ==> o.sent.Some? && o.sent.value.ListRequest?
  {
    if !Live(tool) then Outcome(StubEvents, None)
    else
      var timeMin := if Truthy(fromTime) then fromTime else JStr(now);
      var request := ListRequest(TargetCalendar(tool, calendarId), timeMin, toTime, maxResults, true, "startTime");
      var reply := google(request);
      Outcome(if reply.Done? then SuccessResult(reply.value, "success") else ServiceError(reply), Some(request))
  }

  /** Whether the keyword arguments hold everything an add needs. */
  predicate HasAddArgs(kwargs: Obj) {
    "title" in kwargs && "start_time" in kwargs && "end_time" in kwargs
  }

  /** `execute`: the action is lower-cased, then "add" checks its
      arguments and adds, "list" lists, and anything else is refused. */
  function Execute(tool: Tool, action: string, kwargs: Obj, now: string,
                   google: GoogleRequest -> GoogleReply): (o: Outcome)
    ensures o.sent.Some? ==> Live(tool)
    ensures o.result.JObj? && "status" in o.result.fields
  {
    var lowered := Lower(action);
    if lowered == "add" then
      if !HasAddArgs(kwargs) then Outcome(ErrorResult(MissingAddArgs), None)
      else AddEvent(tool, kwargs["title"], kwargs["start_time"], kwargs["end_time"],
                    Get(kwargs, "description", JNull), Get(kwargs, "calendar_id", JNull), google)
    else if lowered == "list" then
      ListEvents(tool, Get(kwargs, "from_time", JNull), Get(kwargs, "to_time", JNull), Get(kwargs, "calendar_id", JNull),
                 Get(kwargs, "max_results", JInt(20)), now, google)
    else Outcome(ErrorResult(InvalidAction(lowered)), None)
  }

  // ---------------------------------------------------------------- properties

  /** The action is matched whatever its case: any spelling of an action
      behaves as its lower-case form. */
  lemma ActionCaseInsensitive(tool: Tool, action: string, other: string, kwargs: Obj, now: string,
                              google: GoogleRequest -> GoogleReply)
    requires Lower(action) == Lower(other)
    ensures Execute(tool, action, kwargs, now, google) == Execute(tool, other, kwargs, now, google)
    ensures Execute(tool, action, kwargs, now, google) == Execute(tool, Lower(action), kwargs, now, google)
  {
    LowerIdempotent(action);
  }

  /** An add without a title, start time or end time is refused and
      sends nothing; with all three a live tool sends the insert and a stub
      answers with the stub event. */
  lemma AddNeedsArguments(tool: Tool, action: string, kwargs: Obj, now: string, google: GoogleRequest -> GoogleReply)
    requires Lower(action) == "add"
    ensures var o := Execute(tool, action, kwargs, now, google);
            !HasAddArgs(kwargs) ==> o == Outcome(ErrorResult(MissingAddArgs), None)
    ensures var o := Execute(tool, action, kwargs, now, google);
            HasAddArgs(kwargs) ==>
              (Live(tool) ==> o.sent.Some? && o.sent.value.Insert?) &&
              (!Live(tool) ==> o.result == StubAdded(kwargs["title"]))
    ensures Live(tool) ==> (Execute(tool, action, kwargs, now, google).sent.None? <==> !HasAddArgs(kwargs))
  {
  }

  /** Exactly the actions other than add and list get the invalid-action
      error, naming the lower-cased action; they send nothing. */
  lemma InvalidActionRefused(tool: Tool, action: string, kwargs: Obj, now: string, google: GoogleRequest -> GoogleReply)
    ensures var o := Execute(tool, action, kwargs, now, google);
            o.result == ErrorResult(InvalidAction(Lower(action))) <==> Lower(action) != "add" && Lower(action) != "list"
    ensures Lower(action) != "add" && Lower(action) != "list" ==> Execute(tool, action, kwargs, now, google).sent.None?
  {
    var o := Execute(tool, action, kwargs, now, google);
    var lowered := Lower(action);
    if (lowered == "add" || lowered == "list") && o.result.fields["status"] == JStr("error") {
      var e := o.result.fields["error"].s;
      if lowered == "add" && !HasAddArgs(kwargs) {
        assert |e| == 73 && |InvalidAction(lowered)| == 47;
      } else {
        assert e[0] == 'G' || e[0] == 'U';
        assert InvalidAction(lowered)[0] == 'I';
      }
    }
  }

  /** A live list asks for the target calendar from the given start (now
      when none is given) to the given end, with at most `max_results`
      events, 20 when not given. */
  lemma ListArguments(tool: Tool, action: string, kwargs: Obj, now: string, google: GoogleRequest -> GoogleReply)
    requires Lower(action) == "list" && Live(tool)
    ensures var sent := Execute(tool, action, kwargs, now, google).sent;
            sent.Some? && sent.value.ListRequest? &&
            sent.value.calendarId == TargetCalendar(tool, Get(kwargs, "calendar_id", JNull)) &&
            sent.value.timeMax == Get(kwargs, "to_time", JNull) &&
            sent.value.maxResults == Get(kwargs, "max_results", JInt(20)) &&
            ("max_results" !in kwargs ==> sent.value.maxResults == JInt(20)) &&
            (("from_time" !in kwargs || !Truthy(kwargs["from_time"])) ==> sent.value.timeMin == JStr(now)) &&
            ("from_time" in kwargs && Truthy(kwargs["from_time"]) ==> sent.value.timeMin == kwargs["from_time"]) &&
            sent.value.singleEvents && sent.value.orderBy == "startTime"
  {
  }

  /** A live add with its arguments inserts one event into the calendar
      asked for (the default when none is), with the title as summary, the
      given times and an empty description when none is given. */
  lemma AddArguments(tool: Tool, action: string, kwargs: Obj, now: string, google: GoogleRequest -> GoogleReply)
    requires Lower(action) == "add" && Live(tool) && HasAddArgs(kwargs)
    ensures var sent := Execute(tool, action, kwargs, now, google).sent;
            sent.Some? && sent.value.Insert? &&
            (("calendar_id" !in kwargs || !Truthy(kwargs["calendar_id"])) ==> sent.value.calendarId == tool.defaultCalendarId) &&
            sent.value.body["summary"] == kwargs["title"] &&
            sent.value.body["start"] == JObj(map["dateTime" := kwargs["start_time"]]) &&
            sent.value.body["end"] == JObj(map["dateTime" := kwargs["end_time"]]) &&
            ("description" !in kwargs ==> sent.value.body["description"] == JStr(""))
  {
  }

  /** In stub mode add answers with the title as summary and list with
      two fixed events, both under status "success_stub_mode"; nothing is
      sent. */
  lemma StubResults(tool: Tool, action: string, kwargs: Obj, now: string, google: GoogleRequest -> GoogleReply)
    requires !Live(tool)
    ensures var o := Execute(tool, action, kwargs, now, google);
            o.sent.None? &&
            (Lower(action) == "add" && HasAddArgs(kwargs) ==>
               o.result == StubAdded(kwargs["title"]) && o.result.fields["result"].fields["summary"] == kwargs["title"]) &&
            (Lower(action) == "list" ==>
               o.result == StubEvents && o.result.fields["status"] == JStr(StubStatus) &&
               o.result.fields["result"].JList? && |o.result.fields["result"].items| == 2)
  {
  }
}
