/** Creating a Google Calendar event from client/src/App.js: `createEvent`, called once
    per detected event, and `createCalendarEvent`, the manual form.

    A JavaScript `Date` is a time value in milliseconds since the epoch, or invalid. The
    payload carries each instant as that time value; its ISO 8601 rendering by
    `toISOString` is a function of the time value alone and is kept abstract. The calendar
    API is a parameter that answers each request with a status. */
module Calendar {
  import opened Optional

  /** The largest magnitude of a valid JavaScript time value. */
  const MaxTime: int := 8_640_000_000_000_000

  /** The time value of a valid `Date`. */
  type TimeValue = t: int | -MaxTime <= t <= MaxTime

  /** The length of a detected event, in milliseconds. */
  const OneHour: int := 3_600_000

  const RejectedPrefix: string := "Failed to create event: "
  const ManualRejectedPrefix: string := "Error creating event: "

  /** An IANA zone name, as `Intl.DateTimeFormat().resolvedOptions().timeZone` gives it. */
  type TimeZone = string

  /** The `provider_token` field of a session, which may be missing or `null`. */
  datatype TokenField = Undefined | Null | Token(value: string)

  /** A signed-in session; only its calendar token matters here. */
  datatype Session = Session(providerToken: TokenField)

  datatype EventTime = EventTime(dateTime: TimeValue, timeZone: TimeZone)

  datatype EventPayload = EventPayload(summary: string, description: string, start: EventTime, end: EventTime)

  /** A POST to the primary calendar's events endpoint, with `Bearer <token>` as
      authorization and the payload as body. */
  datatype Request = Request(token: string, payload: EventPayload)

  datatype Response = Response(ok: bool, statusText: string)

  /** `new Date(s)`: the time value a string denotes, or `None` for an invalid date. */
  type DateParser = string -> Option<TimeValue>

  type CalendarApi = Request -> Response

  /** What one `createEvent` call ends in. Only the last two have sent a request. */
  datatype CreateResult =
    | MissingSession                               // thrown at the session check
    | InvalidTime                                  // `toISOString` throws a RangeError
    | Rejected(request: Request, message: string)  // the API answered with a failure status
    | Created(request: Request)

  predicate HasToken(session: Option<Session>) {
    session.Some? && session.value.providerToken.Token? && session.value.providerToken.value != ""
  }

  /** `s || ""` for a string that may be absent. */
  function OrEmpty(s: Option<string>): string {
    if s.Some? then s.value else ""
  }

  /** `new Date(dateString)` for a date string that may be absent. */
  function StartTime(parse: DateParser, dateString: Option<string>): Option<TimeValue> {
    if dateString.Some? then parse(dateString.value) else None
  }

  /** `createEvent(dateString, eventStringName, eventStringDescription)`. */
  function CreateEvent(session: Option<Session>, zone: TimeZone, parse: DateParser, api: CalendarApi,
                       dateString: Option<string>, name: Option<string>, description: Option<string>): (r: CreateResult)
    ensures r.MissingSession? <==> !HasToken(session)
    ensures r.InvalidTime? <==>
              HasToken(session) && (StartTime(parse, dateString).None? || StartTime(parse, dateString).value + OneHour > MaxTime)
    ensures (r.Rejected? || r.Created?) ==>
              var p := r.request.payload;
              r.request.token == session.value.providerToken.value
              && StartTime(parse, dateString) == Some(p.start.dateTime)
              && p.end.dateTime == p.start.dateTime + OneHour
              && p.start.timeZone == zone && p.end.timeZone == zone
              && (p.summary == "" <==> name.None? || name.value == "")
              && (name.Some? ==> p.summary == name.value)
              && (p.description == "" <==> description.None? || description.value == "")
              && (description.Some? ==> p.description == description.value)
    ensures r.Rejected? ==> !api(r.request).ok && r.message == RejectedPrefix + api(r.request).statusText
    ensures r.Created? ==> api(r.request).ok
  {
    if !HasToken(session) then MissingSession
    else
      match StartTime(parse, dateString)
      case None => InvalidTime
      case Some(start) =>
        // `new Date(start + 3600000)` is invalid once past the largest time value
        if start + OneHour > MaxTime then InvalidTime
        else
          var end: TimeValue := start + OneHour;
          var payload := EventPayload(OrEmpty(name), OrEmpty(description), EventTime(start, zone), EventTime(end, zone));
          var request := Request(session.value.providerToken.value, payload);
          var response := api(request);
          if !response.ok then Rejected(request, RejectedPrefix + response.statusText)
          else Created(request)
  }

  /** Without a token the calendar API is never consulted: any two APIs give the same
      result. */
  lemma NoRequestWithoutToken(session: Option<Session>, zone: TimeZone, parse: DateParser, api1: CalendarApi, api2: CalendarApi,
                              dateString: Option<string>, name: Option<string>, description: Option<string>)
    requires !HasToken(session)
    ensures CreateEvent(session, zone, parse, api1, dateString, name, description)
         == CreateEvent(session, zone, parse, api2, dateString, name, description)
         == MissingSession
  {
  }

  /** What a press of the manual "Create Calendar Event" button ends in. */
  datatype ManualResult =
    | IncompleteFields                                   // "Please fill out all fields."
    | UnsetTime                                          // `toISOString` on a cleared or invalid date throws
    | ManualRejected(request: Request, message: string)
    | ManualCreated(request: Request)

  /** The token as it lands in the header template `Bearer ${token}`. */
  function TokenText(token: TokenField): string {
    match token
    case Undefined => "undefined"
    case Null => "null"
    case Token(value) => value
  }

  /** `createCalendarEvent()`, from the form's state. The form is only shown to a signed-in
      user, so a session exists; its token is not checked. */
  function CreateCalendarEvent(session: Session, zone: TimeZone, api: CalendarApi, name: string, description: string,
                               start: Option<TimeValue>, end: Option<TimeValue>): (r: ManualResult)
    ensures r.IncompleteFields? <==> name == "" || description == ""
    ensures r.UnsetTime? <==> name != "" && description != "" && (start.None? || end.None?)
    ensures (r.ManualRejected? || r.ManualCreated?) ==>
              var p := r.request.payload;
              r.request.token == TokenText(session.providerToken)
              && p.summary == name && p.description == description
              && start == Some(p.start.dateTime) && end == Some(p.end.dateTime)
              && p.start.timeZone == zone && p.end.timeZone == zone
    ensures r.ManualRejected? ==> !api(r.request).ok && r.message == ManualRejectedPrefix + api(r.request).statusText
    ensures r.ManualCreated? ==> api(r.request).ok
  {
    if name == "" || description == "" then IncompleteFields
    else if start.None? || end.None? then UnsetTime
    else
      var payload := EventPayload(name, description, EventTime(start.value, zone), EventTime(end.value, zone));
      var request := Request(TokenText(session.providerToken), payload);
      var response := api(request);
      if !response.ok then ManualRejected(request, ManualRejectedPrefix + response.statusText)
      else ManualCreated(request)
  }
}
