/** The PDF upload handler of client/src/App.js (`handlePdfUpload`): accept only a PDF,
    collect the text of its pages, post it to the date detector, and either create one
    calendar event per detected event, in order, or show the detector's message.

    Reading and parsing the file, the detector's HTTP call and the calendar API are
    parameters: the parsed document is part of the file, the detector is a function from
    text to its parsed JSON reply (`None` when the request or the JSON decoding fails). */
module Upload {
  import opened Optional
  import opened PdfText
  import opened Calendar
  import Detector

  const PdfMediaType: string := "application/pdf"

  /** A selected file: its declared type and the pages the PDF library reads from it, or
      `None` when the library cannot load it. */
  datatype PdfFile = PdfFile(mediaType: string, document: Option<seq<Page>>)

  /** One entry of the reply's `events`, whose fields may be missing. */
  datatype Candidate = Candidate(date: Option<string>, eventName: Option<string>, eventDescription: Option<string>)

  /** The detector's reply as the client reads it: `result.events` and `result.message`. */
  datatype DetectorReply = DetectorReply(events: Option<seq<Candidate>>, message: Option<string>)

  type DetectorService = string -> Option<DetectorReply>

  /** One `createEvent` call: the entry it was made for and what it ended in. */
  datatype EventCall = EventCall(candidate: Candidate, result: CreateResult)

  datatype UploadOutcome =
    | NotAPdf                                          // "Please upload a valid PDF file."
    | UnreadableDocument                               // the PDF library rejects the file
    | DetectorFailed(text: string)                     // the detector request or its JSON fails
    | EventsDispatched(text: string, calls: seq<EventCall>)
    | MessageShown(text: string, message: Option<string>)

  predicate IsPdf(file: Option<PdfFile>) {
    file.Some? && file.value.mediaType == PdfMediaType
  }

  /** `createEvent` called with the entry's `date`, `eventName` and `eventDescription`. */
  function CallFor(session: Option<Session>, zone: TimeZone, parse: DateParser, api: CalendarApi, c: Candidate): EventCall {
    EventCall(c, CreateEvent(session, zone, parse, api, c.date, c.eventName, c.eventDescription))
  }

  /** Exactly one call per entry, in the order of the entries. */
  predicate OneCallPerEvent(calls: seq<EventCall>, events: seq<Candidate>,
                            session: Option<Session>, zone: TimeZone, parse: DateParser, api: CalendarApi) {
    |calls| == |events| && forall i :: 0 <= i < |events| ==> calls[i] == CallFor(session, zone, parse, api, events[i])
  }

  /** `handlePdfUpload`, run to completion. */
  method HandlePdfUpload(file: Option<PdfFile>, detector: DetectorService,
                         session: Option<Session>, zone: TimeZone, parse: DateParser, api: CalendarApi)
    returns (outcome: UploadOutcome)
    ensures outcome.NotAPdf? <==> !IsPdf(file)
    ensures outcome.UnreadableDocument? <==> IsPdf(file) && file.value.document.None?
    ensures IsPdf(file) && file.value.document.Some? ==>
              var text := Extracted(file.value.document.value);
              var reply := detector(text);
              (reply.None? ==> outcome == DetectorFailed(text))
              && (reply.Some? && reply.value.events.Some? ==>
                    outcome.EventsDispatched? && outcome.text == text
                    && OneCallPerEvent(outcome.calls, reply.value.events.value, session, zone, parse, api))
              && (reply.Some? && reply.value.events.None? ==> outcome == MessageShown(text, reply.value.message))
  {
    if file.None? || file.value.mediaType != PdfMediaType {
      outcome := NotAPdf;
    } else {
      match file.value.document
      case None =>
        outcome := UnreadableDocument;
      case Some(pdfDoc) =>
        var fullText := "";
        var i := 1;
        while i <= |pdfDoc|
          invariant 1 <= i <= |pdfDoc| + 1
          invariant fullText == Extracted(pdfDoc[..i - 1])
        {
          var pageText := Join(pdfDoc[i - 1], ItemSeparator);
          assert pdfDoc[..i][..i - 1] == pdfDoc[..i - 1];
          fullText := fullText + pageText + PageSeparator;
          i := i + 1;
        }
        assert pdfDoc[..|pdfDoc|] == pdfDoc;
        var response := detector(fullText);
        if response.None? {
          outcome := DetectorFailed(fullText);
        } else if response.value.events.Some? {
          var events := response.value.events.value;
          var calls: seq<EventCall> := [];
          for k := 0 to |events|
            invariant |calls| == k
            invariant forall j :: 0 <= j < k ==> calls[j] == CallFor(session, zone, parse, api, events[j])
          {
            var event := events[k];
            var result := CreateEvent(session, zone, parse, api, event.date, event.eventName, event.eventDescription);
            calls := calls + [EventCall(event, result)];
          }
          outcome := EventsDispatched(fullText, calls);
        } else {
          outcome := MessageShown(fullText, response.value.message);
        }
    }
  }

  /** Without a calendar token, every dispatched call stops at the session check and no
      calendar request is sent. */
  lemma NoEventWithoutToken(calls: seq<EventCall>, events: seq<Candidate>,
                            session: Option<Session>, zone: TimeZone, parse: DateParser, api: CalendarApi)
    requires OneCallPerEvent(calls, events, session, zone, parse, api)
    requires !HasToken(session)
    ensures forall i :: 0 <= i < |calls| ==> calls[i].result == MissingSession
  {
  }

  predicate Complete(c: Candidate) {
    c.date.Some? && c.eventName.Some? && c.eventDescription.Some?
  }

  /** Reads a received reply back as a reply of the detector, when it has that shape: an
      `events` list whose entries carry all three fields, or a `message` alone. */
  function FromReceived(r: DetectorReply): Option<Detector.Reply> {
    match r.events
    case Some(cs) =>
      if r.message.None? && forall i :: 0 <= i < |cs| ==> Complete(cs[i]) then
        Some(Detector.Events(seq(|cs|, i requires 0 <= i < |cs| && Complete(cs[i]) =>
          Detector.EventRecord(cs[i].date.value, cs[i].eventName.value, cs[i].eventDescription.value))))
      else None
    case None =>
      if r.message.Some? then Some(Detector.Message(r.message.value)) else None
  }

  /** The detector's reply after the JSON round trip: every field is present. */
  function AsReceived(reply: Detector.Reply): DetectorReply
  {
    match reply
    case Message(message) => DetectorReply(None, Some(message))
    case Events(records) =>
      DetectorReply(Some(seq(|records|, i requires 0 <= i < |records| =>
        Candidate(Some(records[i].date), Some(records[i].eventName), Some(records[i].eventDescription)))), None)
  }

  /** Nothing of the detector's reply is lost on the way to the client: reading the
      received reply back gives the reply that was sent. */
  lemma AsReceivedRoundTrip(reply: Detector.Reply)
    ensures FromReceived(AsReceived(reply)) == Some(reply)
  {
    var r := AsReceived(reply);
    if reply.Events? {
      var cs := r.events.value;
      assert forall i :: 0 <= i < |cs| ==> Complete(cs[i]);
      var back := seq(|cs|, i requires 0 <= i < |cs| && Complete(cs[i]) =>
        Detector.EventRecord(cs[i].date.value, cs[i].eventName.value, cs[i].eventDescription.value));
      assert back == reply.events;
    }
  }

  /** Against this backend, the client creates events exactly when the date finder found
      dates, one per date, each with that date's rendering as its date string; otherwise
      it shows "No dates found". */
  lemma BackendReplyAsReceived(text: string, findDates: Detector.DateFinder, summarize: Detector.Summarizer)
    ensures var reply := AsReceived(Detector.DetectReply(text, findDates, summarize));
            var matches := findDates(text);
            (reply.events.Some? <==> |matches| > 0)
            && (reply.events.Some? ==>
                  |reply.events.value| == |matches|
                  && forall i :: 0 <= i < |matches| ==> reply.events.value[i].date == Some(matches[i]))
            && (reply.events.None? ==> reply.message == Some(Detector.NoDatesMessage))
  {
    var backend := Detector.DetectReply(text, findDates, summarize);
    var reply := AsReceived(backend);
    if backend.Events? {
      forall i | 0 <= i < |findDates(text)|
        ensures reply.events.value[i].date == Some(findDates(text)[i])
      {
        assert backend.events[i].date == findDates(text)[i];
      }
    }
  }
}
