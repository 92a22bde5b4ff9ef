/** The date detector service (backend-/app.py, `POST /detect_date`).

    For every date that the date finder reports in the posted text, the service cuts a
    window of context around the first occurrence of the date's rendering, asks the
    summarizer for an event name and a description of that context, and returns one
    record per date. With no dates at all it returns a message instead.

    The date finder and the summarizer are parameters: the model says nothing about
    which dates are found or what summaries read, only how their answers are used. */
module Detector {
  import opened Optional

  /** How far the context window reaches on each side of the date. */
  const Radius: nat := 100

  const DefaultName: string := "Unknown Event"
  const DefaultDescription: string := "No description available"
  const ErrorName: string := "Error summarizing event name"
  const ErrorDescription: string := "Error summarizing description"
  const NoDatesMessage: string := "No dates found"

  /** The `max_length` and `min_length` handed to the summarizer. */
  datatype SummaryBounds = SummaryBounds(maxLength: nat, minLength: nat)

  const NameBounds: SummaryBounds := SummaryBounds(10, 7)
  const DescriptionBounds: SummaryBounds := SummaryBounds(70, 30)

  /** The summarization pipeline: the `summary_text` of its first answer, or `None`
      when the call raises. */
  type Summarizer = (string, SummaryBounds) -> Option<string>

  /** `datefinder.find_dates` followed by `str` of each match, in the order found. */
  type DateFinder = string -> seq<string>

  datatype EventRecord = EventRecord(date: string, eventName: string, eventDescription: string)

  /** The JSON reply: `{"events": [...]}` or `{"message": ...}`. */
  datatype Reply = Events(events: seq<EventRecord>) | Message(message: string)

  /** The half-open index range `[start, end)` of the context. */
  datatype Window = Window(start: nat, end: nat)

  predicate OccursAt(text: string, pattern: string, i: int) {
    0 <= i && i + |pattern| <= |text| && text[i..i + |pattern|] == pattern
  }

  /** Python's `text.find(pattern, from)`. */
  function FindFrom(text: string, pattern: string, from: nat): (r: int)
    ensures r == -1 || (from <= r && OccursAt(text, pattern, r))
    ensures r != -1 ==> forall i :: from <= i < r ==> !OccursAt(text, pattern, i)
    ensures r == -1 ==> forall i :: from <= i ==> !OccursAt(text, pattern, i)
    decreases |text| - from
  {
    if from + |pattern| > |text| then -1
    else if text[from..from + |pattern|] == pattern then from
    else FindFrom(text, pattern, from + 1)
  }

  /** Python's `text.find(pattern)`: the first index at which `pattern` occurs, or -1. */
  function Find(text: string, pattern: string): (r: int)
    ensures r == -1 || 0 <= r <= |text| - |pattern|
    ensures r >= 0 ==> OccursAt(text, pattern, r) && forall i :: 0 <= i < r ==> !OccursAt(text, pattern, i)
    ensures r == -1 <==> forall i :: 0 <= i ==> !OccursAt(text, pattern, i)
  {
    FindFrom(text, pattern, 0)
  }

  predicate InWindow(w: Window, k: int) {
    w.start <= k < w.end
  }

  /** `start_idx = max(found - 100, 0)` and `end_idx = min(found + 100, len(text))`
      for a text of length `n`, where `found` is what `find` returned. */
  function ContextWindow(n: nat, found: int): (w: Window)
    requires -1 <= found <= n
    ensures w.start <= w.end <= n
    ensures w.end - w.start <= 2 * Radius
    ensures forall k :: 0 <= k < n ==> (InWindow(w, k) <==> found - Radius <= k < found + Radius)
    ensures found == -1 ==> w == Window(0, if n < Radius - 1 then n else Radius - 1)
  {
    var start := if found - Radius > 0 then found - Radius else 0;
    var end := if found + Radius < n then found + Radius else n;
    Window(start, end)
  }

  /** The context of one match: the text inside the window around the first occurrence
      of the match's rendering. */
  function Context(text: string, date: string): (c: string)
    ensures |c| <= 2 * Radius
    ensures Find(text, date) == -1 ==> c == text[..if |text| < Radius - 1 then |text| else Radius - 1]
  {
    var w := ContextWindow(|text|, Find(text, date));
    text[w.start..w.end]
  }

  /** The context is empty exactly when the whole text is. */
  lemma ContextEmptyIffTextEmpty(text: string, date: string)
    ensures Context(text, date) == "" <==> text == ""
  {
    var found := Find(text, date);
    var w := ContextWindow(|text|, found);
    if text != "" {
      if found == -1 {
        assert InWindow(w, 0);
      } else {
        assert found < |text| || date == "";
        var k := if found < |text| then found else 0;
        assert InWindow(w, k);
      }
      assert w.start < w.end;
    }
  }

  /** When the date's rendering occurs in the text and is no longer than the radius,
      the context holds it in full. */
  lemma ContextContainsDate(text: string, date: string)
    requires Find(text, date) >= 0 && |date| <= Radius
    ensures var w := ContextWindow(|text|, Find(text, date));
            w.start <= Find(text, date) && OccursAt(Context(text, date), date, Find(text, date) - w.start)
  {
    var found := Find(text, date);
    var w := ContextWindow(|text|, found);
    var c := Context(text, date);
    assert w.start <= found && found + |date| <= w.end;
    var i := found - w.start;
    assert c == text[w.start..w.end];
    forall j | i <= j < i + |date|
      ensures c[j] == text[w.start + j]
    {
    }
    assert c[i..i + |date|] == text[found..found + |date|];
  }

  /** The event record for one match, as built by the body of the loop over matches. */
  function Record(text: string, date: string, summarize: Summarizer): (r: EventRecord)
    ensures r.date == date
    ensures text == "" ==> r.eventName == DefaultName && r.eventDescription == DefaultDescription
    ensures var name, description := summarize(Context(text, date), NameBounds), summarize(Context(text, date), DescriptionBounds);
            text != "" && (name.None? || description.None?) ==>
              r.eventName == ErrorName && r.eventDescription == ErrorDescription
    ensures var name, description := summarize(Context(text, date), NameBounds), summarize(Context(text, date), DescriptionBounds);
            text != "" && name.Some? && description.Some? ==>
              r.eventName == name.value && r.eventDescription == description.value
  {
    ContextEmptyIffTextEmpty(text, date);
    var context := Context(text, date);
    if context == "" then EventRecord(date, DefaultName, DefaultDescription)
    else match (summarize(context, NameBounds), summarize(context, DescriptionBounds))
      case (Some(name), Some(description)) => EventRecord(date, name, description)
      case _ => EventRecord(date, ErrorName, ErrorDescription)
  }

  /** The reply of `detect_date` for a text. */
  function DetectReply(text: string, findDates: DateFinder, summarize: Summarizer): (r: Reply)
    ensures r.Message? <==> |findDates(text)| == 0
    ensures r.Message? ==> r.message == NoDatesMessage
    ensures r.Events? ==> |r.events| == |findDates(text)|
    ensures r.Events? ==> forall i :: 0 <= i < |r.events| ==> r.events[i] == Record(text, findDates(text)[i], summarize)
    ensures r.Events? ==> forall i :: 0 <= i < |r.events| ==> r.events[i].date == findDates(text)[i]
  {
    var matches := findDates(text);
    if |matches| == 0 then Message(NoDatesMessage)
    else Events(seq(|matches|, i requires 0 <= i < |matches| => Record(text, matches[i], summarize)))
  }

  /** `detect_date`: the loop over the matches, appending one record per match. */
  method DetectDate(text: string, findDates: DateFinder, summarize: Summarizer) returns (reply: Reply)
    ensures reply == DetectReply(text, findDates, summarize)
  {
    var matches := findDates(text);
    if |matches| > 0 {
      var result: seq<EventRecord> := [];
      for i := 0 to |matches|
        invariant |result| == i
        invariant forall j :: 0 <= j < i ==> result[j] == Record(text, matches[j], summarize)
      {
        var date := matches[i];
        var w := ContextWindow(|text|, Find(text, date));
        var context := text[w.start..w.end];
        var eventName := DefaultName;
        var eventDescription := DefaultDescription;
        if context != "" {
          match summarize(context, NameBounds)
          case None =>
            eventName, eventDescription := ErrorName, ErrorDescription;
          case Some(name) =>
            eventName := name;
            match summarize(context, DescriptionBounds)
            case None =>
              eventName, eventDescription := ErrorName, ErrorDescription;
            case Some(description) =>
              eventDescription := description;
        }
        result := result + [EventRecord(date, eventName, eventDescription)];
      }
      reply := Events(result);
    } else {
      reply := Message(NoDatesMessage);
    }
  }
}
