# PDF to Google Calendar: a Dafny model of the event pipeline

The application reads a PDF in the browser and builds one string from its pages. It posts that
string to a small date-detector service and turns each event the service reports into a Google
Calendar event. This project models the deterministic logic between the library calls:

- `Upload` (`handlePdfUpload` in client/src/App.js). Only a file of type `application/pdf` is
  accepted. The text items of each page are joined with a single space. Every page's text,
  followed by a blank line, is appended in page order. The detector's reply then either
  creates one event per entry of `events`, in order, or shows its `message`.
- `PdfText`: the page-text functions that handler uses, with their properties. The segments
  tile the text in page order. For a page with at least one item and no item containing a
  space, splitting its text on spaces gives back its items.
- `Calendar` (`createEvent` and `createCalendarEvent` in client/src/App.js). A call with no
  session or an empty token fails before any request. A missing or empty name or description
  becomes `""`. The end is exactly one hour (3 600 000 ms) after the start. Start and end carry
  the same client time zone. A failure status becomes an error that carries the status text.
  The manual form refuses to go on when the name or the description is empty.
- `Detector` (`detect_date` in backend-/app.py). For each date match, the context window is
  `[max(f - 100, 0), min(f + 100, len(text)))`, where `f` is the first index of the match's
  rendering in the text, or -1. A context that is empty keeps the default name and
  description. A summarizer failure sets both to fixed error strings. The reply holds one
  record per match, in match order. With no matches it is `{"message": "No dates found"}`.

Modelling choices:

- The pdfjs document is given as its pages, each page as the `str` of its text items.
- The detector's HTTP reply and the calendar API's answer are function parameters.
- `datefinder.find_dates` (with `str` applied to each match) and the BART summarizer are
  function parameters. The summarizer returns `None` when it raises.
- A JavaScript `Date` is its millisecond time value (`TimeValue`, at most 8.64e15 in magnitude),
  or `None` when invalid. The ISO 8601 text that `toISOString` produces depends only on the
  time value, so the payload carries the time value itself.
- A rendering of a match that does not occur in the text (when `str(match)` is formatted
  differently from the text) makes `find` return -1. The window is then the first 99
  characters of the text, as `Context`'s contract states.

Facts of the code that the model keeps:

- An `events` field that is present but empty is truthy in JavaScript. With it, no event is
  created and no message is shown. The backend never sends an empty list: it replies with the
  message instead.
- The code keeps no aggregated outcome, no remote event id and no retry. Each `createEvent`
  call ends on its own, and the response body is discarded.
- A PDF the library cannot load raises inside the asynchronous `onload` callback. That is
  outside the `try`, so nothing is reported (`UnreadableDocument`).
- A start less than one hour before the largest time value gives an end that `toISOString`
  rejects. That is an `InvalidTime` as well.
- The manual form sends `Bearer ${session.provider_token}` unchecked, so a missing token is
  sent as the text `undefined` and a `null` one as `null`.

## Model

| member | source | states |
|---|---|---|
| `Detector.FindFrom` | backend-/app.py:33 | The result is -1 and the pattern occurs nowhere from `from` on. Otherwise it is the first index from `from` at which the pattern occurs. |
| `Detector.Find` | backend-/app.py:33-34 | Python's `str.find`: the first occurrence of the match's rendering, or -1 exactly when it occurs nowhere. |
| `Detector.ContextWindow` | backend-/app.py:33-34 | `0 <= start <= end <= len(text)` and `end - start <= 200`. A position is in the window exactly when it lies in `[f - 100, f + 100)`. For `f = -1` the window is `[0, min(99, len(text)))`. |
| `Detector.Context` | backend-/app.py:33-36 | The context is at most 200 characters long. When the rendering is not found, it is the text's first `min(99, len(text))` characters. |
| `Detector.ContextEmptyIffTextEmpty` | backend-/app.py:36-42 | The context is empty exactly when the whole text is, so the defaults survive only for an empty text. |
| `Detector.ContextContainsDate` | backend-/app.py:32-36 | A found rendering of at most 100 characters lies wholly inside its context, at its offset from the window start. |
| `Detector.Record` | backend-/app.py:36-55 | `date` is the match's rendering. An empty text keeps "Unknown Event" / "No description available". A nonempty text with either summary failing gets both error strings. Otherwise the record gets the two summaries of the context, with bounds (10, 7) and (70, 30). |
| `Detector.DetectReply` | backend-/app.py:27-59 | The reply is the message "No dates found", with no events, exactly when there are no matches. Otherwise it holds one record per match, in match order, and each record's date is that match's rendering. |
| `Detector.DetectDate` | backend-/app.py:26-59 | `detect_date`'s loop, which appends one record per match and reassigns the name and description, gives exactly `DetectReply`. |
| `PdfText.SplitJoin` | client/src/App.js:61 | Splitting a page's space-joined text on spaces gives back its items, for a page with at least one item and no item containing a space. |
| `PdfText.Join` | client/src/App.js:61 | A page's text (`PageText` = `Join` with a space) holds every item once with one separator between neighbours: for one item or more its length is the items' total length plus one less than their number, and it starts with the first item. Its inverse is `SplitJoin`. |
| `PdfText.Extracted` | client/src/App.js:57-63 | The full text built by the page loop. Every page adds at least the two characters of its blank line, so the text is at least twice as long as the number of pages. |
| `PdfText.ExtractedEnds` | client/src/App.js:57-63 | The text is empty exactly for zero pages. For one page or more it ends in the blank-line separator. |
| `PdfText.ExtractedSnoc` | client/src/App.js:62 | The defining step of `Extracted`, stated at `pages + [page]`: one iteration of the loop appends that page's joined items and `"\n\n"`. |
| `PdfText.ExtractedCons` | client/src/App.js:57-63 | Built from the front, the text is the first page's segment followed by the text of the remaining pages. |
| `PdfText.ExtractedPrefix` | client/src/App.js:57-63 | The text of the first `k` pages is a prefix of the text of all pages. |
| `PdfText.SegmentAt` | client/src/App.js:57-63 | Page `k` contributes exactly its joined items followed by `"\n\n"`. The segment starts where the text of pages `1..k-1` ends and ends where the text of pages `1..k` ends. |
| `Calendar.CreateEvent` | client/src/App.js:102-152 | No session or token means `MissingSession`, and only then. An invalid start, or an end `new Date(start + 3600000)` past the largest time value, means `InvalidTime` and no request. Any request sent carries the session's token. Its end is exactly start + 3 600 000 ms, with the parsed start. Both times carry the client zone. An absent or empty name or description becomes `""`, and any other passes through unchanged. A failure status gives `Rejected` carrying "Failed to create event: " + status text. A success status gives `Created`. |
| `Calendar.NoRequestWithoutToken` | client/src/App.js:104-107 | Without a token the calendar API is never consulted: the result is `MissingSession` whatever the API would answer. |
| `Calendar.CreateCalendarEvent` | client/src/App.js:156-202 | An empty name or description stops the call before any request, and only then. A cleared or invalid start or end stops it too. Any request sent carries the form's name, description, start and end unchanged, the same zone on both times, and the session token as the header template renders it: `undefined` for a missing one, `null` for a null one. A failure status gives `ManualRejected` carrying "Error creating event: " + status text. That is the error's message, which the source only logs; its alert is a fixed text. A success status gives `ManualCreated`. |
| `Upload.HandlePdfUpload` | client/src/App.js:47-99 | A missing or non-PDF file is rejected, and only such a file. An unloadable PDF stops the upload. Otherwise the detector receives exactly `Extracted(pages)`. A failed detector request stops the upload. A reply with `events` makes one `createEvent` call per entry, in order, with that entry's date, name and description. A reply without `events` only shows its message. |
| `Upload.NoEventWithoutToken` | client/src/App.js:82-85 | With no token, every call of an upload stops at the session check, so no calendar request is sent. |
| `Upload.AsReceivedRoundTrip` | backend-/app.py:51-59 | Nothing of the reply is lost on the way to the client. Reading the received reply back (`FromReceived`) gives exactly the reply the detector sent. |
| `Upload.BackendReplyAsReceived` | backend-/app.py:29-59 | With the reply passed through `AsReceived` (its JSON form as the client reads it), the client sees `events` exactly when dates were found, with one entry per match and that match's rendering as date. Otherwise it sees the message "No dates found". |

## Left out

- React rendering, hooks, the `isCreatingEvent` flag, DatePicker, alerts and console output. They are UI only. `ManualRejected`'s message is the text the source logs, not the alert, which is always "Failed to create event. See console for details.".
- Supabase OAuth sign-in and sign-out. An external identity service supplies the session, modelled as optional, with a token field that may be missing, `null` or a string.
- pdfjs `getDocument`, `getPage`, `getTextContent` and the `FileReader` callback. The parsed pages are input data.
- The `fetch` calls and their JSON decoding. The network is a function parameter. The calendar API answers as a function of the request, so two identical requests get the same answer.
- A `response.json()` failure after a successful creation. The body is discarded, so it only changes the alert.
- The concurrency of the un-awaited `createEvent` calls inside `forEach`. They are modelled one after another, in list order. Each call depends only on its own entry.
- JavaScript `Date` string parsing, `toISOString` formatting and `Intl` zone resolution. These are host behaviour: a parser parameter, the time value and an opaque zone name. The zone is read twice in the source and is taken to be the same both times. `new Date(null)` (the epoch) is not distinguished from an absent date string (invalid).
- An `events` value that is truthy but not a list. It would make `forEach` throw, and this backend never sends one.
- `datefinder.find_dates` and the BART summarizer. They are heuristic and machine-learning libraries, modelled as uninterpreted parameters.
- FastAPI, CORS and uvicorn setup. This is framework plumbing.
- Lone surrogates. A Python `str` can hold a lone surrogate code point, which no Dafny `char` can be. Otherwise one Dafny `char` is one Python code point, so lengths and indices agree.
