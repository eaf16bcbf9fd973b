# STEventSource in Dafny

A model of the core of STEventSource, an Objective-C client for Server-Sent Events. The core is a
three-stage pipeline. Each stage is a Dafny module with a pure specification, a class that updates
its fields in place the way the Objective-C object does, and lemmas about the specification.

- `LineAccumulation` (`line_accumulator.dfy`): `STEventSourceLineAccumulator`. The class
  `LineAccumulator` keeps the pending bytes `data` and the `Normal`/`AfterCR` state.
  `LinesByAccumulatingData` feeds a chunk to it byte by byte. The state machine `Step`/`Run` is
  proved equal to an independent reference splitter `SplitLines` (`RunFromFreshIsSplit`). So every
  chunking of a stream yields the same lines, including a CRLF whose CR and LF arrive in different
  chunks.
- `EventAccumulation` (`event_accumulator.dfy`): `STEventSourceEventAccumulator`. The field grammar
  of section 9.2.6 of the WHATWG HTML Living Standard, "Interpreting an event stream".
  - The class `EventAccumulator` keeps the `state`, `type`, `data` and `id` buffers.
  - Its delegate messages (`didReceiveEvent:`, `didReceiveRetryInterval:`) are the sequence of
    `DelegateCall`s that `AccumulateLines` returns.
  - `ProcessLine`/`ProcessLines` specify it.
  - `NSStringConsistsSolelyOfASCIIDigits` is the looping method `StringConsistsSolelyOfAsciiDigits`,
    proved equal to the predicate `IsDigitString`.
- `Utf8` (`utf8.dfy`): how a line's bytes become text. It is a strict UTF-8 decoder (Table 3-7 of
  the Unicode Standard) with its encoder and both round trips. A line that does not decode is
  dropped.
- `EventSourceSession` (`event_source.dfy`): `STEventSource`, the ready-state machine.
  - The pure `Session` value and `OpenCall`, `CloseCall`, `Deliver` and `TimerFires` specify the class
    `EventSource`. Each of its methods is proved to move `Model()` exactly as its function says.
  - The transport and the reconnect timer are inputs (`TransportEvent`, `Action`). Every request
    runs in a new transport task with the next number, and every delivery carries the number of
    the transport task that sent it. Only the outstanding task's deliveries are acted on.
  - Calls to the event handler and the completion handler, and requests sent, are outputs (`Output`).
  - `Perform` replays a whole history of actions, and the history lemmas are stated over it.
- `Events` (`event.dfy`): `STEventSourceEvent`, an immutable record `{type?, data, id?}`. Both
  `eventWithType:data:id:` and `initWithType:data:id:` are the datatype constructor `Event`, so they
  agree and an event never changes after construction. `Wrappers` and `Octets` hold `Option` and
  the byte types.

Behaviour the headers leave open follows sections 9.2.4 to 9.2.6 of the WHATWG HTML Living
Standard. Choices worth knowing:

- A CR ends its line at once; `AfterCR` only swallows an LF that follows it, so that a CRLF
  counts as one terminator even when its two bytes arrive in different chunks (section 9.2.5 of
  the WHATWG standard, and the two-valued state of STEventSourceLineAccumulator+Internal.h).
- Between the end of a body (or a network failure) and the reconnect, `readyState` stays
  `Connecting`, as the "reestablish the connection" steps of section 9.2.3 of the WHATWG standard
  say. It does not pass through `Closed`. So `close` can still cancel the scheduled reconnect, and
  `Closed` always means nothing is outstanding (`Consistent`).
- `Last-Event-ID` is sent only when the last event id is present and non-empty (section 9.2.4).
- `lastEventId` changes when an event carrying an id is dispatched, not when the `id:` line is
  read. A blank line resets the type, data and id buffers, whether or not it dispatched.
- Only status 404 gives `ResourceNotFoundError`. Any other status outside 200–299 gives
  `UnknownError`. A 2xx response whose MIME type is not `text/event-stream` gives
  `IncorrectResponseContentTypeError`. None of these schedules a reconnect.
- The data buffer of one event may hold at most `MaxDataLength` (0x10_0000) characters. A `data`
  field that would pass the limit discards the event in progress and enters
  `IgnoringUntilBlankLine`.
- The default retry interval is 3000 ms. A scheduled reconnect keeps the delay it was scheduled
  with.

## Model

| member | source | states |
|---|---|---|
| LineAccumulation.LineAccumulator.constructor | STEventSource/STEventSourceLineAccumulator+Internal.h:8-9 | a new accumulator has no pending bytes and is in `Normal`, the zero value |
| LineAccumulation.LineAccumulator.AccumulateByte | STEventSource/STEventSourceLineAccumulator+Internal.h:8-11 | one byte moves the pending bytes and state exactly as the machine `Step` does: LF or CR completes the pending line, the LF of a CRLF completes nothing, and any other byte extends the pending line |
| LineAccumulation.LineAccumulator.AccumulateBytes | STEventSource/STEventSourceLineAccumulator.h:11 | the loop over a chunk returns exactly the lines `Run` completes and leaves the state `Run` ends in |
| LineAccumulation.LineAccumulator.LinesByAccumulatingData | STEventSource/STEventSourceLineAccumulator.h:11-13 | after every chunk, all lines returned so far are the reference lines of all bytes fed so far. The pending `data` is the reference tail and holds no CR or LF. No returned line holds CR or LF. The state is `AfterCR` exactly when the chunk ended with CR. An empty chunk returns nothing and changes nothing |
| LineAccumulation.RunFromFreshIsSplit | STEventSource/STEventSourceLineAccumulator.h:11-13 | for every stream, the machine started fresh returns exactly the lines the reference splitter finds, keeps exactly the bytes after the last terminator, and ends `AfterCR` exactly when the stream ends with CR |
| LineAccumulation.RunFromPending | STEventSource/STEventSourceLineAccumulator.h:11-13 | holding an unterminated line `p`, the machine turns `s` into the reference lines and tail of `p + s` |
| LineAccumulation.RunAppend | STEventSource/STEventSourceLineAccumulator.h:11 | feeding `a` and then `b` is feeding `a + b`: same lines, in order, and the same state afterwards |
| LineAccumulation.TwoChunks | STEventSource/STEventSourceLineAccumulator.h:11 | two chunks fed to a fresh accumulator give the reference lines of their concatenation, wherever a CRLF falls |
| LineAccumulation.SplitLinesLossless | STEventSource/STEventSourceLineAccumulator.h:11-13 | no byte is lost or invented: the lines, each followed by its own terminator, then the tail, are the whole stream |
| LineAccumulation.SplitLinesClean | STEventSource/STEventSourceLineAccumulator.h:11-13 | no reference line and no reference tail holds a CR or LF |
| LineAccumulation.RunKeepsLinesClean | STEventSource/STEventSourceLineAccumulator.h:11-13 | starting from clean pending bytes, no returned line and not the new pending bytes hold a CR or LF |
| LineAccumulation.EmptyChunk | STEventSource/STEventSourceLineAccumulator.h:11-13 | a zero-length chunk returns no lines and leaves the pending bytes and state unchanged |
| LineAccumulation.RunUnterminated | STEventSource/STEventSourceLineAccumulator.h:11-13 | bytes with no terminator are never returned as a line; they are appended to the pending bytes |
| LineAccumulation.SplitUnterminated | STEventSource/STEventSourceLineAccumulator.h:11-13 | in the reference, a stream with no terminator has no lines and is all tail |
| LineAccumulation.RunStateTracksLastByte | STEventSource/STEventSourceLineAccumulator+Internal.h:10 | after a non-empty chunk the state is `AfterCR` exactly when its last byte is CR |
| LineAccumulation.LFAfterCR | STEventSource/STEventSourceLineAccumulator+Internal.h:10 | in `AfterCR`, a leading LF is consumed without an empty line and the state returns to `Normal` |
| LineAccumulation.OtherByteAfterCR | STEventSource/STEventSourceLineAccumulator+Internal.h:8-11 | in `AfterCR`, a chunk not starting with LF is processed exactly as from `Normal` |
| LineAccumulation.LFTerminatedLines | STEventSource/STEventSourceLineAccumulator.h:11 | a chunk of clean lines, each ended by LF, gives back exactly those lines and leaves the accumulator as new |
| LineAccumulation.FeedFacts | STEventSource/STEventSourceLineAccumulator.h:11-13 | one more chunk after a stream extends the returned lines to the reference lines of the longer stream, keeps the reference tail pending, and leaves no CR or LF in lines or tail |
| Utf8.DecodeEncode | STEventSource/STEventSourceEventAccumulator.h:22 | every string is the decoding of its UTF-8 encoding |
| Utf8.EncodeDecode | STEventSource/STEventSourceEventAccumulator.h:22 | a line that decodes re-encodes to exactly its bytes, so each line decodes to at most one text |
| EventAccumulation.StringConsistsSolelyOfAsciiDigits | STEventSource/STEventSourceEventAccumulator+Internal.h:25-39 | the index loop with early return answers true exactly for a non-empty string of ASCII digits, so the empty string, "-1", " 5" and "5 " give false |
| EventAccumulation.DecimalRoundTrip | STEventSource/STEventSourceEventAccumulator.h:14 | every number of milliseconds is the value of its decimal spelling, which is a digit string |
| EventAccumulation.ParseField | STEventSource/STEventSourceEventAccumulator.h:22 | the name has no colon and is the text before the first colon; the value is the rest with at most one leading space removed; a line with no colon is a name with an empty value |
| EventAccumulation.ParseNamedField | STEventSource/STEventSourceEventAccumulator.h:22 | `name: value` parses back to exactly `name` and `value` |
| EventAccumulation.FieldLineApplies | STEventSource/STEventSourceEventAccumulator.h:22 | the bytes of a field line reach the field logic with exactly its name and value |
| EventAccumulation.BlankLineResets | STEventSource/STEventSourceEventAccumulator.h:13-22 | a blank line leaves empty buffers and `Normal`. It dispatches exactly one event with the current type, id and data (less its final LF) when the data buffer is non-empty in `Normal`, and nothing otherwise |
| EventAccumulation.CommentIgnored | STEventSource/STEventSourceEventAccumulator.h:22 | a line starting with a colon makes no call and changes no state |
| EventAccumulation.DataField | STEventSource/STEventSourceEventAccumulator+Internal.h:19 | `data` appends its value and an LF while the limit allows, and otherwise discards the event in progress and starts ignoring |
| EventAccumulation.RetryField | STEventSource/STEventSourceEventAccumulator.h:14 | `retry` whose value is all ASCII digits makes one retry call with that many milliseconds; any other value makes none; the buffers are untouched |
| EventAccumulation.IdField | STEventSource/STEventSourceEventAccumulator+Internal.h:20 | `id` without NUL replaces the id buffer, the empty id included; with NUL it changes nothing; it never makes a call |
| EventAccumulation.EventAndUnknownFields | STEventSource/STEventSourceEventAccumulator+Internal.h:18-20 | `event` replaces the type buffer; an unknown field name changes nothing and makes no call |
| EventAccumulation.DataFieldsAppend | STEventSource/STEventSourceEventAccumulator+Internal.h:19 | a run of `data` lines appends each value followed by LF, in order |
| EventAccumulation.DataBufferJoins | STEventSource/STEventSourceEventAccumulator+Internal.h:19 | the data buffer after `data` lines is their values joined by LF, plus a final LF |
| EventAccumulation.DataEvent | STEventSource/STEventSourceEventAccumulator.h:13 | `data` lines followed by a blank line dispatch one event whose data is the values joined by LF |
| EventAccumulation.TwoDataLines | STEventSource/STEventSourceEventAccumulator.h:13 | `data: a`, `data: b`, blank line dispatch one event with data `a`, LF, `b` |
| EventAccumulation.ProcessLinesAppend | STEventSource/STEventSourceEventAccumulator.h:22 | accumulating `l1` and then `l2` is accumulating `l1 + l2`: calls come out in line order |
| EventAccumulation.ProcessLinesKeepsWellformed | STEventSource/STEventSourceEventAccumulator+Internal.h:8-20 | the buffers stay within the size limit, the data buffer ends in LF, the buffers are empty while ignoring, and every reported id is free of NUL |
| EventAccumulation.IgnoringSkipsLines | STEventSource/STEventSourceEventAccumulator+Internal.h:8-11 | while ignoring, non-blank lines change nothing and make no call |
| EventAccumulation.OversizedEventDropped | STEventSource/STEventSourceEventAccumulator+Internal.h:8-11 | a `data` field past the limit switches to ignoring; the lines up to the blank line and the blank line itself make no call, and the accumulator ends empty in `Normal` |
| EventAccumulation.EventAccumulator.constructor | STEventSource/STEventSourceEventAccumulator.h:20 | a new accumulator has empty buffers in `Normal` and remembers whether it has a delegate |
| EventAccumulation.EventAccumulator.AccumulateLine | STEventSource/STEventSourceEventAccumulator+Internal.h:8-20 | one line updates the fields as `ProcessLine` says and makes its calls only to a delegate |
| EventAccumulation.EventAccumulator.AccumulateLines | STEventSource/STEventSourceEventAccumulator.h:20-22 | the buffers evolve as `ProcessLines` says with or without a delegate; the calls are those of `ProcessLines` with one and none without |
| EventSourceSession.RequestHeaders | STEventSource/STEventSource.h:60 | every request carries `Accept: text/event-stream`, and carries `Last-Event-ID` exactly when the last event id is present and non-empty, with that id as its value |
| EventSourceSession.OpenOutcome | STEventSource/STEventSource.h:55 | `openWithError:` succeeds exactly from Closed, moving to Connecting and sending one request; otherwise it reports `InvalidOperationError` and changes nothing |
| EventSourceSession.CloseOutcome | STEventSource/STEventSource.h:58 | `closeWithError:` fails with `InvalidOperationError` exactly from Closed. Otherwise it ends Closed with no request or reconnect outstanding, and never calls the completion handler |
| EventSourceSession.CloseTwice | STEventSource/STEventSource.h:58 | a second close in a row reports `InvalidOperationError` |
| EventSourceSession.RejectedResponse | STEventSource/STEventSource.h:16-21 | a rejected response ends Closed with one completion carrying the matching error (404, other status, wrong content type) and no reconnect |
| EventSourceSession.AcceptedResponse | STEventSource/STEventSource.h:24-28 | an accepted response moves to Open with fresh line and event accumulators and calls no handler |
| EventSourceSession.EndOfStreamReconnects | STEventSource/STEventSource.h:62 | the end of the body or a failure schedules a reconnect after the current retry interval, keeps the id and interval, and calls no handler |
| EventSourceSession.ReconnectCarriesLastEventId | STEventSource/STEventSource.h:60 | after the end of the body, the reconnect request carries `Last-Event-ID` with the last event id |
| EventSourceSession.StaleDeliveryIgnored | STEventSource/STEventSource.h:52 | a delivery from any task but the outstanding one changes nothing and calls no handler |
| EventSourceSession.ReplacedTaskIgnored | STEventSource/STEventSource.h:52-58 | after close and open, or after a reconnect, the new request runs in a new task and a late delivery from the replaced task changes nothing |
| EventSourceSession.OnlyChunksChangeIdAndRetry | STEventSource/STEventSource.h:60-62 | only a chunk of the body changes the last event id or the retry interval; close, open, responses, the end of the body and the timer keep them |
| EventSourceSession.ApplyCallsOutputs | STEventSource/STEventSource.h:38 | the handler receives exactly the events the accumulator dispatched, in order, and nothing else |
| EventSourceSession.ApplyCallsMeaning | STEventSource/STEventSource.h:60-62 | after the accumulator's calls, the last event id is that of the last event carrying one and the retry interval is the last one reported |
| EventSourceSession.ApplyTracksLatestId | STEventSource/STEventSource.h:60 | every step moves the last event id to the id of the last handled event carrying one, and nowhere else |
| EventSourceSession.LastEventIdHistory | STEventSource/STEventSource.h:60 | over any history, the last event id is the id of the last handled event that carried one, or the starting id; it survives disconnect and reconnect |
| EventSourceSession.PerformKeepsConsistent | STEventSource/STEventSource.h:24-28 | every history keeps the session consistent: Closed exactly when nothing is outstanding, a scheduled reconnect only while Connecting, and well-formed buffers |
| EventSourceSession.QuietWhileClosed | STEventSource/STEventSource.h:57-58 | once Closed, nothing changes and nothing is output until the next open |
| EventSourceSession.NothingAfterClose | STEventSource/STEventSource.h:58 | after a successful close, no event handler, completion handler or request follows until the next open |
| EventSourceSession.StepCompletion | STEventSource/STEventSource.h:39 | an action other than open that calls the completion handler does nothing else, reports a fatal error (never `InvalidOperationError`) and leaves the session Closed |
| EventSourceSession.CompletionAtMostOnce | STEventSource/STEventSource.h:39 | between one open and the next the completion handler is called at most once, with a fatal error, as the very last output, and the session is Closed afterwards |
| EventSourceSession.OneEventChunkDelivered | STEventSource/STEventSource.h:38 | a chunk completing one event with an id hands that event to the handler and takes its id as the last event id |
| EventSourceSession.StreamScenario | STEventSource/STEventSource.h:52-62 | open, accepted response, a chunk `id`/`data`/blank line, end of body, timer: one request without `Last-Event-ID` in task 1, the event, then a request with `Last-Event-ID` set to the id in task 2 |
| EventSourceSession.EventSource.constructor | STEventSource/STEventSource.h:24-25 | a new session is Closed, the zero value, with no last event id and the default retry interval, and is made of newly allocated objects only |
| EventSourceSession.EventSource.OpenWithError | STEventSource/STEventSource.h:55 | returns YES exactly when no error is reported, and moves the session as `OpenCall` says |
| EventSourceSession.EventSource.Open | STEventSource/STEventSource.h:54 | `open` moves the session as `openWithError:` does, dropping the error |
| EventSourceSession.EventSource.CloseWithError | STEventSource/STEventSource.h:58 | returns YES exactly when no error is reported, and moves the session as `CloseCall` says |
| EventSourceSession.EventSource.Close | STEventSource/STEventSource.h:57 | `close` moves the session as `closeWithError:` does, dropping the error |
| EventSourceSession.EventSource.DidReceiveResponse | STEventSource/STEventSource.h:16-21 | a response from a task moves the session and calls the completion handler as `Deliver` says; new accumulators are newly allocated |
| EventSourceSession.EventSource.DidReceiveData | STEventSource/STEventSource.h:38 | a chunk from a task runs through both accumulators, changing only the session's own objects, and the outputs and new state are those `Deliver` gives |
| EventSourceSession.EventSource.AcceptChunk | STEventSource/STEventSource.h:38 | while Open, a chunk moves the session exactly as `ReceiveChunk` says and keeps it valid |
| EventSourceSession.EventSource.ApplyDelegateCalls | STEventSource/STEventSourceEventAccumulator.h:12-15 | as the accumulator's delegate, the session hands events on, updates the last event id and retry interval, all as `ApplyCalls` says |
| EventSourceSession.EventSource.DidComplete | STEventSource/STEventSource.h:62 | the end of a task's body or its failure schedules the reconnect as `Deliver` says |
| EventSourceSession.EventSource.ReconnectTimerFired | STEventSource/STEventSource.h:60 | the timer sends the request again in a new task with the current last event id, as `TimerFires` says |

## Left out

- The NSURLSession transport, the session configuration, the URL and the extra header dictionary
  (STEventSource.h:45-50): the transport is a sequence of inputs, and a request is its headers.
- Threads, the atomic check-and-set of `readyState`, and cancellation racing with a delivery: the
  model is sequential. The transport task objects are represented by their numbers.
- The reconnect timer's clock: a scheduled reconnect records its delay, and its expiry is an input.
- `NSTimeInterval` for the retry interval (STEventSource.h:62, STEventSourceEventAccumulator.h:14):
  whole milliseconds as an unbounded `nat`. Conversion to seconds in floating point is not modelled.
- `MaxDataLength` counts Unicode scalar values, not the UTF-16 code units of an `NSString`. Its
  value is a choice, because the headers do not show the library's limit.
- The byte order mark that section 9.2.5 of the WHATWG standard strips from the start of a stream
  is not stripped.
- An over-long event is dropped without an error report: the delegate protocol has no error message.
- Parsing of the `Content-Type` header: the response arrives with its MIME type already extracted,
  as `NSURLResponse.MIMEType` gives it.
- `eventsByAccumulatingLines:`, commented out in STEventSourceEventAccumulator.h:23.
- The version symbols (STEventSource.h:6-7), the command-line client STEventSourceClient/main.swift
  and the test-only URL protocol in STEventSourceTests.
- Readers of `state`, `readyState`, `lastEventId` and `retryInterval`: they are plain field reads.
