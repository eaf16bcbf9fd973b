/**
 * STEventSource: one logical event-source connection, through all of its reconnects.
 * The session owns a line accumulator and an event accumulator, keeps the ready state, the
 * last event id and the retry interval, and reacts to the calls of its owner (`open`, `close`)
 * and to what the transport delivers (a response, a chunk of the body, the end of the body,
 * a failure) and to its reconnect timer. Network, threads and time are not modelled: each
 * transport delivery and each timer expiry is an input, and each event handler call,
 * completion handler call and request sent is an output.
 */
module EventSourceSession {
  import opened Wrappers
  import opened Octets
  import opened Events
  import opened LineAccumulation
  import opened EventAccumulation

  /** STEventSourceErrorCode, in declaration order. */
  datatype ErrorCode =
    | UnknownError
    | InvalidOperationError
    | ResourceNotFoundError
    | IncorrectResponseContentTypeError

  /** STEventSourceReadyState. `Closed` is the zero value. */
  datatype ReadyState = Closed | Connecting | Open

  /** The retry interval, in milliseconds, before any `retry` field has been seen. */
  const DefaultRetryInterval: nat := 3000

  const EventStreamMimeType: string := "text/event-stream"

  datatype Header = Header(name: string, value: string)

  /** What the transport reports about the request in flight. */
  datatype TransportEvent =
    | Response(status: int, mimeType: Option<string>)
    | Chunk(chunk: bytes)
    | Finished
    | Failed

  /**
   * What the session does to the world: call the event handler, call the completion handler,
   * send a request. Each request starts a new transport task, numbered one more than the last.
   */
  datatype Output =
    | HandleEvent(event: Event)
    | Complete(error: ErrorCode)
    | SendRequest(task: nat, headers: seq<Header>)

  /**
   * The session's state. `task` is the number of the latest transport task and `taskActive`
   * whether it is still outstanding; `reconnectAfter` is the delay of a scheduled reconnect, if
   * one is scheduled.
   */
  datatype Session = Session(
    readyState: ReadyState,
    lastEventId: Option<string>,
    retryInterval: nat,
    task: nat,
    taskActive: bool,
    reconnectAfter: Option<nat>,
    splitter: Splitter,
    buffers: Buffers)

  /** A newly initialised session. */
  const Created: Session := Session(Closed, None, DefaultRetryInterval, 0, false, None, Fresh, EventAccumulation.Initial)

  /** The result of `openWithError:` or `closeWithError:`: the error reported (none on success), the new state, and the outputs. */
  datatype Reply = Reply(error: Option<ErrorCode>, after: Session, outputs: seq<Output>)

  /** The result of an input from the transport or the timer. */
  datatype Stepped = Stepped(after: Session, outputs: seq<Output>)

  /**
   * The session's consistency: Closed exactly when no request is outstanding and no reconnect
   * is scheduled, never both at once, and a scheduled reconnect only while Connecting.
   */
  ghost predicate Consistent(s: Session) {
    && (s.readyState == Closed <==> !s.taskActive && s.reconnectAfter.None?)
    && !(s.taskActive && s.reconnectAfter.Some?)
    && (s.reconnectAfter.Some? ==> s.readyState == Connecting)
    && Wellformed(s.buffers)
  }

  /** The headers of every request: `Accept: text/event-stream`, and `Last-Event-ID` when there is a non-empty last event id. */
  function RequestHeaders(lastEventId: Option<string>): (h: seq<Header>)
    ensures |h| >= 1 && h[0] == Header("Accept", EventStreamMimeType)
    ensures (exists k :: 0 <= k < |h| && h[k].name == "Last-Event-ID") <==> lastEventId.Some? && lastEventId.value != ""
    ensures forall k :: 0 <= k < |h| && h[k].name == "Last-Event-ID" ==> h[k].value == lastEventId.value
  {
    var accept := Header("Accept", EventStreamMimeType);
    assert accept.name != "Last-Event-ID" by {
      assert accept.name[0] != "Last-Event-ID"[0];
    }
    if lastEventId.Some? && lastEventId.value != "" then
      var h := [accept, Header("Last-Event-ID", lastEventId.value)];
      assert h[1].name == "Last-Event-ID";
      h
    else
      [accept]
  }

  // ---------------------------------------------------------------------------
  // The owner's calls

  /** openWithError: only a Closed session opens; it sends a request in a new task and becomes Connecting. */
  function OpenCall(s: Session): Reply {
    if s.readyState != Closed then Reply(Some(InvalidOperationError), s, [])
    else Reply(None, s.(readyState := Connecting, task := s.task + 1, taskActive := true, reconnectAfter := None),
               [SendRequest(s.task + 1, RequestHeaders(s.lastEventId))])
  }

  /** closeWithError: a session that is not Closed drops its request and any scheduled reconnect, without calling the completion handler. */
  function CloseCall(s: Session): Reply {
    if s.readyState == Closed then Reply(Some(InvalidOperationError), s, [])
    else Reply(None, s.(readyState := Closed, taskActive := false, reconnectAfter := None), [])
  }

  // ---------------------------------------------------------------------------
  // The transport and the timer

  /** A fatal rejection of the response: Closed, the completion handler called with `error`, no reconnect. */
  function Reject(s: Session, error: ErrorCode): Stepped {
    Stepped(s.(readyState := Closed, taskActive := false, reconnectAfter := None), [Complete(error)])
  }

  function IsSuccessStatus(status: int): bool {
    200 <= status < 300
  }

  /** The response to the request in flight: 404, any other non-2xx status and a wrong content type are fatal; otherwise the stream opens afresh. */
  function ReceiveResponse(s: Session, status: int, mimeType: Option<string>): Stepped {
    if status == 404 then Reject(s, ResourceNotFoundError)
    else if !IsSuccessStatus(status) then Reject(s, UnknownError)
    else if mimeType != Some(EventStreamMimeType) then Reject(s, IncorrectResponseContentTypeError)
    else Stepped(s.(readyState := Open, splitter := Fresh, buffers := EventAccumulation.Initial), [])
  }

  /** What the session makes of the accumulator's calls: the last event id, the retry interval and the events to hand on. */
  datatype Applied = Applied(lastEventId: Option<string>, retryInterval: nat, outputs: seq<Output>)

  /** The session as the accumulator's delegate: each event goes to the handler and its id, if any, becomes the last event id; each retry interval replaces the current one. */
  function ApplyCalls(lastEventId: Option<string>, retryInterval: nat, calls: seq<DelegateCall>): Applied
    decreases |calls|
  {
    if calls == [] then Applied(lastEventId, retryInterval, [])
    else
      var prev := ApplyCalls(lastEventId, retryInterval, calls[..|calls| - 1]);
      match calls[|calls| - 1]
      case DidReceiveEvent(e) =>
        Applied(if e.id.Some? then e.id else prev.lastEventId, prev.retryInterval, prev.outputs + [HandleEvent(e)])
      case DidReceiveRetryInterval(ms) =>
        Applied(prev.lastEventId, ms, prev.outputs)
  }

  /** A chunk of the body: split into lines, accumulated into calls, applied. */
  function ReceiveChunk(s: Session, chunk: bytes): Stepped {
    var fed := Run(s.splitter, chunk);
    var acc := ProcessLines(s.buffers, fed.lines);
    var applied := ApplyCalls(s.lastEventId, s.retryInterval, acc.calls);
    Stepped(s.(splitter := fed.after, buffers := acc.buffers, lastEventId := applied.lastEventId,
               retryInterval := applied.retryInterval), applied.outputs)
  }

  /** `ReceiveChunk`, given what each stage makes of the chunk. */
  lemma ChunkReceived(s: Session, chunk: bytes, fed: Fed, acc: Accumulated, applied: Applied)
    requires Run(s.splitter, chunk) == fed && ProcessLines(s.buffers, fed.lines) == acc
    requires ApplyCalls(s.lastEventId, s.retryInterval, acc.calls) == applied
    ensures ReceiveChunk(s, chunk)
         == Stepped(s.(splitter := fed.after, buffers := acc.buffers, lastEventId := applied.lastEventId,
                       retryInterval := applied.retryInterval), applied.outputs)
  {
  }

  /** The end of the body or a network failure: stay Connecting and schedule a reconnect after the current retry interval. */
  function ScheduleReconnect(s: Session): Stepped {
    Stepped(s.(readyState := Connecting, taskActive := false, reconnectAfter := Some(s.retryInterval)), [])
  }

  /**
   * A delivery from the transport task numbered `fromTask`. A delivery from any task but the
   * outstanding one (a cancelled or replaced request) is ignored.
   */
  function Deliver(s: Session, fromTask: nat, e: TransportEvent): Stepped {
    if !s.taskActive || fromTask != s.task then Stepped(s, [])
    else
      match e
      case Response(status, mimeType) =>
        if s.readyState == Connecting then ReceiveResponse(s, status, mimeType) else Stepped(s, [])
      case Chunk(chunk) =>
        if s.readyState == Open then ReceiveChunk(s, chunk) else Stepped(s, [])
      case Finished => ScheduleReconnect(s)
      case Failed => ScheduleReconnect(s)
  }

  /** The reconnect timer: a scheduled reconnect sends the request again in a new task, with the current last event id. */
  function TimerFires(s: Session): Stepped {
    if s.reconnectAfter.None? then Stepped(s, [])
    else Stepped(s.(task := s.task + 1, taskActive := true, reconnectAfter := None),
                 [SendRequest(s.task + 1, RequestHeaders(s.lastEventId))])
  }

  // ---------------------------------------------------------------------------
  // Histories

  datatype Action =
    | Opens
    | Closes
    | Delivers(fromTask: nat, event: TransportEvent)
    | TimerExpires

  function Apply(s: Session, a: Action): Stepped {
    match a
    case Opens => Stepped(OpenCall(s).after, OpenCall(s).outputs)
    case Closes => Stepped(CloseCall(s).after, CloseCall(s).outputs)
    case Delivers(t, e) => Deliver(s, t, e)
    case TimerExpires => TimerFires(s)
  }

  /** The actions in order, from `s`, each taken by `step`; the outputs are concatenated. */
  function Replay(step: (Session, Action) -> Stepped, s: Session, actions: seq<Action>): Stepped
    decreases |actions|
  {
    if actions == [] then Stepped(s, [])
    else
      var prev := Replay(step, s, actions[..|actions| - 1]);
      var last := step(prev.after, actions[|actions| - 1]);
      Stepped(last.after, prev.outputs + last.outputs)
  }

  /** The session's history: the actions in order, from `s`. */
  function Perform(s: Session, actions: seq<Action>): Stepped {
    Replay(Apply, s, actions)
  }

  /** The events handed to the event handler, in order. */
  function Handled(outputs: seq<Output>): seq<Event>
    decreases |outputs|
  {
    if outputs == [] then []
    else
      var last := outputs[|outputs| - 1];
      Handled(outputs[..|outputs| - 1]) + if last.HandleEvent? then [last.event] else []
  }

  /** The id of the last of `events` that has one, or `initial` when none has. */
  function LatestId(initial: Option<string>, events: seq<Event>): Option<string>
    decreases |events|
  {
    if events == [] then initial
    else if events[|events| - 1].id.Some? then events[|events| - 1].id
    else LatestId(initial, events[..|events| - 1])
  }

  /** The events among the accumulator's calls, in order. */
  function EventsIn(calls: seq<DelegateCall>): seq<Event>
    decreases |calls|
  {
    if calls == [] then []
    else
      var last := calls[|calls| - 1];
      EventsIn(calls[..|calls| - 1]) + if last.DidReceiveEvent? then [last.event] else []
  }

  /** The last retry interval among the accumulator's calls, or `initial` when there is none. */
  function LatestRetry(initial: nat, calls: seq<DelegateCall>): nat
    decreases |calls|
  {
    if calls == [] then initial
    else if calls[|calls| - 1].DidReceiveRetryInterval? then calls[|calls| - 1].milliseconds
    else LatestRetry(initial, calls[..|calls| - 1])
  }

  // ---------------------------------------------------------------------------
  // Properties of one call

  /** openWithError succeeds exactly from Closed, sending one request; otherwise it reports InvalidOperationError and changes nothing. */
  lemma OpenOutcome(s: Session)
    ensures OpenCall(s).error.None? <==> s.readyState == Closed
    ensures OpenCall(s).error.Some? ==> OpenCall(s) == Reply(Some(InvalidOperationError), s, [])
    ensures OpenCall(s).error.None? ==>
              && OpenCall(s).after.readyState == Connecting && OpenCall(s).after.taskActive
              && OpenCall(s).after.task == s.task + 1
              && OpenCall(s).outputs == [SendRequest(s.task + 1, RequestHeaders(s.lastEventId))]
              && OpenCall(s).after.lastEventId == s.lastEventId && OpenCall(s).after.retryInterval == s.retryInterval
  {
  }

  /** closeWithError fails exactly from Closed; otherwise the session is Closed with nothing outstanding and no handler is called. */
  lemma CloseOutcome(s: Session)
    requires Consistent(s)
    ensures CloseCall(s).error.None? <==> s.readyState != Closed
    ensures CloseCall(s).error.Some? ==> CloseCall(s) == Reply(Some(InvalidOperationError), s, [])
    ensures CloseCall(s).outputs == []
    ensures CloseCall(s).after.readyState == Closed && !CloseCall(s).after.taskActive && CloseCall(s).after.reconnectAfter.None?
    ensures CloseCall(s).after.lastEventId == s.lastEventId && CloseCall(s).after.retryInterval == s.retryInterval
  {
  }

  /** Closing twice in a row: the first close succeeds and the second reports InvalidOperationError. */
  lemma CloseTwice(s: Session)
    requires s.readyState != Closed
    ensures CloseCall(s).error == None
    ensures CloseCall(CloseCall(s).after).error == Some(InvalidOperationError)
  {
  }

  /** A rejected response is fatal: Closed, exactly one completion with the matching error, and no reconnect scheduled. */
  lemma RejectedResponse(s: Session, status: int, mimeType: Option<string>)
    requires s.taskActive && s.readyState == Connecting
    requires status == 404 || !IsSuccessStatus(status) || mimeType != Some(EventStreamMimeType)
    ensures var r := Deliver(s, s.task, Response(status, mimeType));
            && r.after.readyState == Closed && !r.after.taskActive && r.after.reconnectAfter.None?
            && r.outputs == [Complete(if status == 404 then ResourceNotFoundError
                                      else if !IsSuccessStatus(status) then UnknownError
                                      else IncorrectResponseContentTypeError)]
            && TimerFires(r.after) == Stepped(r.after, [])
  {
  }

  /** An accepted response opens the stream with an empty line accumulator and empty event buffers, calling no handler. */
  lemma AcceptedResponse(s: Session, status: int)
    requires s.taskActive && s.readyState == Connecting
    requires IsSuccessStatus(status) && status != 404
    ensures Deliver(s, s.task, Response(status, Some(EventStreamMimeType)))
         == Stepped(s.(readyState := Open, splitter := Fresh, buffers := EventAccumulation.Initial), [])
  {
  }

  /**
   * The end of the body, or a failure, while a request is outstanding schedules a reconnect after the
   * current retry interval and calls no handler; the last event id and retry interval are kept.
   */
  lemma EndOfStreamReconnects(s: Session, e: TransportEvent)
    requires s.taskActive && (e == Finished || e == Failed)
    ensures var r := Deliver(s, s.task, e);
            && r.outputs == []
            && r.after.readyState == Connecting && !r.after.taskActive
            && r.after.reconnectAfter == Some(s.retryInterval)
            && r.after.lastEventId == s.lastEventId && r.after.retryInterval == s.retryInterval
  {
  }

  /** After the end of the body, the reconnect request carries `Last-Event-ID` with the last event id. */
  lemma ReconnectCarriesLastEventId(s: Session, id: string)
    requires s.taskActive && s.lastEventId == Some(id) && id != ""
    ensures var r := Perform(s, [Delivers(s.task, Finished), TimerExpires]);
            && r.outputs == [SendRequest(s.task + 1, RequestHeaders(Some(id)))]
            && Header("Last-Event-ID", id) in RequestHeaders(Some(id))
            && r.after.readyState == Connecting && r.after.taskActive
  {
    var h := RequestHeaders(Some(id));
    assert h[1] == Header("Last-Event-ID", id);
    var actions := [Delivers(s.task, Finished), TimerExpires];
    var s1 := ScheduleReconnect(s).after;
    assert Perform(s, actions[..1]) == Stepped(s1, []) by {
      assert actions[..1] == [Delivers(s.task, Finished)] && actions[..1][..0] == [];
      assert Replay(Apply, s, []) == Stepped(s, []);
    }
    assert TimerFires(s1) == Stepped(s1.(task := s.task + 1, taskActive := true, reconnectAfter := None),
                                     [SendRequest(s.task + 1, h)]);
  }

  /** A delivery from a task that is not the outstanding one changes nothing and calls no handler. */
  lemma StaleDeliveryIgnored(s: Session, fromTask: nat, e: TransportEvent)
    requires !s.taskActive || fromTask != s.task
    ensures Deliver(s, fromTask, e) == Stepped(s, [])
  {
  }

  /**
   * A request that was replaced, by close and open or by a reconnect, can deliver nothing more:
   * the new request runs in a new task, and a late delivery from the old one changes nothing.
   */
  lemma ReplacedTaskIgnored(s: Session, e: TransportEvent, failure: TransportEvent)
    requires Consistent(s) && s.taskActive && (failure == Finished || failure == Failed)
    ensures var reopened := OpenCall(CloseCall(s).after).after;
            && reopened.taskActive && reopened.task == s.task + 1
            && Deliver(reopened, s.task, e) == Stepped(reopened, [])
    ensures var reconnected := TimerFires(Deliver(s, s.task, failure).after).after;
            && reconnected.taskActive && reconnected.task == s.task + 1
            && Deliver(reconnected, s.task, e) == Stepped(reconnected, [])
  {
  }

  /** Only a chunk of the body can change the last event id or the retry interval; they survive close, reopen and reconnect. */
  lemma OnlyChunksChangeIdAndRetry(s: Session, a: Action)
    requires !(a.Delivers? && a.event.Chunk?)
    ensures Apply(s, a).after.lastEventId == s.lastEventId
    ensures Apply(s, a).after.retryInterval == s.retryInterval
  {
  }

  // ---------------------------------------------------------------------------
  // The delegate calls

  lemma {:induction false} HandledAppend(o1: seq<Output>, o2: seq<Output>)
    ensures Handled(o1 + o2) == Handled(o1) + Handled(o2)
    decreases |o2|
  {
    if o2 == [] {
      assert o1 + o2 == o1;
    } else {
      var init := o2[..|o2| - 1];
      HandledAppend(o1, init);
      assert (o1 + o2)[..|o1 + o2| - 1] == o1 + init;
    }
  }

  lemma {:induction false} LatestIdAppend(initial: Option<string>, e1: seq<Event>, e2: seq<Event>)
    ensures LatestId(initial, e1 + e2) == LatestId(LatestId(initial, e1), e2)
    decreases |e2|
  {
    if e2 == [] {
      assert e1 + e2 == e1;
    } else {
      var init := e2[..|e2| - 1];
      LatestIdAppend(initial, e1, init);
      assert (e1 + e2)[..|e1 + e2| - 1] == e1 + init;
    }
  }

  /** Applying the accumulator's calls hands the handler exactly the events, in order, and nothing else. */
  lemma {:induction false} ApplyCallsOutputs(lastEventId: Option<string>, retryInterval: nat, calls: seq<DelegateCall>)
    ensures var r := ApplyCalls(lastEventId, retryInterval, calls);
            && Handled(r.outputs) == EventsIn(calls)
            && (forall k :: 0 <= k < |r.outputs| ==> r.outputs[k].HandleEvent?)
    decreases |calls|
  {
    if calls != [] {
      var init := calls[..|calls| - 1];
      ApplyCallsOutputs(lastEventId, retryInterval, init);
      var prev := ApplyCalls(lastEventId, retryInterval, init);
      var last := calls[|calls| - 1];
      if last.DidReceiveEvent? {
        var o := prev.outputs + [HandleEvent(last.event)];
        assert o[..|o| - 1] == prev.outputs;
        assert Handled(o) == Handled(prev.outputs) + [last.event];
        assert EventsIn(calls) == EventsIn(init) + [last.event];
      } else {
        assert EventsIn(calls) == EventsIn(init) + [];
      }
    }
  }

  /**
   * Applying the accumulator's calls: the last event id is the id of the last event that has one,
   * and the retry interval is the last one reported.
   */
  lemma {:induction false} ApplyCallsMeaning(lastEventId: Option<string>, retryInterval: nat, calls: seq<DelegateCall>)
    ensures var r := ApplyCalls(lastEventId, retryInterval, calls);
            && r.lastEventId == LatestId(lastEventId, EventsIn(calls))
            && r.retryInterval == LatestRetry(retryInterval, calls)
    decreases |calls|
  {
    if calls != [] {
      var init := calls[..|calls| - 1];
      ApplyCallsMeaning(lastEventId, retryInterval, init);
      var last := calls[|calls| - 1];
      if last.DidReceiveEvent? {
        var es := EventsIn(init) + [last.event];
        assert EventsIn(calls) == es;
        assert es[..|es| - 1] == EventsIn(init);
      } else {
        assert EventsIn(calls) == EventsIn(init) + [];
        assert EventsIn(init) + [] == EventsIn(init);
      }
    }
  }

  /** Every step moves the last event id to the id of the last handled event that has one, and nowhere else. */
  lemma ApplyTracksLatestId(s: Session, a: Action)
    ensures Apply(s, a).after.lastEventId == LatestId(s.lastEventId, Handled(Apply(s, a).outputs))
  {
    var r := Apply(s, a);
    if a.Delivers? && a.event.Chunk? && s.taskActive && a.fromTask == s.task && s.readyState == Open {
      var fed := Run(s.splitter, a.event.chunk);
      var acc := ProcessLines(s.buffers, fed.lines);
      ApplyCallsOutputs(s.lastEventId, s.retryInterval, acc.calls);
      ApplyCallsMeaning(s.lastEventId, s.retryInterval, acc.calls);
    } else {
      assert forall k :: 0 <= k < |r.outputs| ==> !r.outputs[k].HandleEvent?;
      NoHandled(r.outputs);
    }
  }

  lemma {:induction false} NoHandled(outputs: seq<Output>)
    requires forall k :: 0 <= k < |outputs| ==> !outputs[k].HandleEvent?
    ensures Handled(outputs) == []
    decreases |outputs|
  {
    if outputs != [] {
      NoHandled(outputs[..|outputs| - 1]);
    }
  }

  // ---------------------------------------------------------------------------
  // Properties of histories

  /**
   * Over any history, the last event id is the id of the last handled event that carried one, or the
   * starting id when none did: it changes only when such an event is dispatched, and survives
   * disconnection and reconnection.
   */
  lemma {:induction false} LastEventIdHistory(s: Session, actions: seq<Action>)
    ensures Perform(s, actions).after.lastEventId == LatestId(s.lastEventId, Handled(Perform(s, actions).outputs))
    decreases |actions|
  {
    if actions != [] {
      var prev := Perform(s, actions[..|actions| - 1]);
      var last := Apply(prev.after, actions[|actions| - 1]);
      LastEventIdHistory(s, actions[..|actions| - 1]);
      ApplyTracksLatestId(prev.after, actions[|actions| - 1]);
      HandledAppend(prev.outputs, last.outputs);
      LatestIdAppend(s.lastEventId, Handled(prev.outputs), Handled(last.outputs));
    }
  }

  lemma ApplyKeepsConsistent(s: Session, a: Action)
    requires Consistent(s)
    ensures Consistent(Apply(s, a).after)
  {
    if a.Delivers? && a.event.Chunk? && s.taskActive && a.fromTask == s.task && s.readyState == Open {
      var fed := Run(s.splitter, a.event.chunk);
      ProcessLinesKeepsWellformed(s.buffers, fed.lines);
    }
  }

  /** Every history keeps the session consistent. */
  lemma {:induction false} PerformKeepsConsistent(s: Session, actions: seq<Action>)
    requires Consistent(s)
    ensures Consistent(Perform(s, actions).after)
    decreases |actions|
  {
    if actions != [] {
      PerformKeepsConsistent(s, actions[..|actions| - 1]);
      ApplyKeepsConsistent(Perform(s, actions[..|actions| - 1]).after, actions[|actions| - 1]);
    }
  }

  /**
   * Once Closed, nothing happens until the owner opens again: deliveries of the cancelled request,
   * timer expiries and further closes change no state and call no handler.
   */
  lemma {:induction false} QuietWhileClosed(s: Session, actions: seq<Action>)
    requires Consistent(s) && s.readyState == Closed
    requires forall k :: 0 <= k < |actions| ==> actions[k] != Opens
    ensures Perform(s, actions) == Stepped(s, [])
    decreases |actions|
  {
    if actions != [] {
      QuietWhileClosed(s, actions[..|actions| - 1]);
    }
  }

  /** After a successful close, no event handler, completion handler or request follows until the next open. */
  lemma NothingAfterClose(s: Session, actions: seq<Action>)
    requires Consistent(s) && s.readyState != Closed
    requires forall k :: 0 <= k < |actions| ==> actions[k] != Opens
    ensures Perform(CloseCall(s).after, actions).outputs == []
  {
    QuietWhileClosed(CloseCall(s).after, actions);
  }

  /** One action other than open: a completion is its only output, carries a fatal error, and leaves the session Closed. */
  lemma StepCompletion(s: Session, a: Action)
    requires a != Opens
    ensures var r := Apply(s, a);
            forall k :: 0 <= k < |r.outputs| && r.outputs[k].Complete? ==>
              && r.outputs == [r.outputs[k]]
              && r.outputs[k].error != InvalidOperationError
              && r.after.readyState == Closed
  {
    if a.Delivers? && a.event.Chunk? && s.taskActive && a.fromTask == s.task && s.readyState == Open {
      var fed := Run(s.splitter, a.event.chunk);
      ApplyCallsOutputs(s.lastEventId, s.retryInterval, ProcessLines(s.buffers, fed.lines).calls);
    }
  }

  /**
   * Between one open and the next, the completion handler is called at most once, only with a
   * fatal error, and last: once it has been called the session is Closed and does nothing more.
   */
  lemma {:induction false} CompletionAtMostOnce(s: Session, actions: seq<Action>)
    requires Consistent(s)
    requires forall k :: 0 <= k < |actions| ==> actions[k] != Opens
    ensures var r := Perform(s, actions);
            forall k :: 0 <= k < |r.outputs| && r.outputs[k].Complete? ==>
              && k == |r.outputs| - 1
              && r.outputs[k].error != InvalidOperationError
              && r.after.readyState == Closed
    decreases |actions|
  {
    if actions != [] {
      var init := actions[..|actions| - 1];
      var a := actions[|actions| - 1];
      var prev := Perform(s, init);
      var last := Apply(prev.after, a);
      var o := prev.outputs + last.outputs;
      assert Perform(s, actions) == Stepped(last.after, o);
      CompletionAtMostOnce(s, init);
      PerformKeepsConsistent(s, init);
      StepCompletion(prev.after, a);
      if exists k :: 0 <= k < |prev.outputs| && prev.outputs[k].Complete? {
        assert last == Stepped(prev.after, []);
        assert o == prev.outputs;
      } else {
        forall k | 0 <= k < |o| && o[k].Complete?
          ensures k == |o| - 1 && o[k].error != InvalidOperationError && last.after.readyState == Closed
        {
          assert o[k] == last.outputs[k - |prev.outputs|];
        }
      }
    }
  }

  function Flatten(outs: seq<seq<Output>>): seq<Output>
    decreases |outs|
  {
    if outs == [] then [] else Flatten(outs[..|outs| - 1]) + outs[|outs| - 1]
  }

  /** A history walked state by state: if each action takes `states[i]` to `states[i + 1]`, the whole history ends in the last state with all the outputs in order. */
  lemma {:induction false} ReplayChain(step: (Session, Action) -> Stepped, states: seq<Session>, actions: seq<Action>, outs: seq<seq<Output>>)
    requires |states| == |actions| + 1 && |outs| == |actions|
    requires forall i :: 0 <= i < |actions| ==> step(states[i], actions[i]) == Stepped(states[i + 1], outs[i])
    ensures Replay(step, states[0], actions) == Stepped(states[|actions|], Flatten(outs))
    decreases |actions|
  {
    if actions != [] {
      var n := |actions|;
      ReplayChain(step, states[..n], actions[..n - 1], outs[..n - 1]);
      assert outs[..n - 1] == outs[..n][..n - 1];
    }
  }

  /** Text that can stand on one line of the stream. */
  predicate OnOneLine(t: string) {
    '\r' !in t && '\n' !in t
  }

  /** A chunk holding the lines `id: <id>`, `data: <data>` and a blank line. */
  function EventChunk(id: string, data: string): bytes {
    LFTerminated([FieldLine("id", id), FieldLine("data", data), []])
  }

  lemma EventChunkLines(id: string, data: string)
    requires OnOneLine(id) && OnOneLine(data)
    ensures Run(Fresh, EventChunk(id, data)) == Fed([FieldLine("id", id), FieldLine("data", data), []], Fresh)
  {
    var lines := [FieldLine("id", id), FieldLine("data", data), []];
    Utf8.EncodeKeepsLineBreaksOut("id: " + id);
    Utf8.EncodeKeepsLineBreaksOut("data: " + data);
    assert "id" + ": " + id == "id: " + id && "data" + ": " + data == "data: " + data;
    assert NoTerminator(lines[0]) && NoTerminator(lines[1]) && NoTerminator(lines[2]);
    LFTerminatedLines(lines);
  }

  lemma IdLineStep(b: Buffers, id: string)
    requires b.state == AccumulatorState.Normal && '\0' !in id
    ensures ProcessLine(b, FieldLine("id", id)) == Accumulated(b.(id := Some(id)), [])
  {
    IdField(b, id);
  }

  lemma DataLineStep(b: Buffers, data: string)
    requires b.state == AccumulatorState.Normal && b.data == "" && |data| + 1 <= MaxDataLength
    ensures ProcessLine(b, FieldLine("data", data)) == Accumulated(b.(data := data + "\n"), [])
  {
    DataField(b, data);
    EmptyPrefix(b.data, data);
  }

  lemma EmptyPrefix<T>(a: seq<T>, b: seq<T>)
    requires a == []
    ensures a + b == b
  {
  }

  lemma BlankLineStep(b: Buffers, data: string)
    requires b.state == AccumulatorState.Normal && b.data == data + "\n"
    ensures ProcessLine(b, []) == Accumulated(EventAccumulation.Initial, [DidReceiveEvent(Event(b.eventType, data, b.id))])
  {
    BlankLineResets(b);
    assert (data + "\n")[..|data|] == data;
  }

  lemma EventChunkCalls(id: string, data: string)
    requires '\0' !in id && |data| + 1 <= MaxDataLength
    ensures ProcessLines(EventAccumulation.Initial, [FieldLine("id", id), FieldLine("data", data), []])
         == Accumulated(EventAccumulation.Initial, [DidReceiveEvent(Event(None, data, Some(id)))])
  {
    var b1 := EventAccumulation.Initial.(id := Some(id));
    var b2 := b1.(data := data + "\n");
    IdLineStep(EventAccumulation.Initial, id);
    DataLineStep(b1, data);
    BlankLineStep(b2, data);
    FoldThree(ProcessLine, EventAccumulation.Initial, FieldLine("id", id), FieldLine("data", data), [],
              Accumulated(b1, []), Accumulated(b2, []),
              Accumulated(EventAccumulation.Initial, [DidReceiveEvent(Event(None, data, Some(id)))]));
  }

  /** An open stream with nothing pending, given a chunk that completes exactly one event with an id, hands that event on and takes its id as the last event id. */
  lemma OneEventChunkDelivered(s: Session, chunk: bytes, lines: seq<bytes>, event: Event)
    requires Run(Fresh, chunk) == Fed(lines, Fresh)
    requires ProcessLines(EventAccumulation.Initial, lines) == Accumulated(EventAccumulation.Initial, [DidReceiveEvent(event)])
    requires event.id.Some?
    requires s.taskActive && s.readyState == Open && s.splitter == Fresh && s.buffers == EventAccumulation.Initial
    ensures Deliver(s, s.task, Chunk(chunk)) == Stepped(s.(lastEventId := event.id), [HandleEvent(event)])
  {
    assert ApplyCalls(s.lastEventId, s.retryInterval, [DidReceiveEvent(event)])
        == Applied(event.id, s.retryInterval, [HandleEvent(event)]) by {
      assert [DidReceiveEvent(event)][..0] == [];
    }
  }

  /** The session of `StreamScenario` after each of its actions. */
  function ScenarioState(id: string, n: nat): Session {
    var s1 := Created.(readyState := Connecting, task := 1, taskActive := true);
    var s2 := s1.(readyState := Open);
    var s3 := s2.(lastEventId := Some(id));
    var s4 := s3.(readyState := Connecting, taskActive := false, reconnectAfter := Some(DefaultRetryInterval));
    var s5 := s4.(task := 2, taskActive := true, reconnectAfter := None);
    if n == 0 then Created else if n == 1 then s1 else if n == 2 then s2 else if n == 3 then s3 else if n == 4 then s4 else s5
  }

  lemma ScenarioConnects(id: string)
    ensures Apply(Created, Opens) == Stepped(ScenarioState(id, 1), [SendRequest(1, RequestHeaders(None))])
    ensures Apply(ScenarioState(id, 1), Delivers(1, Response(200, Some(EventStreamMimeType)))) == Stepped(ScenarioState(id, 2), [])
  {
  }

  lemma ScenarioReconnects(id: string)
    ensures Apply(ScenarioState(id, 3), Delivers(1, Finished)) == Stepped(ScenarioState(id, 4), [])
    ensures Apply(ScenarioState(id, 4), TimerExpires) == Stepped(ScenarioState(id, 5), [SendRequest(2, RequestHeaders(Some(id)))])
  {
  }

  /**
   * One short session: open, an accepted response, a chunk with one event carrying an id, the end
   * of the body, the reconnect timer. The handler gets the one event, and the reconnect request
   * carries `Last-Event-ID` with that id.
   */
  lemma StreamScenario(id: string, data: string)
    requires OnOneLine(id) && OnOneLine(data) && '\0' !in id && id != "" && |data| + 1 <= MaxDataLength
    ensures var actions := [Opens, Delivers(1, Response(200, Some(EventStreamMimeType))), Delivers(1, Chunk(EventChunk(id, data))),
                            Delivers(1, Finished), TimerExpires];
            && Perform(Created, actions).outputs
               == [SendRequest(1, [Header("Accept", EventStreamMimeType)]),
                   HandleEvent(Event(None, data, Some(id))),
                   SendRequest(2, [Header("Accept", EventStreamMimeType), Header("Last-Event-ID", id)])]
            && Perform(Created, actions).after.lastEventId == Some(id)
  {
    var event := Event(None, data, Some(id));
    var a1, a2, a3, a4, a5 := Opens, Delivers(1, Response(200, Some(EventStreamMimeType))), Delivers(1, Chunk(EventChunk(id, data))),
                              Delivers(1, Finished), TimerExpires;
    var o1 := [SendRequest(1, RequestHeaders(None))];
    var o5 := [SendRequest(2, RequestHeaders(Some(id)))];
    var states := seq(6, n requires 0 <= n < 6 => ScenarioState(id, n));
    var actions := [a1, a2, a3, a4, a5];
    var outs := [o1, [], [HandleEvent(event)], [], o5];
    forall i | 0 <= i < 5
      ensures Apply(states[i], actions[i]) == Stepped(states[i + 1], outs[i])
    {
      if i == 0 || i == 1 {
        ScenarioConnects(id);
      } else if i == 2 {
        EventChunkLines(id, data);
        EventChunkCalls(id, data);
        OneEventChunkDelivered(ScenarioState(id, 2), EventChunk(id, data), [FieldLine("id", id), FieldLine("data", data), []], event);
        assert ScenarioState(id, 2).(lastEventId := Some(id)) == ScenarioState(id, 3);
      } else {
        ScenarioReconnects(id);
      }
    }
    ReplayChain(Apply, states, actions, outs);
    ExampleFlatten(o1, [HandleEvent(event)], o5);
    assert RequestHeaders(None) == [Header("Accept", EventStreamMimeType)];
    assert RequestHeaders(Some(id)) == [Header("Accept", EventStreamMimeType), Header("Last-Event-ID", id)];
  }

  lemma ExampleFlatten(o1: seq<Output>, o3: seq<Output>, o5: seq<Output>)
    ensures Flatten([o1, [], o3, [], o5]) == o1 + o3 + o5
  {
    var outs := [o1, [], o3, [], o5];
    assert outs[..1][..0] == [] && [] + o1 == o1;
    assert Flatten(outs[..1]) == o1;
    assert outs[..2][..1] == outs[..1] && o1 + [] == o1;
    assert Flatten(outs[..2]) == o1;
    assert outs[..3][..2] == outs[..2];
    assert Flatten(outs[..3]) == o1 + o3;
    assert outs[..4][..3] == outs[..3] && o1 + o3 + [] == o1 + o3;
    assert Flatten(outs[..4]) == o1 + o3;
    assert outs[..4] == outs[..|outs| - 1];
  }

  // ---------------------------------------------------------------------------
  // The session object

  class EventSource {
    var readyState: ReadyState
    var lastEventId: Option<string>
    var retryInterval: nat
    /** The number of the latest transport task, and whether that task is still outstanding. */
    var task: nat
    var taskActive: bool
    /** The delay of the scheduled reconnect, if one is scheduled. */
    var reconnectAfter: Option<nat>
    var lineAccumulator: LineAccumulator
    var eventAccumulator: EventAccumulator
    /** The objects the session is made of: itself and its two accumulators. */
    ghost var Repr: set<object>

    /** The session's state as the pure model sees it. */
    ghost function Model(): Session
      reads this, lineAccumulator, eventAccumulator
    {
      Session(readyState, lastEventId, retryInterval, task, taskActive, reconnectAfter,
              Splitter(lineAccumulator.data, lineAccumulator.state), eventAccumulator.Snapshot())
    }

    ghost predicate Valid()
      reads this, Repr
    {
      && Repr == {this, lineAccumulator, eventAccumulator}
      && lineAccumulator.Valid() && eventAccumulator.hasDelegate && Consistent(Model())
    }

    /** initWithURL:...: Closed, no last event id, the default retry interval. */
    constructor ()
      ensures Valid() && fresh(Repr) && Model() == Created
    {
      readyState := Closed;
      lastEventId := None;
      retryInterval := DefaultRetryInterval;
      task := 0;
      taskActive := false;
      reconnectAfter := None;
      lineAccumulator := new LineAccumulator();
      eventAccumulator := new EventAccumulator(true);
      Repr := {this, lineAccumulator, eventAccumulator};
    }

    /** openWithError: YES exactly when the session was Closed; the request sent is among the outputs. */
    method OpenWithError() returns (ok: bool, error: Option<ErrorCode>, outputs: seq<Output>)
      requires Valid()
      modifies this
      ensures Valid() && Repr == old(Repr)
      ensures ok == error.None? && OpenCall(old(Model())) == Reply(error, Model(), outputs)
    {
      if readyState != Closed {
        return false, Some(InvalidOperationError), [];
      }
      task := task + 1;
      outputs := [SendRequest(task, RequestHeaders(lastEventId))];
      readyState, taskActive, reconnectAfter := Connecting, true, None;
      ok, error := true, None;
    }

    /** open: openWithError with the error dropped. */
    method Open() returns (outputs: seq<Output>)
      requires Valid()
      modifies this
      ensures Valid() && Repr == old(Repr)
      ensures OpenCall(old(Model())).after == Model() && OpenCall(old(Model())).outputs == outputs
    {
      var ok, error;
      ok, error, outputs := OpenWithError();
    }

    /** closeWithError: YES exactly when the session was not Closed; the request and any scheduled reconnect are dropped. */
    method CloseWithError() returns (ok: bool, error: Option<ErrorCode>)
      requires Valid()
      modifies this
      ensures Valid() && Repr == old(Repr)
      ensures ok == error.None? && CloseCall(old(Model())) == Reply(error, Model(), [])
    {
      if readyState == Closed {
        return false, Some(InvalidOperationError);
      }
      readyState, taskActive, reconnectAfter := Closed, false, None;
      ok, error := true, None;
    }

    /** close: closeWithError with the error dropped. */
    method Close()
      requires Valid()
      modifies this
      ensures Valid() && Repr == old(Repr)
      ensures CloseCall(old(Model())).after == Model()
    {
      var ok, error := CloseWithError();
    }

    /** The response of transport task `fromTask`. */
    method DidReceiveResponse(fromTask: nat, status: int, mimeType: Option<string>) returns (outputs: seq<Output>)
      requires Valid()
      modifies this
      ensures Valid() && fresh(Repr - old(Repr))
      ensures Deliver(old(Model()), fromTask, Response(status, mimeType)) == Stepped(Model(), outputs)
    {
      outputs := [];
      if !taskActive || fromTask != task || readyState != Connecting {
        return;
      }
      if status == 404 {
        readyState, taskActive, reconnectAfter := Closed, false, None;
        outputs := [Complete(ResourceNotFoundError)];
      } else if !(200 <= status < 300) {
        readyState, taskActive, reconnectAfter := Closed, false, None;
        outputs := [Complete(UnknownError)];
      } else if mimeType != Some(EventStreamMimeType) {
        readyState, taskActive, reconnectAfter := Closed, false, None;
        outputs := [Complete(IncorrectResponseContentTypeError)];
      } else {
        readyState := ReadyState.Open;
        lineAccumulator := new LineAccumulator();
        eventAccumulator := new EventAccumulator(true);
        Repr := {this, lineAccumulator, eventAccumulator};
      }
    }

    /** A chunk of the body from transport task `fromTask`: lines from the line accumulator, calls from the event accumulator, applied in order. */
    method DidReceiveData(fromTask: nat, chunk: bytes) returns (outputs: seq<Output>)
      requires Valid()
      modifies Repr
      ensures Valid() && Repr == old(Repr)
      ensures lineAccumulator == old(lineAccumulator) && eventAccumulator == old(eventAccumulator)
      ensures Deliver(old(Model()), fromTask, Chunk(chunk)) == Stepped(Model(), outputs)
    {
      outputs := [];
      if !taskActive || fromTask != task || readyState != ReadyState.Open {
        return;
      }
      outputs := AcceptChunk(chunk);
    }

    /** A chunk of the body while the stream is open and its request outstanding. */
    method AcceptChunk(chunk: bytes) returns (outputs: seq<Output>)
      requires Valid() && taskActive && readyState == ReadyState.Open
      modifies this`lastEventId, this`retryInterval, lineAccumulator, eventAccumulator
      ensures Valid()
      ensures ReceiveChunk(old(Model()), chunk) == Stepped(Model(), outputs)
    {
      ghost var start := Model();
      var lines := lineAccumulator.LinesByAccumulatingData(chunk);
      ghost var fed := Fed(lines, Splitter(lineAccumulator.data, lineAccumulator.state));
      var calls := eventAccumulator.AccumulateLines(lines);
      ghost var acc := Accumulated(eventAccumulator.Snapshot(), calls);
      ProcessLinesKeepsWellformed(start.buffers, lines);
      outputs := ApplyDelegateCalls(calls);
      ghost var after := start.(splitter := fed.after, buffers := acc.buffers, lastEventId := lastEventId,
                                retryInterval := retryInterval);
      assert Model() == after;
      ChunkReceived(start, chunk, fed, acc, Applied(lastEventId, retryInterval, outputs));
      assert Consistent(after);
    }

    /** The session as the event accumulator's delegate: hands each event on, and keeps the last event id and the retry interval. */
    method ApplyDelegateCalls(calls: seq<DelegateCall>) returns (outputs: seq<Output>)
      modifies this`lastEventId, this`retryInterval
      ensures Applied(lastEventId, retryInterval, outputs) == ApplyCalls(old(lastEventId), old(retryInterval), calls)
    {
      outputs := [];
      var i := 0;
      while i < |calls|
        invariant 0 <= i <= |calls|
        invariant Applied(lastEventId, retryInterval, outputs) == ApplyCalls(old(lastEventId), old(retryInterval), calls[..i])
      {
        assert calls[..i + 1][..i] == calls[..i];
        match calls[i] {
          case DidReceiveEvent(e) =>
            if e.id.Some? {
              lastEventId := e.id;
            }
            outputs := outputs + [HandleEvent(e)];
          case DidReceiveRetryInterval(ms) =>
            retryInterval := ms;
        }
        i := i + 1;
      }
      assert calls[..i] == calls;
    }

    /** Transport task `fromTask` finished the body (`failed` false) or failed (`failed` true). */
    method DidComplete(fromTask: nat, failed: bool) returns (outputs: seq<Output>)
      requires Valid()
      modifies this
      ensures Valid() && Repr == old(Repr)
      ensures Deliver(old(Model()), fromTask, if failed then Failed else Finished) == Stepped(Model(), outputs)
    {
      outputs := [];
      if !taskActive || fromTask != task {
        return;
      }
      readyState, taskActive, reconnectAfter := Connecting, false, Some(retryInterval);
    }

    /** The reconnect timer fired: the request is sent again, in a new task. */
    method ReconnectTimerFired() returns (outputs: seq<Output>)
      requires Valid()
      modifies this
      ensures Valid() && Repr == old(Repr)
      ensures TimerFires(old(Model())) == Stepped(Model(), outputs)
    {
      outputs := [];
      if reconnectAfter.None? {
        return;
      }
      task := task + 1;
      taskActive, reconnectAfter := true, None;
      outputs := [SendRequest(task, RequestHeaders(lastEventId))];
    }
  }
}
