/**
 The in-process WebSocket: messages that arrive before it is open are queued, and events that
 find no listener are buffered until one is added. Listeners do not re-enter the socket.
 */
module FakeWebSockets {
  datatype ReadyState = Connecting | Open | Closing | Closed

  datatype Event = Event(kind: string, data: string)

  type Listener = nat

  /**
   `received` are the messages the server has sent, `fired` all events, `delivered` those that reached listeners.
   `handlerOpened` says that the awaited `onOpen` has returned, `closing` counts the awaited `onClose` calls.
   */
  datatype Socket = Socket(readyState: ReadyState, queuedMessages: seq<string>, bufferedEvents: seq<Event>,
                           eventListeners: map<string, seq<Listener>>,
                           received: seq<string>, fired: seq<Event>, delivered: seq<Event>,
                           handlerOpened: bool, closing: nat)
  {
    predicate HasListener(kind: string) {
      kind in eventListeners && |eventListeners[kind]| > 0
    }
  }

  const NEW_SOCKET := Socket(Connecting, [], [], map[], [], [], [], false, 0)

  function OfKind(events: seq<Event>, kind: string): seq<Event>
    decreases |events|
  {
    if events == [] then []
    else
      var last := events[|events| - 1];
      OfKind(events[..|events| - 1], kind) + if last.kind == kind then [last] else []
  }

  function NotOfKind(events: seq<Event>, kind: string): seq<Event>
    decreases |events|
  {
    if events == [] then []
    else
      var last := events[|events| - 1];
      NotOfKind(events[..|events| - 1], kind) + if last.kind != kind then [last] else []
  }

  function ListenersOf(s: Socket, kind: string): seq<Listener> {
    if kind in s.eventListeners then s.eventListeners[kind] else []
  }

  function Dispatch(s: Socket, e: Event): Socket {
    if s.HasListener(e.kind) then s.(delivered := s.delivered + [e])
    else s.(bufferedEvents := s.bufferedEvents + [e])
  }

  /** A new event is dispatched. */
  function Fire(s: Socket, e: Event): Socket {
    Dispatch(s.(fired := s.fired + [e]), e)
  }

  /** `#handleMessage`; a message that was queued comes here a second time. */
  function HandleMessage(s: Socket, data: string): Socket {
    if s.readyState.Open? then Fire(s, Event("message", data)) else s.(queuedMessages := s.queuedMessages + [data])
  }

  function Receive(s: Socket, data: string): Socket {
    HandleMessage(s.(received := s.received + [data]), data)
  }

  function HandleAll(s: Socket, messages: seq<string>): Socket
    decreases |messages|
  {
    if messages == [] then s else HandleMessage(HandleAll(s, messages[..|messages| - 1]), messages[|messages| - 1])
  }

  /** `#initialize` after the handler has opened: whatever the state was, it becomes open. */
  function Initialized(s: Socket): Socket {
    var justOpen := Fire(s.(readyState := Open, handlerOpened := true), Event("open", ""));
    HandleAll(justOpen.(queuedMessages := []), justOpen.queuedMessages)
  }

  function DispatchAll(s: Socket, events: seq<Event>): Socket
    decreases |events|
  {
    if events == [] then s else Dispatch(DispatchAll(s, events[..|events| - 1]), events[|events| - 1])
  }

  function AddListener(s: Socket, kind: string, listener: Listener): Socket {
    var listeners := (if kind in s.eventListeners then s.eventListeners[kind] else []) + [listener];
    var added := s.(eventListeners := s.eventListeners[kind := listeners]);
    DispatchAll(added.(bufferedEvents := NotOfKind(s.bufferedEvents, kind)), OfKind(s.bufferedEvents, kind))
  }

  /** `listeners.splice(listeners.indexOf(listener), 1)` */
  function WithoutFirst(listeners: seq<Listener>, listener: Listener): seq<Listener> {
    if listeners == [] then []
    else if listeners[0] == listener then listeners[1..]
    else [listeners[0]] + WithoutFirst(listeners[1..], listener)
  }

  function RemoveListener(s: Socket, kind: string, listener: Listener): Socket {
    if kind !in s.eventListeners then s
    else s.(eventListeners := s.eventListeners[kind := WithoutFirst(s.eventListeners[kind], listener)])
  }

  /** `close`: a socket that is not closing or closed starts closing. */
  function Close(s: Socket): Socket {
    if s.readyState.Closed? || s.readyState.Closing? then s else s.(readyState := Closing, closing := s.closing + 1)
  }

  function IsClosed(s: Socket): Socket {
    Fire(s.(readyState := Closed), Event("close", ""))
  }

  /** An awaited `onClose` has returned. */
  function CloseDone(s: Socket): Socket {
    IsClosed(s.(closing := if s.closing > 0 then s.closing - 1 else 0))
  }

  /** The server closes the socket. */
  function HandleClose(s: Socket): Socket {
    if s.readyState.Closed? then s else IsClosed(s)
  }

  datatype Step =
    | ServerSends(data: string)
    | HandlerOpened
    | CallClose
    | HandlerClosed
    | ServerCloses
    | Add(kind: string, listener: Listener)
    | Remove(kind: string, listener: Listener)

  /** `#initialize` awaits `onOpen` once, and every close awaits `onClose` once. */
  predicate Enabled(s: Socket, step: Step) {
    match step
    case HandlerOpened => !s.handlerOpened
    case HandlerClosed => s.closing > 0
    case _ => true
  }

  function Next(s: Socket, step: Step): Socket {
    match step
    case ServerSends(data) => Receive(s, data)
    case HandlerOpened => Initialized(s)
    case CallClose => Close(s)
    case HandlerClosed => CloseDone(s)
    case ServerCloses => HandleClose(s)
    case Add(kind, listener) => AddListener(s, kind, listener)
    case Remove(kind, listener) => RemoveListener(s, kind, listener)
  }

  function Run(steps: seq<Step>): Socket {
    if steps == [] then NEW_SOCKET else Next(Run(steps[..|steps| - 1]), steps[|steps| - 1])
  }

  predicate IsRun(steps: seq<Step>)
    decreases |steps|
  {
    steps == [] || (IsRun(steps[..|steps| - 1]) && Enabled(Run(steps[..|steps| - 1]), steps[|steps| - 1]))
  }

  // ---------- Conservation and order ----------

  /** Of each kind, the events that reached listeners and then the buffered ones are the events fired, in order. */
  ghost predicate EventsInOrder(s: Socket) {
    forall kind :: KindInOrder(s, kind)
  }

  ghost predicate KindInOrder(s: Socket, kind: string) {
    && OfKind(s.fired, kind) == OfKind(s.delivered, kind) + OfKind(s.bufferedEvents, kind)
    && (s.HasListener(kind) ==> OfKind(s.bufferedEvents, kind) == [])
  }

  function Messages(events: seq<Event>): seq<string>
    decreases |events|
  {
    if events == [] then []
    else
      var last := events[|events| - 1];
      Messages(events[..|events| - 1]) + if last.kind == "message" then [last.data] else []
  }

  /** The messages fired and then those still queued are the messages received, in order; an open socket queues none. */
  ghost predicate MessagesInOrder(s: Socket) {
    s.received == Messages(s.fired) + s.queuedMessages && (s.readyState.Open? ==> s.queuedMessages == [])
  }

  lemma OfKindSnoc(events: seq<Event>, e: Event, kind: string)
    ensures e.kind == kind ==> OfKind(events + [e], kind) == OfKind(events, kind) + [e]
    ensures e.kind != kind ==> OfKind(events + [e], kind) == OfKind(events, kind)
  {
    assert (events + [e])[..|events|] == events;
    assert OfKind(events, kind) + [] == OfKind(events, kind);
  }

  lemma SnocSplits(whole: seq<Event>, front: seq<Event>, back: seq<Event>, e: Event)
    requires whole == front + back
    ensures whole + [e] == front + (back + [e])
    ensures back == [] ==> whole + [e] == (front + [e]) + back
  {
  }

  lemma FireKeepsKind(s: Socket, e: Event, kind: string)
    requires KindInOrder(s, kind)
    ensures KindInOrder(Fire(s, e), kind)
  {
    var f, d, b := OfKind(s.fired, kind), OfKind(s.delivered, kind), OfKind(s.bufferedEvents, kind);
    OfKindSnoc(s.fired, e, kind);
    SnocSplits(f, d, b, e);
    if s.HasListener(e.kind) {
      OfKindSnoc(s.delivered, e, kind);
    } else {
      OfKindSnoc(s.bufferedEvents, e, kind);
    }
  }

  lemma FireKeepsEvents(s: Socket, e: Event)
    requires EventsInOrder(s)
    ensures EventsInOrder(Fire(s, e))
  {
    forall kind ensures KindInOrder(Fire(s, e), kind) {
      assert KindInOrder(s, kind);
      FireKeepsKind(s, e, kind);
    }
  }

  lemma FireKeepsMessages(s: Socket, data: string)
    requires s.readyState.Open? && s.queuedMessages == []
    ensures var r := HandleMessage(s, data);
            && r.readyState.Open? && r.queuedMessages == [] && r.received == s.received
            && Messages(r.fired) == Messages(s.fired) + [data]
  {
    assert (s.fired + [Event("message", data)])[..|s.fired|] == s.fired;
  }

  lemma AppendLast(base: seq<string>, messages: seq<string>)
    requires messages != []
    ensures (base + messages[..|messages| - 1]) + [messages[|messages| - 1]] == base + messages
  {
  }

  lemma {:induction false} HandleAllKeeps(s: Socket, messages: seq<string>)
    requires EventsInOrder(s) && s.readyState.Open? && s.queuedMessages == []
    ensures var r := HandleAll(s, messages);
            && EventsInOrder(r)
            && r.readyState.Open? && r.queuedMessages == [] && r.received == s.received
            && Messages(r.fired) == Messages(s.fired) + messages
    decreases |messages|
  {
    if messages == [] {
      assert Messages(s.fired) + [] == Messages(s.fired);
    } else {
      var front, last := messages[..|messages| - 1], messages[|messages| - 1];
      HandleAllKeeps(s, front);
      var r := HandleAll(s, front);
      FireKeepsEvents(r, Event("message", last));
      FireKeepsMessages(r, last);
      AppendLast(Messages(s.fired), messages);
    }
  }

  lemma OtherEventKeepsMessages(s: Socket, e: Event)
    requires e.kind != "message"
    ensures Messages(Fire(s, e).fired) == Messages(s.fired)
  {
    assert (s.fired + [e])[..|s.fired|] == s.fired;
    assert Messages(s.fired) + [] == Messages(s.fired);
  }

  lemma InitializedKeeps(s: Socket)
    requires EventsInOrder(s) && MessagesInOrder(s)
    ensures EventsInOrder(Initialized(s)) && MessagesInOrder(Initialized(s))
  {
    var opening := s.(readyState := Open, handlerOpened := true);
    var justOpen := Fire(opening, Event("open", ""));
    OnlyListenersChange(s, opening);
    FireKeepsEvents(opening, Event("open", ""));
    OtherEventKeepsMessages(opening, Event("open", ""));
    OnlyListenersChange(justOpen, justOpen.(queuedMessages := []));
    HandleAllKeeps(justOpen.(queuedMessages := []), justOpen.queuedMessages);
    assert s.received + [] == s.received;
  }

  lemma ClosedKeeps(s: Socket, closing: nat)
    requires EventsInOrder(s) && MessagesInOrder(s)
    ensures EventsInOrder(IsClosed(s.(closing := closing))) && MessagesInOrder(IsClosed(s.(closing := closing)))
  {
    var closed := s.(closing := closing, readyState := Closed);
    OnlyListenersChange(s, closed);
    FireKeepsEvents(closed, Event("close", ""));
    OtherEventKeepsMessages(closed, Event("close", ""));
  }

  /** Buffered events of a kind that has a listener all reach it, in order. */
  lemma {:induction false} DispatchAllDelivers(s: Socket, events: seq<Event>, kind: string)
    requires s.HasListener(kind) && forall e | e in events :: e.kind == kind
    ensures DispatchAll(s, events) == s.(delivered := s.delivered + events)
    decreases |events|
  {
    if events == [] {
      assert s.delivered + [] == s.delivered;
    } else {
      var front, last := events[..|events| - 1], events[|events| - 1];
      DispatchAllDelivers(s, front, kind);
      assert last in events;
      assert s.delivered + events == (s.delivered + front) + [last];
    }
  }

  lemma {:induction false} KindsSplit(events: seq<Event>, kind: string, k: string)
    ensures forall e | e in OfKind(events, kind) :: e.kind == kind
    ensures OfKind(OfKind(events, kind), k) == if k == kind then OfKind(events, kind) else []
    ensures OfKind(NotOfKind(events, kind), k) == if k == kind then [] else OfKind(events, k)
    decreases |events|
  {
    if events != [] {
      var front, last := events[..|events| - 1], events[|events| - 1];
      KindsSplit(front, kind, k);
      if last.kind == kind {
        OfKindSnoc(OfKind(front, kind), last, k);
        assert NotOfKind(events, kind) == NotOfKind(front, kind);
      } else {
        OfKindSnoc(NotOfKind(front, kind), last, k);
        assert OfKind(events, kind) == OfKind(front, kind);
      }
    }
  }

  lemma {:induction false} OfKindConcat(a: seq<Event>, b: seq<Event>, kind: string)
    ensures OfKind(a + b, kind) == OfKind(a, kind) + OfKind(b, kind)
    decreases |b|
  {
    if b == [] {
      assert a + b == a && OfKind(a, kind) + [] == OfKind(a, kind);
    } else {
      assert a + b == (a + b[..|b| - 1]) + [b[|b| - 1]];
      OfKindConcat(a, b[..|b| - 1], kind);
      OfKindSnoc(a + b[..|b| - 1], b[|b| - 1], kind);
    }
  }

  /** Delivering the buffered events of one kind keeps the order of every kind. */
  lemma FlushKeepsKind(s: Socket, r: Socket, kind: string, k: string)
    requires KindInOrder(s, k) && (k != kind && r.HasListener(k) ==> s.HasListener(k))
    requires r.fired == s.fired && r.delivered == s.delivered + OfKind(s.bufferedEvents, kind)
    requires r.bufferedEvents == NotOfKind(s.bufferedEvents, kind)
    ensures KindInOrder(r, k) && (k == kind ==> OfKind(r.delivered, k) == OfKind(s.fired, k))
  {
    KindsSplit(s.bufferedEvents, kind, k);
    OfKindConcat(s.delivered, OfKind(s.bufferedEvents, kind), k);
    assert OfKind(s.delivered, k) + [] == OfKind(s.delivered, k);
    assert OfKind(r.delivered, k) + [] == OfKind(r.delivered, k);
  }

  lemma AddedListener(s: Socket, kind: string, listener: Listener) returns (r: Socket)
    ensures r == AddListener(s, kind, listener)
    ensures r == s.(eventListeners := s.eventListeners[kind := ListenersOf(s, kind) + [listener]],
                    bufferedEvents := NotOfKind(s.bufferedEvents, kind),
                    delivered := s.delivered + OfKind(s.bufferedEvents, kind))
    ensures forall k | k != kind && r.HasListener(k) :: s.HasListener(k)
  {
    r := AddListener(s, kind, listener);
    var listeners := (if kind in s.eventListeners then s.eventListeners[kind] else []) + [listener];
    var added := s.(eventListeners := s.eventListeners[kind := listeners],
                    bufferedEvents := NotOfKind(s.bufferedEvents, kind));
    KindsSplit(s.bufferedEvents, kind, kind);
    DispatchAllDelivers(added, OfKind(s.bufferedEvents, kind), kind);
  }

  /** A new listener gets what was buffered for its kind, which completes the delivery of that kind. */
  lemma AddKeeps(s: Socket, kind: string, listener: Listener)
    requires EventsInOrder(s)
    ensures var r := AddListener(s, kind, listener);
            && EventsInOrder(r) && OfKind(r.delivered, kind) == OfKind(s.fired, kind)
            && r.fired == s.fired && r.received == s.received && r.queuedMessages == s.queuedMessages
            && r.readyState == s.readyState
  {
    var r := AddedListener(s, kind, listener);
    forall k ensures KindInOrder(r, k) && (k == kind ==> OfKind(r.delivered, k) == OfKind(s.fired, k)) {
      assert KindInOrder(s, k);
      FlushKeepsKind(s, r, kind, k);
    }
  }

  lemma AddCompletes(s: Socket, kind: string, listener: Listener)
    ensures EventsInOrder(s) ==> OfKind(AddListener(s, kind, listener).delivered, kind) == OfKind(s.fired, kind)
    ensures AddListener(s, kind, listener).fired == s.fired
  {
    var r := AddedListener(s, kind, listener);
    if EventsInOrder(s) {
      AddKeeps(s, kind, listener);
    }
  }

  lemma {:induction false} RemovedIsShorter(listeners: seq<Listener>, listener: Listener)
    ensures listeners == [] ==> WithoutFirst(listeners, listener) == []
    ensures |WithoutFirst(listeners, listener)| <= |listeners|
  {
    if listeners != [] {
      RemovedIsShorter(listeners[1..], listener);
    }
  }

  /** The order of events rests on the three event logs alone, and taking listeners away cannot break it. */
  lemma OnlyListenersChange(s: Socket, r: Socket)
    requires EventsInOrder(s)
    requires r.fired == s.fired && r.delivered == s.delivered && r.bufferedEvents == s.bufferedEvents
    requires forall kind | r.HasListener(kind) :: s.HasListener(kind)
    ensures EventsInOrder(r)
  {
    forall kind ensures KindInOrder(r, kind) {
      assert KindInOrder(s, kind);
    }
  }

  lemma NextKeepsOrder(s: Socket, step: Step)
    requires EventsInOrder(s) && MessagesInOrder(s)
    ensures EventsInOrder(Next(s, step)) && MessagesInOrder(Next(s, step))
  {
    match step {
      case ServerSends(data) =>
        if s.readyState.Open? {
          OnlyListenersChange(s, s.(received := s.received + [data]));
          FireKeepsEvents(s.(received := s.received + [data]), Event("message", data));
          FireKeepsMessages(s.(received := s.received + [data]), data);
        } else {
          OnlyListenersChange(s, Receive(s, data));
        }
      case HandlerOpened => InitializedKeeps(s);
      case CallClose => OnlyListenersChange(s, Close(s));
      case HandlerClosed => ClosedKeeps(s, if s.closing > 0 then s.closing - 1 else 0);
      case ServerCloses =>
        if !s.readyState.Closed? {
          ClosedKeeps(s, s.closing);
        }
      case Add(kind, listener) => AddKeeps(s, kind, listener);
      case Remove(kind, listener) =>
        RemovedIsShorter(if kind in s.eventListeners then s.eventListeners[kind] else [], listener);
        OnlyListenersChange(s, RemoveListener(s, kind, listener));
    }
  }

  /** Nothing has been lost, doubled or reordered so far. */
  ghost predicate InOrder(s: Socket) {
    EventsInOrder(s) && MessagesInOrder(s)
  }

  lemma StaysInOrder(s: Socket, step: Step)
    ensures InOrder(s) ==> InOrder(Next(s, step))
  {
    if InOrder(s) {
      NextKeepsOrder(s, step);
    }
  }

  /** In every run nothing is lost, doubled or reordered between the server and the listeners of a kind. */
  lemma {:induction false} RunKeepsOrder(steps: seq<Step>)
    ensures EventsInOrder(Run(steps)) && MessagesInOrder(Run(steps))
    decreases |steps|
  {
    if steps != [] {
      RunKeepsOrder(steps[..|steps| - 1]);
      NextKeepsOrder(Run(steps[..|steps| - 1]), steps[|steps| - 1]);
    }
  }

  lemma {:induction false} MessagesOfKind(events: seq<Event>)
    ensures Messages(OfKind(events, "message")) == Messages(events)
    decreases |events|
  {
    if events != [] {
      var front, last := events[..|events| - 1], events[|events| - 1];
      MessagesOfKind(front);
      if last.kind == "message" {
        assert (OfKind(front, "message") + [last])[..|OfKind(front, "message")|] == OfKind(front, "message");
      } else {
        assert OfKind(events, "message") == OfKind(front, "message");
      }
    }
  }

  /** What the server has sent, according to the history. */
  function SentBy(steps: seq<Step>): seq<string> {
    if steps == [] then []
    else
      var before := SentBy(steps[..|steps| - 1]);
      match steps[|steps| - 1]
      case ServerSends(data) => before + [data]
      case _ => before
  }

  lemma {:induction false} HandlingReceivesNothing(s: Socket, messages: seq<string>)
    ensures HandleAll(s, messages).received == s.received
    decreases |messages|
  {
    if messages != [] {
      HandlingReceivesNothing(s, messages[..|messages| - 1]);
    }
  }

  lemma NextFollowsSent(s: Socket, step: Step)
    ensures Next(s, step).received == s.received + if step.ServerSends? then [step.data] else []
  {
    match step {
      case HandlerOpened =>
        var justOpen := Fire(s.(readyState := Open, handlerOpened := true), Event("open", ""));
        HandlingReceivesNothing(justOpen.(queuedMessages := []), justOpen.queuedMessages);
      case Add(k, l) => var r := AddedListener(s, k, l);
      case ServerSends(_) =>
      case Remove(_, _) =>
      case CallClose =>
      case HandlerClosed =>
      case ServerCloses =>
    }
  }

  lemma {:induction false} ReceivedFollowsHistory(steps: seq<Step>)
    ensures Run(steps).received == SentBy(steps)
    decreases |steps|
  {
    if steps != [] {
      ReceivedFollowsHistory(steps[..|steps| - 1]);
      NextFollowsSent(Run(steps[..|steps| - 1]), steps[|steps| - 1]);
    }
  }

  /** An open socket with a message listener has delivered exactly the messages that the server sent, in order. */
  lemma OpenSocketIsUpToDate(steps: seq<Step>)
    requires Run(steps).readyState.Open? && Run(steps).HasListener("message")
    ensures Messages(Run(steps).delivered) == SentBy(steps)
  {
    var s := Run(steps);
    RunKeepsOrder(steps);
    ReceivedFollowsHistory(steps);
    MessagesOfKind(s.fired);
    MessagesOfKind(s.delivered);
    assert KindInOrder(s, "message");
    assert OfKind(s.delivered, "message") + [] == OfKind(s.delivered, "message");
    assert Messages(s.fired) + [] == Messages(s.fired);
  }

  // ---------- Which listeners there are ----------

  /** The listeners of a kind according to the history: those added, in order, less the first match of each removal. */
  function ListenersBy(steps: seq<Step>, kind: string): seq<Listener> {
    if steps == [] then []
    else
      var before := ListenersBy(steps[..|steps| - 1], kind);
      match steps[|steps| - 1]
      case Add(k, l) => if k == kind then before + [l] else before
      case Remove(k, l) => if k == kind && l in before then
          var i := FirstIndex(before, l);
          before[..i] + before[i + 1..]
        else before
      case _ => before
  }

  /** `listeners.indexOf(listener)` of a listener that is there. */
  function FirstIndex(listeners: seq<Listener>, listener: Listener): (i: nat)
    requires listener in listeners
    ensures i < |listeners| && listeners[i] == listener && forall k | 0 <= k < i :: listeners[k] != listener
  {
    if listeners[0] == listener then 0 else 1 + FirstIndex(listeners[1..], listener)
  }

  lemma {:induction false} WithoutFirstSplices(listeners: seq<Listener>, listener: Listener, i: nat)
    requires i < |listeners| && listeners[i] == listener && forall k | 0 <= k < i :: listeners[k] != listener
    ensures WithoutFirst(listeners, listener) == listeners[..i] + listeners[i + 1..]
  {
    if i > 0 {
      forall k | 0 <= k < i - 1 ensures listeners[1..][k] != listener {
        assert listeners[1..][k] == listeners[k + 1];
      }
      WithoutFirstSplices(listeners[1..], listener, i - 1);
      assert listeners[1..][i..] == listeners[i + 1..];
    }
  }

  lemma {:induction false} WithoutNone(listeners: seq<Listener>, listener: Listener)
    requires listener !in listeners
    ensures WithoutFirst(listeners, listener) == listeners
  {
    if listeners != [] {
      WithoutNone(listeners[1..], listener);
      assert listeners == [listeners[0]] + listeners[1..];
    }
  }

  lemma {:induction false} HandlingKeepsListeners(s: Socket, messages: seq<string>)
    ensures HandleAll(s, messages).eventListeners == s.eventListeners
    decreases |messages|
  {
    if messages != [] {
      HandlingKeepsListeners(s, messages[..|messages| - 1]);
    }
  }

  function MessageEvents(messages: seq<string>): (r: seq<Event>)
    ensures |r| == |messages| && forall k | 0 <= k < |messages| :: r[k] == Event("message", messages[k])
  {
    seq(|messages|, k requires 0 <= k < |messages| => Event("message", messages[k]))
  }

  lemma {:induction false} HandlingFires(s: Socket, messages: seq<string>)
    requires s.readyState.Open?
    ensures HandleAll(s, messages).readyState.Open? && HandleAll(s, messages).fired == s.fired + MessageEvents(messages)
    decreases |messages|
  {
    if messages != [] {
      var front, last := messages[..|messages| - 1], messages[|messages| - 1];
      HandlingFires(s, front);
      assert s.fired + MessageEvents(front) + [Event("message", last)] == s.fired + MessageEvents(messages);
    } else {
      assert s.fired + MessageEvents([]) == s.fired;
    }
  }

  /** Opening fires the open event and then every queued message. */
  lemma OpeningFires(s: Socket)
    ensures Initialized(s).fired == s.fired + [Event("open", "")] + MessageEvents(s.queuedMessages)
  {
    var justOpen := Fire(s.(readyState := Open, handlerOpened := true), Event("open", ""));
    HandlingFires(justOpen.(queuedMessages := []), justOpen.queuedMessages);
  }

  lemma OpeningKeepsListeners(s: Socket)
    ensures Initialized(s).eventListeners == s.eventListeners
  {
    var justOpen := Fire(s.(readyState := Open, handlerOpened := true), Event("open", ""));
    HandlingKeepsListeners(justOpen.(queuedMessages := []), justOpen.queuedMessages);
  }

  lemma NextFollowsListeners(s: Socket, step: Step, kind: string)
    ensures ListenersOf(Next(s, step), kind) ==
              match step
              case Add(k, l) => if k == kind then ListenersOf(s, kind) + [l] else ListenersOf(s, kind)
              case Remove(k, l) => if k == kind then WithoutFirst(ListenersOf(s, kind), l) else ListenersOf(s, kind)
              case _ => ListenersOf(s, kind)
  {
    match step {
      case Add(k, l) => var r := AddedListener(s, k, l);
      case HandlerOpened => OpeningKeepsListeners(s);
      case Remove(_, _) =>
      case ServerSends(_) =>
      case CallClose =>
      case HandlerClosed =>
      case ServerCloses =>
    }
  }

  /** After any run the listeners of a kind are exactly those of the history, in the same order. */
  lemma {:induction false} ListenersFollowHistory(steps: seq<Step>, kind: string)
    ensures ListenersOf(Run(steps), kind) == ListenersBy(steps, kind)
    decreases |steps|
  {
    if steps != [] {
      var front, last := steps[..|steps| - 1], steps[|steps| - 1];
      ListenersFollowHistory(front, kind);
      NextFollowsListeners(Run(front), last, kind);
      if last.Remove? && last.kind == kind {
        var before := ListenersBy(front, kind);
        if last.listener in before {
          WithoutFirstSplices(before, last.listener, FirstIndex(before, last.listener));
        } else {
          WithoutNone(before, last.listener);
        }
      }
    }
  }

  // ---------- When a closed socket stays closed ----------

  /** The fields that decide about opening and closing, which only the handler and the closing calls change. */
  lemma StateChanges(s: Socket, step: Step)
    requires !step.HandlerOpened?
    ensures Next(s, step).handlerOpened == s.handlerOpened
    ensures Next(s, step).readyState ==
              match step
              case CallClose => if s.readyState.Closed? then Closed else Closing
              case HandlerClosed => Closed
              case ServerCloses => Closed
              case _ => s.readyState
  {
    if step.Add? {
      var r := AddedListener(s, step.kind, step.listener);
    }
  }

  lemma {:induction false} HandledStaysOpen(s: Socket, messages: seq<string>)
    requires s.readyState.Open?
    ensures HandleAll(s, messages).readyState.Open? && HandleAll(s, messages).handlerOpened == s.handlerOpened
    decreases |messages|
  {
    if messages != [] {
      HandledStaysOpen(s, messages[..|messages| - 1]);
    }
  }

  lemma InitializedOpens(s: Socket)
    ensures Initialized(s).readyState.Open? && Initialized(s).handlerOpened
  {
    var justOpen := Fire(s.(readyState := Open, handlerOpened := true), Event("open", ""));
    HandledStaysOpen(justOpen.(queuedMessages := []), justOpen.queuedMessages);
  }

  /** The state tells the caller whether the handler has opened, until the socket starts to close. */
  lemma {:induction false} StateTellsHandler(steps: seq<Step>)
    requires IsRun(steps)
    ensures Run(steps).readyState.Connecting? ==> !Run(steps).handlerOpened
    ensures Run(steps).readyState.Open? ==> Run(steps).handlerOpened
    decreases |steps|
  {
    if steps != [] {
      var front, last := steps[..|steps| - 1], steps[|steps| - 1];
      StateTellsHandler(front);
      if last.HandlerOpened? {
        InitializedOpens(Run(front));
      } else {
        StateChanges(Run(front), last);
      }
    }
  }

  lemma RunSnoc(steps: seq<Step>, more: seq<Step>)
    requires more != [] && IsRun(steps + more)
    ensures var n := |more| - 1;
            && IsRun(steps + more[..n]) && Enabled(Run(steps + more[..n]), more[n])
            && Run(steps + more) == Next(Run(steps + more[..n]), more[n])
  {
    var n := |more| - 1;
    assert (steps + more)[..|steps + more| - 1] == steps + more[..n] && (steps + more)[|steps + more| - 1] == more[n];
  }

  lemma {:induction false} OpenedStaysClosed(steps: seq<Step>, more: seq<Step>)
    requires IsRun(steps + more) && Run(steps).readyState.Closed? && Run(steps).handlerOpened
    ensures Run(steps + more).readyState.Closed? && Run(steps + more).handlerOpened
    decreases |more|
  {
    if more == [] {
      assert steps + more == steps;
    } else {
      var n := |more| - 1;
      RunSnoc(steps, more);
      OpenedStaysClosed(steps, more[..n]);
      StateChanges(Run(steps + more[..n]), more[n]);
    }
  }

  lemma RunExtends(steps: seq<Step>, step: Step)
    requires IsRun(steps) && Enabled(Run(steps), step)
    ensures IsRun(steps + [step]) && Run(steps + [step]) == Next(Run(steps), step)
  {
    assert (steps + [step])[..|steps|] == steps;
  }

  lemma ConnectingReopens(steps: seq<Step>)
    requires IsRun(steps) && !Run(steps).handlerOpened
    ensures IsRun(steps + [HandlerOpened]) && Run(steps + [HandlerOpened]).readyState.Open?
  {
    RunExtends(steps, HandlerOpened);
    InitializedOpens(Run(steps));
  }

  /** No continuation of a run makes its socket leave the closed state. */
  ghost predicate StaysClosed(steps: seq<Step>) {
    forall more | IsRun(steps + more) :: Run(steps + more).readyState.Closed?
  }

  /** A closed socket stays closed in every continuation if and only if its handler had opened before. */
  lemma StaysClosedExactly(steps: seq<Step>)
    requires IsRun(steps) && Run(steps).readyState.Closed?
    ensures StaysClosed(steps) <==> Run(steps).handlerOpened
  {
    if Run(steps).handlerOpened {
      forall more | IsRun(steps + more) ensures Run(steps + more).readyState.Closed? {
        OpenedStaysClosed(steps, more);
      }
    } else {
      ConnectingReopens(steps);
    }
  }

  /** So a close by the server is final if and only if the socket was open when it came. */
  lemma ServerCloseIsFinal(steps: seq<Step>)
    requires IsRun(steps) && (Run(steps).readyState.Open? || Run(steps).readyState.Connecting?)
    ensures IsRun(steps + [ServerCloses]) && Run(steps + [ServerCloses]).readyState.Closed?
    ensures StaysClosed(steps + [ServerCloses]) <==> Run(steps).readyState.Open?
  {
    RunExtends(steps, ServerCloses);
    StateChanges(Run(steps), ServerCloses);
    StateTellsHandler(steps);
    StaysClosedExactly(steps + [ServerCloses]);
  }

  /** And a close by the client, if the handler does not open while it is closing. */
  lemma ClientCloseIsFinal(steps: seq<Step>)
    requires IsRun(steps) && (Run(steps).readyState.Open? || Run(steps).readyState.Connecting?)
    ensures var closed := steps + [CallClose, HandlerClosed];
            && IsRun(closed) && Run(closed).readyState.Closed?
            && (StaysClosed(closed) <==> Run(steps).readyState.Open?)
  {
    var half, closed := steps + [CallClose], steps + [CallClose, HandlerClosed];
    RunExtends(steps, CallClose);
    RunExtends(half, HandlerClosed);
    assert half + [HandlerClosed] == closed;
    StateChanges(Run(steps), CallClose);
    StateChanges(Run(half), HandlerClosed);
    StateTellsHandler(steps);
    StaysClosedExactly(closed);
  }

  /** A socket that the caller closes while it connects reports that it is open afterwards. */
  lemma ClosedSocketReopens()
    ensures IsRun([CallClose, HandlerClosed, HandlerOpened])
    ensures Run([CallClose, HandlerClosed]).readyState.Closed?
    ensures Run([CallClose, HandlerClosed, HandlerOpened]).readyState.Open?
  {
    var two, three := [CallClose, HandlerClosed], [CallClose, HandlerClosed, HandlerOpened];
    assert IsRun([]) && Run([]) == NEW_SOCKET;
    ClientCloseIsFinal([]);
    assert [] + two == two;
    StateChanges(NEW_SOCKET, CallClose);
    assert two[..1] == [CallClose] && [CallClose][..0] == [];
    StateChanges(Run([CallClose]), HandlerClosed);
    ConnectingReopens(two);
    assert two + [HandlerOpened] == three;
  }

  /** `after` is `before` without the first match of `listener`. */
  predicate SplicedOut(before: seq<Listener>, after: seq<Listener>, listener: Listener) {
    if listener in before then
      var i := FirstIndex(before, listener);
      after == before[..i] + before[i + 1..]
    else after == before
  }

  lemma SplicedAt(before: seq<Listener>, after: seq<Listener>, listener: Listener, i: nat)
    requires listener in before && i == FirstIndex(before, listener) && after == before[..i] + before[i + 1..]
    ensures SplicedOut(before, after, listener)
  {
  }

  lemma WithoutFirstIsSplicedOut(listeners: seq<Listener>, listener: Listener)
    ensures SplicedOut(listeners, WithoutFirst(listeners, listener), listener)
  {
    if listener in listeners {
      SplicedAt(listeners, WithoutFirst(listeners, listener), listener, FirstIndex(listeners, listener)) by {
        WithoutFirstSplices(listeners, listener, FirstIndex(listeners, listener));
      }
    } else {
      WithoutNone(listeners, listener);
    }
  }

  /** The listeners of `kind` lose one registration of `listener`, if there is one, and no other kind changes. */
  predicate OneRegistrationLess(before: map<string, seq<Listener>>, after: map<string, seq<Listener>>,
                                kind: string, listener: Listener) {
    && after.Keys == before.Keys
    && (forall k | k in before && k != kind :: after[k] == before[k])
    && (kind in before ==> SplicedOut(before[kind], after[kind], listener))
  }

  lemma ListenerRemoved(before: map<string, seq<Listener>>, kind: string, listener: Listener)
    ensures var after := if kind in before then before[kind := WithoutFirst(before[kind], listener)] else before;
            OneRegistrationLess(before, after, kind, listener)
  {
    if kind in before {
      WithoutFirstIsSplicedOut(before[kind], listener);
    }
  }

  // ---------- The object ----------

  /** The socket object; the histories of the model are ghost fields here. */
  class FakeWebSocket {
    var readyState: ReadyState
    var queuedMessages: seq<string>
    var bufferedEvents: seq<Event>
    var eventListeners: map<string, seq<Listener>>
    ghost var received: seq<string>
    ghost var fired: seq<Event>
    ghost var delivered: seq<Event>
    ghost var handlerOpened: bool
    ghost var closing: nat

    ghost function State(): Socket
      reads this
    {
      Socket(readyState, queuedMessages, bufferedEvents, eventListeners,
             received, fired, delivered, handlerOpened, closing)
    }

    constructor ()
      ensures State() == NEW_SOCKET && InOrder(State())
    {
      readyState, queuedMessages, bufferedEvents, eventListeners := Connecting, [], [], map[];
      received, fired, delivered, handlerOpened, closing := [], [], [], false, 0;
    }

    /** `called` are the listeners the event reaches, in the order of their registration. */
    method DispatchEvent(e: Event) returns (called: seq<Listener>)
      modifies this
      ensures State() == Dispatch(old(State()), e)
      ensures called == if e.kind in eventListeners then eventListeners[e.kind] else []
      ensures eventListeners == old(eventListeners) && fired == old(fired) && readyState == old(readyState)
      ensures called != [] ==> delivered == old(delivered) + [e] && bufferedEvents == old(bufferedEvents)
      ensures called == [] ==> delivered == old(delivered) && bufferedEvents == old(bufferedEvents) + [e]
    {
      called := [];
      if e.kind in eventListeners && |eventListeners[e.kind]| > 0 {
        var listeners := eventListeners[e.kind];
        for k := 0 to |listeners|
          invariant called == listeners[..k]
        {
          called := called + [listeners[k]];
        }
        delivered := delivered + [e];
      } else {
        bufferedEvents := bufferedEvents + [e];
      }
    }

    /** An event reaches its listeners behind all earlier events of its kind, or waits behind them. */
    method FireEvent(e: Event)
      modifies this
      ensures State() == Fire(old(State()), e)
      ensures old(EventsInOrder(State())) ==> EventsInOrder(State())
      ensures fired == old(fired) + [e] && eventListeners == old(eventListeners)
      ensures old(State().HasListener(e.kind)) ==>
                delivered == old(delivered) + [e] && bufferedEvents == old(bufferedEvents)
      ensures !old(State().HasListener(e.kind)) ==>
                delivered == old(delivered) && bufferedEvents == old(bufferedEvents) + [e]
    {
      ghost var s := State();
      fired := fired + [e];
      var _ := DispatchEvent(e);
      if EventsInOrder(s) {
        FireKeepsEvents(s, e);
      }
    }

    /** A message is fired behind the messages fired before, or queued behind the queued ones. */
    method Handle(data: string)
      modifies this
      ensures State() == HandleMessage(old(State()), data)
      ensures old(EventsInOrder(State())) ==> EventsInOrder(State())
      ensures Messages(fired) + queuedMessages ==
                if old(readyState).Open? then old(Messages(fired)) + [data] + old(queuedMessages)
                else old(Messages(fired) + queuedMessages) + [data]
    {
      ghost var before := fired;
      if readyState != Open {
        assert Messages(fired) + (queuedMessages + [data]) == Messages(fired) + queuedMessages + [data];
        queuedMessages := queuedMessages + [data];
        ghost var s := old(State());
        if EventsInOrder(s) {
          OnlyListenersChange(s, State());
        }
        return;
      }
      FireEvent(Event("message", data));
      assert fired[..|fired| - 1] == before;
    }

    /** What the server sends reaches the listeners, or waits, in the order in which it was sent. */
    method MessageFromServer(data: string)
      modifies this
      ensures State() == Receive(old(State()), data)
      ensures received == old(received) + [data] && (old(InOrder(State())) ==> InOrder(State()))
    {
      ghost var s := State();
      received := received + [data];
      Handle(data);
      StaysInOrder(s, ServerSends(data));
    }

    /** An opening socket delivers or buffers everything that was queued, in order. */
    method HandlerReady()
      modifies this
      ensures State() == Initialized(old(State()))
      ensures readyState.Open? && handlerOpened && (old(InOrder(State())) ==> InOrder(State()) && queuedMessages == [])
      ensures eventListeners == old(eventListeners)
      ensures fired == old(fired) + [Event("open", "")] + MessageEvents(old(queuedMessages))
    {
      ghost var before := State();
      readyState := Open;
      handlerOpened := true;
      FireEvent(Event("open", ""));
      var messagesToProcess := queuedMessages;
      queuedMessages := [];
      ProcessQueued(messagesToProcess);
      InitializedOpens(before);
      OpeningKeepsListeners(before);
      OpeningFires(before);
      StaysInOrder(before, HandlerOpened);
    }

    method ProcessQueued(messages: seq<string>)
      modifies this
      ensures State() == HandleAll(old(State()), messages)
    {
      ghost var s := State();
      for k := 0 to |messages|
        invariant State() == HandleAll(s, messages[..k])
      {
        assert messages[..k + 1][..k] == messages[..k];
        Handle(messages[k]);
      }
      assert messages[..|messages|] == messages;
    }

    /** A new listener gets what was buffered for its kind, after which nothing of that kind is left waiting. */
    method AddEventListener(kind: string, listener: Listener)
      modifies this
      ensures State() == AddListener(old(State()), kind, listener)
      ensures old(InOrder(State())) ==> InOrder(State()) && OfKind(delivered, kind) == OfKind(fired, kind)
      ensures eventListeners ==
                old(eventListeners)[kind :=
                  (if kind in old(eventListeners) then old(eventListeners)[kind] else []) + [listener]]
    {
      ghost var before := State();
      if kind !in eventListeners {
        eventListeners := eventListeners[kind := []];
      }
      eventListeners := eventListeners[kind := eventListeners[kind] + [listener]];
      assert eventListeners == before.eventListeners[kind := eventListeners[kind]];
      FlushBufferedEvents(kind);
      StaysInOrder(before, Add(kind, listener));
      AddCompletes(before, kind, listener);
      ghost var r := AddedListener(before, kind, listener);
    }

    method FlushBufferedEvents(kind: string)
      modifies this
      ensures State() == DispatchAll(old(State()).(bufferedEvents := NotOfKind(old(bufferedEvents), kind)),
                                     OfKind(old(bufferedEvents), kind))
    {
      var eventsToFlush := OfKind(bufferedEvents, kind);
      bufferedEvents := NotOfKind(bufferedEvents, kind);
      ghost var s := State();
      for k := 0 to |eventsToFlush|
        invariant State() == DispatchAll(s, eventsToFlush[..k])
      {
        assert eventsToFlush[..k + 1][..k] == eventsToFlush[..k];
        var _ := DispatchEvent(eventsToFlush[k]);
      }
      assert eventsToFlush[..|eventsToFlush|] == eventsToFlush;
    }

    /** `indexOf` and `splice` */
    static method Splice(listeners: seq<Listener>, listener: Listener) returns (r: seq<Listener>)
      ensures r == WithoutFirst(listeners, listener) && SplicedOut(listeners, r, listener)
    {
      WithoutFirstIsSplicedOut(listeners, listener);
      var index := 0;
      while index < |listeners| && listeners[index] != listener
        invariant index <= |listeners| && forall k | 0 <= k < index :: listeners[k] != listener
      {
        index := index + 1;
      }
      if index == |listeners| {
        return listeners;
      }
      return listeners[..index] + listeners[index + 1..];
    }

    /** One registration of the listener goes, the others stay in their order, and no other kind is touched. */
    method RemoveEventListener(kind: string, listener: Listener)
      modifies this`eventListeners
      ensures State() == RemoveListener(old(State()), kind, listener)
      ensures old(InOrder(State())) ==> InOrder(State())
      ensures OneRegistrationLess(old(eventListeners), eventListeners, kind, listener)
    {
      ghost var s := State();
      StaysInOrder(s, Remove(kind, listener));
      ListenerRemoved(eventListeners, kind, listener);
      if kind in eventListeners {
        var listeners := Splice(eventListeners[kind], listener);
        eventListeners := eventListeners[kind := listeners];
      }
    }

    /** A socket that is closing or closed reports nothing new; another one awaits its handler. */
    method StartClosing()
      modifies this`readyState, this`closing
      ensures State() == Close(old(State()))
      ensures !readyState.Open? && !readyState.Connecting? && (old(InOrder(State())) ==> InOrder(State()))
      ensures old(readyState).Closed? || old(readyState).Closing? ==> State() == old(State())
      ensures old(readyState).Open? || old(readyState).Connecting? ==>
                readyState.Closing? && Enabled(State(), HandlerClosed)
    {
      ghost var s := State();
      StaysInOrder(s, CallClose);
      if readyState == Closed || readyState == Closing {
        return;
      }
      readyState := Closing;
      closing := closing + 1;
    }

    /** The close event comes behind all earlier ones, and what still waits in the queue stays there. */
    method FinishClosing()
      modifies this
      ensures State() == CloseDone(old(State()))
      ensures readyState.Closed? && queuedMessages == old(queuedMessages) && (old(InOrder(State())) ==> InOrder(State()))
      ensures fired == old(fired) + [Event("close", "")]
    {
      ghost var s := State();
      closing := if closing > 0 then closing - 1 else 0;
      readyState := Closed;
      FireEvent(Event("close", ""));
      StaysInOrder(s, HandlerClosed);
    }

    /** The server's close is reported at most once: a closed socket fires nothing. */
    method ClosedByServer()
      modifies this
      ensures State() == HandleClose(old(State()))
      ensures readyState.Closed? && (old(InOrder(State())) ==> InOrder(State()))
      ensures fired == old(fired) + if old(readyState).Closed? then [] else [Event("close", "")]
    {
      ghost var s := State();
      StaysInOrder(s, ServerCloses);
      if readyState == Closed {
        return;
      }
      readyState := Closed;
      FireEvent(Event("close", ""));
    }
  }
}
