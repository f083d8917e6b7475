/**
 The client's side of a connection to an actor over WebSocket: actions in flight, the queue of messages that could
 not be sent, and event listeners. `ok` arguments say whether `websocket.send` accepts a message or throws.
 Event callbacks do not re-enter the connection.
 */
module ClientConns {
  import opened Wrappers

  datatype ToServer =
    | ActionRequest(i: nat, n: string, a: seq<string>)
    | SubscriptionRequest(e: string, s: bool)

  datatype ToClient =
    | Init
    | Error(code: string, ai: Option<nat>)
    | ActionResponse(i: nat, o: string)
    | Event(n: string, a: seq<string>)

  /** The transport, with the states of the WebSocket that matter: only an open socket takes messages. */
  datatype Transport = NoTransport | Connecting | Open | Closing

  type ListenerId = nat

  /** The listeners of one event; the flag marks one-time listeners. */
  type Listeners = map<ListenerId, bool>

  datatype Outcome = Resolved(output: string) | Rejected(code: string)

  datatype Client = Client(transport: Transport, messageQueue: seq<ToServer>, actionsInFlight: map<nat, string>,
                           eventSubscriptions: map<string, Listeners>, actionIdCounter: nat, listenerCounter: nat)

  const NEW_CLIENT := Client(NoTransport, [], map[], map[], 0, 0)

  /** A client after a call, and the messages it has handed to its socket, in order. */
  datatype Sent = Sent(client: Client, out: seq<ToServer>)

  function SendMessage(c: Client, message: ToServer, ephemeral: bool, ok: bool): Sent {
    if c.transport.Open? && ok then Sent(c, [message])
    else if ephemeral then Sent(c, [])
    else Sent(c.(messageQueue := c.messageQueue + [message]), [])
  }

  /** `#sendMessage` for one message after the other. */
  function SendAll(c: Client, messages: seq<ToServer>, ephemeral: bool, oks: seq<bool>): Sent
    requires |oks| == |messages|
    decreases |messages|
  {
    if messages == [] then Sent(c, [])
    else
      var n := |messages| - 1;
      var before := SendAll(c, messages[..n], ephemeral, oks[..n]);
      var last := SendMessage(before.client, messages[n], ephemeral, oks[n]);
      Sent(last.client, before.out + last.out)
  }

  function Subscriptions(names: seq<string>): (r: seq<ToServer>)
    ensures |r| == |names| && forall k | 0 <= k < |names| :: r[k] == SubscriptionRequest(names[k], true)
  {
    seq(|names|, k requires 0 <= k < |names| => SubscriptionRequest(names[k], true))
  }

  /** `names` is the order in which the client's map yields its event names. */
  predicate Enumerates(names: seq<string>, subscriptions: map<string, Listeners>) {
    (forall e | e in subscriptions :: e in names) && (forall k | 0 <= k < |names| :: names[k] in subscriptions)
  }

  /** `#handleOnOpen`: resubscribe to everything, then send the queue again. */
  function HandleOnOpen(c: Client, names: seq<string>, subOks: seq<bool>, oks: seq<bool>): Sent
    requires |subOks| == |names| && |oks| == |c.messageQueue|
  {
    var resubscribed := SendAll(c, Subscriptions(names), true, subOks);
    var flushed := SendAll(c.(messageQueue := []), c.messageQueue, false, oks);
    Sent(flushed.client, resubscribed.out + flushed.out)
  }

  function Action(c: Client, name: string, args: seq<string>, ok: bool): Sent {
    var id := c.actionIdCounter;
    SendMessage(c.(actionIdCounter := id + 1, actionsInFlight := c.actionsInFlight[id := name]),
                ActionRequest(id, name, args), false, ok)
  }

  /** A client after a reply, and the actions whose promises the reply settles. */
  datatype Settled = Settled(client: Client, settled: map<nat, Outcome>)

  /** `#takeActionInFlight`; an identifier that is not in flight only makes the handler throw. */
  function Settle(c: Client, id: nat, outcome: Outcome): Settled {
    if id in c.actionsInFlight then Settled(c.(actionsInFlight := c.actionsInFlight - {id}), map[id := outcome])
    else Settled(c, map[])
  }

  /** An error reply that names no action, or action 0, rejects everything in flight. */
  function HandleError(c: Client, code: string, ai: Option<nat>): Settled {
    if ai.Some? && ai.value != 0 then Settle(c, ai.value, Rejected(code))
    else Settled(c.(actionsInFlight := map[]), map id | id in c.actionsInFlight :: Rejected(code))
  }

  /** A thrown action rejects no other action, exactly when it is not action 0 or nothing else is in flight. */
  lemma ErrorHitsOnlyItsAction(c: Client, code: string, i: nat)
    ensures (forall id | id in HandleError(c, code, Some(i)).settled :: id == i) <==>
              i != 0 || forall id | id in c.actionsInFlight :: id == 0
  {
    assert i == 0 ==> HandleError(c, code, Some(i)).settled.Keys == c.actionsInFlight.Keys;
  }

  function WithoutOnce(listeners: Listeners): Listeners {
    map l | l in listeners && !listeners[l] :: listeners[l]
  }

  function WithListeners(c: Client, name: string, listeners: Listeners): Client {
    if listeners == map[] then c.(eventSubscriptions := c.eventSubscriptions - {name})
    else c.(eventSubscriptions := c.eventSubscriptions[name := listeners])
  }

  function DispatchEvent(c: Client, name: string): Client {
    if name !in c.eventSubscriptions then c else WithListeners(c, name, WithoutOnce(c.eventSubscriptions[name]))
  }

  /** Exactly the one-time listeners of `name` are gone, and with the last listener the event; others keep theirs. */
  ghost predicate OnlyOnceGone(before: map<string, Listeners>, after: map<string, Listeners>, name: string) {
    && (forall e | e != name :: e in after <==> e in before)
    && (forall e | e != name && e in after :: after[e] == before[e])
    && (name in after ==> name in before && after[name] != map[])
    && (forall l :: (name in after && l in after[name]) <==> (name in before && l in before[name] && !before[name][l]))
    && (name in after ==> forall l | l in after[name] :: !after[name][l])
  }

  lemma DispatchEffect(c: Client, name: string)
    ensures OnlyOnceGone(c.eventSubscriptions, DispatchEvent(c, name).eventSubscriptions, name)
  {
    if name in c.eventSubscriptions {
      var kept := WithoutOnce(c.eventSubscriptions[name]);
      assert forall l :: l in kept <==> l in c.eventSubscriptions[name] && !c.eventSubscriptions[name][l];
    }
  }

  /** `#addEventSubscription`: only the first listener of an event sends a subscription request. */
  function AddListener(c: Client, name: string, once: bool, ok: bool): Sent {
    var isNew := name !in c.eventSubscriptions;
    var listeners := (if isNew then map[] else c.eventSubscriptions[name])[c.listenerCounter := once];
    var r := c.(listenerCounter := c.listenerCounter + 1, eventSubscriptions := c.eventSubscriptions[name := listeners]);
    if isNew then SendMessage(r, SubscriptionRequest(name, true), true, ok) else Sent(r, [])
  }

  /** The function that `on` and `once` return. */
  function RemoveListener(c: Client, name: string, listener: ListenerId, ok: bool): Sent {
    if name !in c.eventSubscriptions then Sent(c, [])
    else
      var r := WithListeners(c, name, c.eventSubscriptions[name] - {listener});
      if name in r.eventSubscriptions then Sent(r, [])
      else SendMessage(r, SubscriptionRequest(name, false), true, ok)
  }

  /** Listening touches only the listeners, and sends at most one subscription request. */
  lemma AddListenerFrame(c: Client, name: string, once: bool, ok: bool)
    ensures var r := AddListener(c, name, once, ok);
            && r.client == c.(listenerCounter := r.client.listenerCounter,
                              eventSubscriptions := r.client.eventSubscriptions)
            && r.out == (if name !in c.eventSubscriptions && c.transport.Open? && ok
                         then [SubscriptionRequest(name, true)] else [])
  {
  }

  lemma RemoveListenerFrame(c: Client, name: string, listener: ListenerId, ok: bool)
    ensures var r := RemoveListener(c, name, listener, ok);
            && r.client == c.(eventSubscriptions := r.client.eventSubscriptions)
            && (r.out == [] || r.out == [SubscriptionRequest(name, false)])
            && (forall e | e in r.client.eventSubscriptions :: e in c.eventSubscriptions)
            && (r.out != [] ==> name !in r.client.eventSubscriptions)
  {
    if name in c.eventSubscriptions {
      var r := WithListeners(c, name, c.eventSubscriptions[name] - {listener});
      assert r == c.(eventSubscriptions := r.eventSubscriptions);
    }
  }

  // ---------- What a flush does ----------

  /** The messages at the positions marked in `picks`, in their order. */
  function Select(messages: seq<ToServer>, picks: seq<bool>, mark: bool): seq<ToServer>
    requires |picks| == |messages|
    decreases |messages|
  {
    if messages == [] then []
    else
      var n := |messages| - 1;
      Select(messages[..n], picks[..n], mark) + if picks[n] == mark then [messages[n]] else []
  }

  lemma SelectSnoc(messages: seq<ToServer>, picks: seq<bool>, mark: bool)
    requires |picks| == |messages| > 0
    ensures var n := |messages| - 1;
            Select(messages, picks, mark) ==
              Select(messages[..n], picks[..n], mark) + if picks[n] == mark then [messages[n]] else []
  {
  }

  lemma SendAllSnoc(c: Client, messages: seq<ToServer>, ephemeral: bool, oks: seq<bool>)
    returns (before: Sent, last: Sent)
    requires |oks| == |messages| > 0
    ensures var n := |messages| - 1;
            && before == SendAll(c, messages[..n], ephemeral, oks[..n])
            && last == SendMessage(before.client, messages[n], ephemeral, oks[n])
            && SendAll(c, messages, ephemeral, oks) == Sent(last.client, before.out + last.out)
  {
    var n := |messages| - 1;
    before := SendAll(c, messages[..n], ephemeral, oks[..n]);
    last := SendMessage(before.client, messages[n], ephemeral, oks[n]);
  }

  lemma Append(queue: seq<ToServer>, kept: seq<ToServer>, m: ToServer)
    ensures (queue + kept) + [m] == queue + (kept + [m]) && kept + [] == kept
  {
  }

  /** Sending again splits the messages into those sent and those queued, both in their old order. */
  lemma {:induction false} SendAllSplits(c: Client, messages: seq<ToServer>, oks: seq<bool>)
    requires |oks| == |messages|
    ensures var r := SendAll(c, messages, false, oks);
            && r.out == (if c.transport.Open? then Select(messages, oks, true) else [])
            && r.client == c.(messageQueue := c.messageQueue +
                                if c.transport.Open? then Select(messages, oks, false) else messages)
    decreases |messages|
  {
    if messages == [] {
      assert c.messageQueue + [] == c.messageQueue;
    } else {
      var n := |messages| - 1;
      SendAllSplits(c, messages[..n], oks[..n]);
      var before, last := SendAllSnoc(c, messages, false, oks);
      SelectSnoc(messages, oks, true);
      SelectSnoc(messages, oks, false);
      var kept := if c.transport.Open? then Select(messages[..n], oks[..n], false) else messages[..n];
      Append(c.messageQueue, kept, messages[n]);
      assert messages[..n] + [messages[n]] == messages;
    }
  }

  lemma {:induction false} SendAllEphemeral(c: Client, messages: seq<ToServer>, oks: seq<bool>)
    requires |oks| == |messages|
    ensures var r := SendAll(c, messages, true, oks);
            && r.out == (if c.transport.Open? then Select(messages, oks, true) else [])
            && r.client == c
    decreases |messages|
  {
    if messages != [] {
      var n := |messages| - 1;
      SendAllEphemeral(c, messages[..n], oks[..n]);
    }
  }

  /** A flush hands the accepted part of the queue to the socket and queues the rest, each in order. */
  lemma FlushKeepsOrder(c: Client, names: seq<string>, subOks: seq<bool>, oks: seq<bool>)
    requires |subOks| == |names| && |oks| == |c.messageQueue| && c.transport.Open?
    ensures var r := HandleOnOpen(c, names, subOks, oks);
            && r.out == Select(Subscriptions(names), subOks, true) + Select(c.messageQueue, oks, true)
            && r.client == c.(messageQueue := Select(c.messageQueue, oks, false))
  {
    SendAllEphemeral(c, Subscriptions(names), subOks);
    SendAllSplits(c.(messageQueue := []), c.messageQueue, oks);
    assert [] + Select(c.messageQueue, oks, false) == Select(c.messageQueue, oks, false);
  }

  lemma {:induction false} AllSelected(messages: seq<ToServer>, oks: seq<bool>)
    requires |oks| == |messages| && false !in oks
    ensures Select(messages, oks, true) == messages && Select(messages, oks, false) == []
    decreases |messages|
  {
    if messages != [] {
      var n := |messages| - 1;
      assert oks[n] in oks;
      AllSelected(messages[..n], oks[..n]);
      assert messages == messages[..n] + [messages[n]];
    }
  }

  lemma OpenedSendsAll(c: Client, names: seq<string>, subOks: seq<bool>, oks: seq<bool>)
    requires |subOks| == |names| && |oks| == |c.messageQueue|
    ensures c.transport.Open? && false !in subOks && false !in oks ==>
              HandleOnOpen(c, names, subOks, oks) == Sent(c.(messageQueue := []), Subscriptions(names) + c.messageQueue)
    ensures !c.transport.Open? ==> HandleOnOpen(c, names, subOks, oks) == Sent(c, [])
  {
    if c.transport.Open? {
      FlushKeepsOrder(c, names, subOks, oks);
      if false !in subOks && false !in oks {
        AllSelected(Subscriptions(names), subOks);
        AllSelected(c.messageQueue, oks);
      }
    } else {
      SendAllEphemeral(c, Subscriptions(names), subOks);
      SendAllSplits(c.(messageQueue := []), c.messageQueue, oks);
      assert [] + c.messageQueue == c.messageQueue;
    }
  }

  // ---------- The object ----------

  /** The connection object; `wire` collects what it has handed to its current socket. */
  class ActorConn {
    var transport: Transport
    var messageQueue: seq<ToServer>
    var actionsInFlight: map<nat, string>
    var eventSubscriptions: map<string, Listeners>
    var actionIdCounter: nat
    var listenerCounter: nat
    var wire: seq<ToServer>

    ghost function State(): Client
      reads this
    {
      Client(transport, messageQueue, actionsInFlight, eventSubscriptions, actionIdCounter, listenerCounter)
    }

    ghost predicate IdsBelowCounter()
      reads this
    {
      forall id | id in actionsInFlight :: id < actionIdCounter
    }

    constructor ()
      ensures State() == NEW_CLIENT && wire == [] && IdsBelowCounter()
    {
      transport, messageQueue, wire := NoTransport, [], [];
      actionsInFlight, eventSubscriptions := map[], map[];
      actionIdCounter, listenerCounter := 0, 0;
    }

    method Send(message: ToServer, ephemeral: bool, ok: bool)
      modifies this`messageQueue, this`wire
      ensures transport.Open? && ok ==> wire == old(wire) + [message] && messageQueue == old(messageQueue)
      ensures !(transport.Open? && ok) ==>
                wire == old(wire) && messageQueue == old(messageQueue) + if ephemeral then [] else [message]
      ensures var r := SendMessage(old(State()), message, ephemeral, ok);
              State() == r.client && wire == old(wire) + r.out
    {
      var queueMessage := false;
      if transport == NoTransport {
        queueMessage := true;
      } else if transport == Open {
        if ok {
          wire := wire + [message];
        } else {
          queueMessage := true;
        }
      } else {
        queueMessage := true;
      }
      if !ephemeral && queueMessage {
        messageQueue := messageQueue + [message];
      }
    }

    /** Subscription requests are ephemeral: they are sent at once or never. */
    method SendSubscription(eventName: string, subscribe: bool, ok: bool)
      modifies this`messageQueue, this`wire
      ensures messageQueue == old(messageQueue)
      ensures wire == old(wire) + if transport.Open? && ok then [SubscriptionRequest(eventName, subscribe)] else []
      ensures var r := SendMessage(old(State()), SubscriptionRequest(eventName, subscribe), true, ok);
              State() == r.client && wire == old(wire) + r.out
    {
      Send(SubscriptionRequest(eventName, subscribe), true, ok);
    }

    /** The identifier is new, and its request is at the end of the wire or at the end of the queue, not both. */
    method StartAction(name: string, args: seq<string>, ok: bool) returns (actionId: nat)
      modifies this
      ensures actionsInFlight == old(actionsInFlight)[actionId := name] && actionIdCounter == old(actionIdCounter) + 1
      ensures eventSubscriptions == old(eventSubscriptions) && transport == old(transport)
      ensures old(IdsBelowCounter()) ==> IdsBelowCounter() && actionId !in old(actionsInFlight)
      ensures var request := ActionRequest(actionId, name, args);
              if transport.Open? && ok then wire == old(wire) + [request] && messageQueue == old(messageQueue)
              else wire == old(wire) && messageQueue == old(messageQueue) + [request]
      ensures actionId == old(actionIdCounter)
      ensures var r := Action(old(State()), name, args, ok);
              State() == r.client && wire == old(wire) + r.out
    {
      actionId := actionIdCounter;
      actionIdCounter := actionIdCounter + 1;
      actionsInFlight := actionsInFlight[actionId := name];
      Send(ActionRequest(actionId, name, args), false, ok);
    }

    /** If the socket takes everything, every event is subscribed again and then the whole queue goes out. */
    method Opened(names: seq<string>, subOks: seq<bool>, oks: seq<bool>)
      requires Enumerates(names, eventSubscriptions) && |subOks| == |names| && |oks| == |messageQueue|
      modifies this`messageQueue, this`wire
      ensures transport.Open? && false !in subOks && false !in oks ==>
                messageQueue == [] && wire == old(wire) + (Subscriptions(names) + old(messageQueue))
      ensures !transport.Open? ==> messageQueue == old(messageQueue) && wire == old(wire)
      ensures var r := HandleOnOpen(old(State()), names, subOks, oks);
              State() == r.client && wire == old(wire) + r.out
    {
      ghost var c, w := State(), wire;
      Resubscribe(names, subOks);
      Flush(oks);
      assert wire == w + HandleOnOpen(c, names, subOks, oks).out;
      OpenedSendsAll(c, names, subOks, oks);
    }

    method Resubscribe(names: seq<string>, oks: seq<bool>)
      requires |oks| == |names|
      modifies this`messageQueue, this`wire
      ensures State() == old(State())
      ensures wire == old(wire) + SendAll(old(State()), Subscriptions(names), true, oks).out
    {
      ghost var c, w := State(), wire;
      ghost var messages := Subscriptions(names);
      for k := 0 to |names|
        invariant var r := SendAll(c, messages[..k], true, oks[..k]);
                  State() == r.client && wire == w + r.out
      {
        assert messages[..k + 1][..k] == messages[..k] && oks[..k + 1][..k] == oks[..k];
        SendSubscription(names[k], true, oks[k]);
      }
      assert messages[..|names|] == messages && oks[..|names|] == oks;
      SendAllEphemeral(c, messages, oks);
    }

    method Flush(oks: seq<bool>)
      requires |oks| == |messageQueue|
      modifies this`messageQueue, this`wire
      ensures var r := SendAll(old(State()).(messageQueue := []), old(messageQueue), false, oks);
              State() == r.client && wire == old(wire) + r.out
    {
      ghost var c, w := State().(messageQueue := []), wire;
      var queue := messageQueue;
      messageQueue := [];
      for k := 0 to |queue|
        invariant var r := SendAll(c, queue[..k], false, oks[..k]);
                  State() == r.client && wire == w + r.out
      {
        assert queue[..k + 1][..k] == queue[..k] && oks[..k + 1][..k] == oks[..k];
        Send(queue[k], false, oks[k]);
      }
      assert queue[..|queue|] == queue && oks[..|queue|] == oks;
    }

    /** Whatever was in flight is in flight or settled, not both, and only the named action is settled. */
    method TakeActionInFlight(id: nat, outcome: Outcome) returns (settled: map<nat, Outcome>)
      modifies this`actionsInFlight
      ensures id !in actionsInFlight && settled.Keys <= {id}
      ensures old(actionsInFlight).Keys == actionsInFlight.Keys + settled.Keys && actionsInFlight.Keys !! settled.Keys
      ensures forall k | k in actionsInFlight :: actionsInFlight[k] == old(actionsInFlight)[k]
      ensures id in old(actionsInFlight) ==> settled == map[id := outcome]
      ensures Settled(State(), settled) == Settle(old(State()), id, outcome)
    {
      if id !in actionsInFlight {
        return map[];
      }
      actionsInFlight := actionsInFlight - {id};
      return map[id := outcome];
    }

    /**
     An error of an action other than 0 settles that action, if it is in flight, and leaves the others; an error
     without an action, or of action 0, settles everything that was in flight. Every outcome is a rejection with the code.
     */
    method ErrorReceived(code: string, actionId: Option<nat>) returns (settled: map<nat, Outcome>)
      modifies this`actionsInFlight
      ensures forall id | id in settled :: settled[id] == Rejected(code)
      ensures actionId == None || actionId == Some(0) ==>
                actionsInFlight == map[] && settled.Keys == old(actionsInFlight).Keys
      ensures actionId.Some? && actionId.value != 0 ==>
                actionsInFlight == old(actionsInFlight) - {actionId.value} &&
                settled.Keys == old(actionsInFlight).Keys * {actionId.value}
      ensures Settled(State(), settled) == HandleError(old(State()), code, actionId)
    {
      if actionId.Some? && actionId.value != 0 {
        settled := TakeActionInFlight(actionId.value, Rejected(code));
      } else {
        ghost var before := actionsInFlight;
        settled := map[];
        while actionsInFlight != map[]
          invariant actionsInFlight.Keys <= before.Keys
          invariant settled == map id | id in before && id !in actionsInFlight :: Rejected(code)
          invariant State() == old(State()).(actionsInFlight := actionsInFlight)
          decreases actionsInFlight.Keys
        {
          var id :| id in actionsInFlight;
          settled := settled[id := Rejected(code)];
          actionsInFlight := actionsInFlight - {id};
        }
      }
    }

    /** `called` are the listeners whose callback ran: all of them, of which the one-time ones are gone afterwards. */
    method EventReceived(name: string) returns (called: set<ListenerId>)
      modifies this`eventSubscriptions
      ensures State() == DispatchEvent(old(State()), name)
      ensures called == if name in old(eventSubscriptions) then old(eventSubscriptions)[name].Keys else {}
      ensures OnlyOnceGone(old(eventSubscriptions), eventSubscriptions, name)
    {
      DispatchEffect(State(), name);
      called := {};
      if name !in eventSubscriptions {
        return;
      }
      var listeners;
      called, listeners := CallListeners(eventSubscriptions[name]);
      if |listeners| == 0 {
        assert listeners == map[];
        eventSubscriptions := eventSubscriptions - {name};
      } else {
        eventSubscriptions := eventSubscriptions[name := listeners];
      }
    }

    /** The loop of `#dispatchEvent` over a copy of the listeners. */
    method CallListeners(all: Listeners) returns (called: set<ListenerId>, listeners: Listeners)
      ensures called == all.Keys && listeners == WithoutOnce(all)
    {
      called := {};
      listeners := all;
      var todo := all.Keys;
      while todo != {}
        invariant todo <= all.Keys && called == all.Keys - todo
        invariant listeners == map l | l in all && (l in todo || !all[l]) :: all[l]
        decreases todo
      {
        var l :| l in todo;
        todo := todo - {l};
        called := called + {l};
        if all[l] {
          listeners := listeners - {l};
        }
      }
    }

    /** The wire grows only if the event had no listener; the other events keep theirs. */
    method AddEventSubscription(eventName: string, once: bool, ok: bool) returns (listener: ListenerId)
      modifies this
      ensures eventName in eventSubscriptions && listener in eventSubscriptions[eventName]
      ensures eventSubscriptions[eventName] ==
                (if eventName in old(eventSubscriptions) then old(eventSubscriptions)[eventName]
                 else map[])[listener := once]
      ensures listenerCounter == listener + 1 && actionsInFlight == old(actionsInFlight) && transport == old(transport)
      ensures !(transport.Open? && ok) ==> wire == old(wire)
      ensures eventSubscriptions.Keys == old(eventSubscriptions).Keys + {eventName} && messageQueue == old(messageQueue)
      ensures forall e | e in old(eventSubscriptions) && e != eventName ::
                eventSubscriptions[e] == old(eventSubscriptions)[e]
      ensures eventName in old(eventSubscriptions) ==> wire == old(wire)
      ensures eventName !in old(eventSubscriptions) && transport.Open? && ok ==>
                wire == old(wire) + [SubscriptionRequest(eventName, true)]
      ensures listener == old(listenerCounter)
      ensures var r := AddListener(old(State()), eventName, once, ok);
              State() == r.client && wire == old(wire) + r.out
    {
      listener := listenerCounter;
      listenerCounter := listenerCounter + 1;
      if eventName !in eventSubscriptions {
        eventSubscriptions := eventSubscriptions[eventName := map[listener := once]];
        SendSubscription(eventName, true, ok);
      } else {
        var subscriptionSet: Listeners := eventSubscriptions[eventName];
        subscriptionSet := subscriptionSet[listener := once];
        eventSubscriptions := eventSubscriptions[eventName := subscriptionSet];
      }
    }

    /** The listener is gone, and the wire grows only if it was the last one of its event. */
    method Unsubscribe(eventName: string, listener: ListenerId, ok: bool)
      modifies this
      ensures eventName in eventSubscriptions ==>
                listener !in eventSubscriptions[eventName] && eventSubscriptions[eventName] != map[]
      ensures eventSubscriptions.Keys <= old(eventSubscriptions).Keys && messageQueue == old(messageQueue)
      ensures forall e | e in old(eventSubscriptions) && e != eventName ::
                e in eventSubscriptions && eventSubscriptions[e] == old(eventSubscriptions)[e]
      ensures eventName in old(eventSubscriptions) && old(eventSubscriptions)[eventName] - {listener} != map[] ==>
                eventName in eventSubscriptions &&
                eventSubscriptions[eventName] == old(eventSubscriptions)[eventName] - {listener}
      ensures actionsInFlight == old(actionsInFlight) && transport == old(transport)
      ensures wire == old(wire) +
                if eventName in old(eventSubscriptions) && eventName !in eventSubscriptions && transport.Open? && ok
                then [SubscriptionRequest(eventName, false)] else []
      ensures var r := RemoveListener(old(State()), eventName, listener, ok);
              State() == r.client && wire == old(wire) + r.out
    {
      if eventName in eventSubscriptions {
        var listeners := eventSubscriptions[eventName] - {listener};
        if |listeners| == 0 {
          eventSubscriptions := eventSubscriptions - {eventName};
          SendSubscription(eventName, false, ok);
        } else {
          eventSubscriptions := eventSubscriptions[eventName := listeners];
        }
      }
    }

    /** Nothing is settled by a close, and until the next socket opens every action request is queued. */
    method Closed()
      modifies this`transport
      ensures actionsInFlight == old(actionsInFlight) && eventSubscriptions == old(eventSubscriptions)
      ensures transport.NoTransport? && messageQueue == old(messageQueue)
      ensures forall m, ok ::
                SendMessage(State(), m, false, ok) == Sent(State().(messageQueue := old(messageQueue) + [m]), [])
      ensures State() == old(State()).(transport := NoTransport)
    {
      transport := NoTransport;
    }
  }
}
