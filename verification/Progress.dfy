/**
 What the connection achieves when nothing goes wrong: replies settle what they name, a call on a quiet socket
 resolves, a reconnect sends what had been queued, and a broadcast reaches the listeners.
 */
module Progress {
  import opened Wrappers
  import opened ClientConns
  import opened ServerMessages
  import opened ConnSystem
  import opened Settlement
  import opened SubscriptionAgreement

  // ---------- Arriving replies ----------

  /** The outcome that an arriving message has for an action in flight, if it has one. */
  function OutcomeFor(m: ToClient, id: nat): Option<Outcome> {
    match m
    case ActionResponse(i, o) => if i == id then Some(Resolved(o)) else None
    case Error(code, ai) => if ai in {None, Some(0), Some(id)} then Some(Rejected(code)) else None
    case Init => None
    case Event(_, _) => None
  }

  lemma ArrivalSettles(w: World, names: seq<string>, subOks: seq<bool>, oks: seq<bool>, id: nat)
    requires w.s2c != [] && |subOks| == |names| && |oks| == |w.client.messageQueue| && id in w.client.actionsInFlight
    ensures var v, outcome := OnClientReceives(w, names, subOks, oks), OutcomeFor(w.s2c[0], id);
            if outcome.Some? then
              id !in v.client.actionsInFlight && id in v.history.settled && v.history.settled[id] == outcome.value
            else id in v.client.actionsInFlight
  {
    match w.s2c[0] {
      case Init => OpenKeepsClient(w.client, names, subOks, oks);
      case Error(_, _) =>
      case ActionResponse(_, _) =>
      case Event(n, _) => DispatchFrame(w.client, n);
    }
  }

  /** An error of the action, of action 0, or without an action. */
  predicate Rejects(m: ToClient, id: nat) {
    m.Error? && (m.ai == None || m.ai == Some(0) || m.ai == Some(id))
  }

  /**
   In every run, an action in flight when a message arrives is settled by it, for good, if the message is its response,
   its error, the error of action 0 or an error without an action; by any other message it stays in flight.
   */
  lemma ArrivedReplySettles(states: seq<World>, steps: seq<Step>, i: nat, j: nat, id: nat)
    requires IsRun(states, steps) && i < j < |states| && steps[i].ClientReceives?
    requires id in states[i].client.actionsInFlight
    ensures var m := states[i].s2c[0];
            && (m.ActionResponse? && m.i == id ==>
                  id in states[j].history.settled && states[j].history.settled[id] == Resolved(m.o))
            && (Rejects(m, id) ==>
                  id in states[j].history.settled && states[j].history.settled[id] == Rejected(m.code))
            && (!(m.ActionResponse? && m.i == id) && !Rejects(m, id) ==>
                  id in states[i + 1].client.actionsInFlight)
  {
    ArrivalSettles(states[i], steps[i].names, steps[i].subOks, steps[i].oks, id);
    SettledOnce(states, steps, i + 1, j);
  }

  // ---------- A call on a quiet socket ----------

  /** The messages on the wire have been received and answered. */
  predicate Quiet(w: World) {
    w.client.transport.Open? && w.accepted && w.c2s == [] && w.s2c == []
  }

  lemma CallIsSent(w: World, name: string, args: seq<string>)
    requires Quiet(w)
    ensures var v, request := OnCall(w, name, args, true), ActionRequest(w.client.actionIdCounter, name, args);
            && v.c2s == [request] && v.s2c == [] && v.accepted && v.executing == w.executing
            && v.client == w.client.(actionIdCounter := w.client.actionIdCounter + 1,
                                     actionsInFlight := w.client.actionsInFlight[request.i := name])
  {
    assert w.c2s + [ActionRequest(w.client.actionIdCounter, name, args)] ==
           [ActionRequest(w.client.actionIdCounter, name, args)];
  }

  lemma RequestIsReceived(w: World, m: ToServer)
    requires w.c2s == [m] && m.ActionRequest?
    ensures var v := OnServerReceives(w);
            && v.executing == w.executing + [m] && v.s2c == w.s2c && v.client == w.client
  {
  }

  lemma LastFinishes(w: World, m: ToServer, o: string)
    requires w.executing != [] && w.executing[|w.executing| - 1] == m && m.ActionRequest? && w.s2c == []
    ensures var v := OnServerFinishes(w, |w.executing| - 1, Output(o));
            && v.s2c == [ActionResponse(m.i, o)] && v.client == w.client
  {
  }

  /** From any quiet state, a call whose request, execution and response succeed resolves with the server's output. */
  lemma CallResolves(states: seq<World>, steps: seq<Step>, name: string, args: seq<string>, o: string,
                     names: seq<string>, subOks: seq<bool>, oks: seq<bool>)
    returns (states': seq<World>, steps': seq<Step>)
    requires IsRun(states, steps) && Quiet(states[|steps|])
    requires Enumerates(names, states[|steps|].client.eventSubscriptions)
    requires |subOks| == |names| && |oks| == |states[|steps|].client.messageQueue|
    ensures steps' == steps + [CallAction(name, args, true), ServerReceives,
                               ServerFinishes(|states[|steps|].executing|, Output(o)),
                               ClientReceives(names, subOks, oks)]
    ensures IsRun(states', steps')
    ensures var id, settled := states[|steps|].client.actionIdCounter, states'[|steps'|].history.settled;
            id in settled && settled[id] == Resolved(o)
  {
    var w := states[|steps|];
    var m := ActionRequest(w.client.actionIdCounter, name, args);
    CallIsSent(w, name, args);
    states', steps' := OneMoreStep(states, steps, w, CallAction(name, args, true));
    RequestIsReceived(states'[|steps'|], m);
    states', steps' := OneMoreStep(states', steps', states'[|steps'|], ServerReceives);
    LastFinishes(states'[|steps'|], m, o);
    states', steps' := OneMoreStep(states', steps', states'[|steps'|], ServerFinishes(|w.executing|, Output(o)));
    ArrivalSettles(states'[|steps'|], names, subOks, oks, m.i);
    states', steps' := OneMoreStep(states', steps', states'[|steps'|], ClientReceives(names, subOks, oks));
  }

  lemma LastThrows(w: World, m: ToServer, code: string)
    requires w.executing != [] && w.executing[|w.executing| - 1] == m && m.ActionRequest? && w.s2c == []
    ensures var v := OnServerFinishes(w, |w.executing| - 1, Thrown(code));
            && v.s2c == [Error(code, Some(m.i))] && v.client == w.client
  {
  }

  /** From any quiet state, a call whose action throws is rejected with the code that it threw. */
  lemma CallRejects(states: seq<World>, steps: seq<Step>, name: string, args: seq<string>, code: string,
                    names: seq<string>, subOks: seq<bool>, oks: seq<bool>)
    returns (states': seq<World>, steps': seq<Step>)
    requires IsRun(states, steps) && Quiet(states[|steps|])
    requires Enumerates(names, states[|steps|].client.eventSubscriptions)
    requires |subOks| == |names| && |oks| == |states[|steps|].client.messageQueue|
    ensures steps' == steps + [CallAction(name, args, true), ServerReceives,
                               ServerFinishes(|states[|steps|].executing|, Thrown(code)),
                               ClientReceives(names, subOks, oks)]
    ensures IsRun(states', steps')
    ensures var id, settled := states[|steps|].client.actionIdCounter, states'[|steps'|].history.settled;
            id in settled && settled[id] == Rejected(code)
  {
    var w := states[|steps|];
    var m := ActionRequest(w.client.actionIdCounter, name, args);
    CallIsSent(w, name, args);
    states', steps' := OneMoreStep(states, steps, w, CallAction(name, args, true));
    RequestIsReceived(states'[|steps'|], m);
    states', steps' := OneMoreStep(states', steps', states'[|steps'|], ServerReceives);
    LastThrows(states'[|steps'|], m, code);
    states', steps' := OneMoreStep(states', steps', states'[|steps'|], ServerFinishes(|w.executing|, Thrown(code)));
    ArrivalSettles(states'[|steps'|], names, subOks, oks, m.i);
    states', steps' := OneMoreStep(states', steps', states'[|steps'|], ClientReceives(names, subOks, oks));
  }

  /** From any quiet state, an error that the server raises for the connection rejects every action in flight. */
  lemma ConnectionErrorRejectsAll(states: seq<World>, steps: seq<Step>, code: string, names: seq<string>,
                                  subOks: seq<bool>, oks: seq<bool>, id: nat)
    returns (states': seq<World>, steps': seq<Step>)
    requires IsRun(states, steps) && Quiet(states[|steps|]) && id in states[|steps|].client.actionsInFlight
    requires Enumerates(names, states[|steps|].client.eventSubscriptions)
    requires |subOks| == |names| && |oks| == |states[|steps|].client.messageQueue|
    ensures steps' == steps + [ServerErrors(code), ClientReceives(names, subOks, oks)] && IsRun(states', steps')
    ensures var v := states'[|steps'|];
            id !in v.client.actionsInFlight && id in v.history.settled && v.history.settled[id] == Rejected(code)
  {
    states', steps' := OneMoreStep(states, steps, states[|steps|], ServerErrors(code));
    assert states'[|steps'|].s2c == [Error(code, None)];
    ArrivalSettles(states'[|steps'|], names, subOks, oks, id);
    states', steps' := OneMoreStep(states', steps', states'[|steps'|], ClientReceives(names, subOks, oks));
  }

  // ---------- A reconnect ----------

  /** Without a transport there is no socket, and nothing is left of the last one. */
  predicate NoSocket(w: World) {
    w.client.transport.NoTransport? ==> !w.accepted && w.c2s == [] && w.s2c == [] && w.executing == []
  }

  /** Only the steps of the socket itself change the transport, and only an open socket takes messages. */
  lemma TransportKept(w: World, step: Step)
    requires Enabled(w, step) && !step.Connect? && !step.SocketOpens? && !step.SocketFails? && !step.Close?
    ensures Next(w, step).client.transport == w.client.transport
    ensures w.client.transport.NoTransport? ==> Next(w, step).c2s == w.c2s || step.ServerReceives?
  {
    match step {
      case Unlisten(name, listener, ok) => RemoveListenerSends(w, name, listener, ok);
      case Listen(name, once, ok) => AddListenerFrame(w.client, name, once, ok);
      case ClientReceives(names, subOks, oks) =>
        if w.s2c[0].Init? {
          OpenKeepsClient(w.client, names, subOks, oks);
        } else {
          ReceiveKeepsQueue(w, names, subOks, oks);
        }
      case CallAction(_, _, _) =>
      case ServerAccepts =>
      case ServerReceives =>
      case ServerFinishes(_, _) =>
      case ServerErrors(_) =>
      case ServerBroadcasts(_) =>
      case ServerStartsOrphan(_) =>
    }
  }

  lemma RemoveListenerSends(w: World, name: string, listener: ListenerId, ok: bool)
    ensures var r := RemoveListener(w.client, name, listener, ok);
            r.client.transport == w.client.transport && (r.out != [] ==> w.client.transport.Open?)
  {
    RemoveListenerFrame(w.client, name, listener, ok);
  }

  lemma NextKeepsNoSocket(w: World, step: Step)
    requires NoSocket(w) && Enabled(w, step)
    ensures NoSocket(Next(w, step))
  {
    if !step.Connect? && !step.SocketOpens? && !step.SocketFails? && !step.Close? {
      TransportKept(w, step);
    }
  }

  lemma {:induction false} RunKeepsNoSocket(states: seq<World>, steps: seq<Step>, i: nat)
    requires IsRun(states, steps) && i < |states|
    ensures NoSocket(states[i])
  {
    if i > 0 {
      RunKeepsNoSocket(states, steps, i - 1);
      NextKeepsNoSocket(states[i - 1], steps[i - 1]);
    }
  }

  /**
   From any state without a socket, a new socket that takes everything carries a subscription for every event with a
   listener and then everything that was queued, in order, and nothing stays behind.
   */
  lemma ReconnectSendsQueue(states: seq<World>, steps: seq<Step>, names: seq<string>, subOks: seq<bool>, oks: seq<bool>)
    returns (states': seq<World>, steps': seq<Step>)
    requires IsRun(states, steps) && states[|steps|].client.transport.NoTransport?
    requires Enumerates(names, states[|steps|].client.eventSubscriptions)
    requires |subOks| == |names| && |oks| == |states[|steps|].client.messageQueue|
    requires false !in subOks && false !in oks
    ensures steps' == steps + [Connect, SocketOpens, ServerAccepts, ClientReceives(names, subOks, oks)]
    ensures IsRun(states', steps')
    ensures var v := states'[|steps'|];
            && v.client == states[|steps|].client.(transport := Open, messageQueue := [])
            && v.initReceived && v.lost == {}
            && v.c2s == Subscriptions(names) + states[|steps|].client.messageQueue
  {
    var w := states[|steps|];
    RunKeepsNoSocket(states, steps, |steps|);
    states', steps' := OneMoreStep(states, steps, w, Connect);
    states', steps' := OneMoreStep(states', steps', states'[|steps'|], SocketOpens);
    states', steps' := OneMoreStep(states', steps', states'[|steps'|], ServerAccepts);
    var u := states'[|steps'|];
    assert u.s2c == [Init] && u.c2s == [] && u.client == w.client.(transport := Open);
    InitSendsAll(u, names, subOks, oks);
    states', steps' := OneMoreStep(states', steps', u, ClientReceives(names, subOks, oks));
  }

  /** A socket that closes takes with it what was in its channels, and nothing that the client still holds. */
  lemma CloseKeepsClient(w: World)
    requires Enabled(w, Close)
    ensures var v := Next(w, Close);
            && v.client == w.client.(transport := NoTransport)
            && v.c2s == [] && v.s2c == [] && v.executing == [] && v.subscribed == {} && !v.accepted && !v.initReceived
            && v.orphans == w.orphans + w.c2s
  {
  }

  /** So whatever socket a client loses, the next one that takes everything carries all its events and its whole queue. */
  lemma ReconnectAfterClose(states: seq<World>, steps: seq<Step>, names: seq<string>, subOks: seq<bool>, oks: seq<bool>)
    returns (states': seq<World>, steps': seq<Step>)
    requires IsRun(states, steps) && Enabled(states[|steps|], Close)
    requires Enumerates(names, states[|steps|].client.eventSubscriptions)
    requires |subOks| == |names| && |oks| == |states[|steps|].client.messageQueue|
    requires false !in subOks && false !in oks
    ensures steps' == steps + [Close, Connect, SocketOpens, ServerAccepts, ClientReceives(names, subOks, oks)]
    ensures IsRun(states', steps')
    ensures states'[|steps'|].client.messageQueue == []
    ensures states'[|steps'|].c2s == Subscriptions(names) + states[|steps|].client.messageQueue
    ensures states'[|steps'|].client.actionsInFlight == states[|steps|].client.actionsInFlight
  {
    CloseKeepsClient(states[|steps|]);
    states', steps' := OneMoreStep(states, steps, states[|steps|], Close);
    states', steps' := ReconnectSendsQueue(states', steps', names, subOks, oks);
  }

  lemma InitSendsAll(w: World, names: seq<string>, subOks: seq<bool>, oks: seq<bool>)
    requires w.client.transport.Open? && w.s2c == [Init] && w.c2s == []
    requires |subOks| == |names| && |oks| == |w.client.messageQueue| && false !in subOks && false !in oks
    ensures var v := OnClientReceives(w, names, subOks, oks);
            && v.client == w.client.(messageQueue := []) && v.initReceived && v.lost == {}
            && v.c2s == Subscriptions(names) + w.client.messageQueue
  {
    OpenedSendsAll(w.client, names, subOks, oks);
    assert LostNames(names, subOks) == {} by {
      forall k | 0 <= k < |names| ensures subOks[k] {
        assert subOks[k] in subOks;
      }
    }
    assert [] + (Subscriptions(names) + w.client.messageQueue) == Subscriptions(names) + w.client.messageQueue;
  }

  // ---------- Broadcasts ----------

  /** Once the server has processed what the client sent, a broadcast is on its way to every listener of the event. */
  lemma BroadcastReachesListeners(states: seq<World>, steps: seq<Step>, i: nat, e: string)
    requires IsRun(states, steps) && i < |states|
    requires states[i].client.transport.Open? && states[i].initReceived && states[i].c2s == []
    requires e in states[i].client.eventSubscriptions && e !in states[i].lost
    requires Enabled(states[i], ServerBroadcasts(e))
    ensures Next(states[i], ServerBroadcasts(e)).s2c == states[i].s2c + [Event(e, [])]
  {
    SubscriptionsAgree(states, steps, i);
    assert e in Fold(states[i].subscribed, states[i].c2s);
  }
}
