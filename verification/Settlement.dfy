/**
 How actions end: each is settled at most once, a resolved action carries an output that the server produced for
 that very request, and no request is started twice, however many sockets it takes.
 */
module Settlement {
  import opened Wrappers
  import opened ClientConns
  import opened ServerMessages
  import opened ConnSystem

  // ---------- In flight or settled ----------

  /** Every identifier below the counter is either in flight or settled, and no other identifier is. */
  ghost predicate Partition(w: World) {
    forall id: nat ::
      && (id < w.client.actionIdCounter <==> id in w.client.actionsInFlight || id in w.history.settled)
      && !(id in w.client.actionsInFlight && id in w.history.settled)
  }

  /** Settled actions stay settled, with the outcome they have. */
  ghost predicate KeepsSettled(w: World, v: World) {
    forall id | id in w.history.settled :: id in v.history.settled && v.history.settled[id] == w.history.settled[id]
  }

  /** A reply takes the actions that it settles out of flight, and no others. */
  ghost predicate Splits(c: Client, r: Settled) {
    && r.client.actionIdCounter == c.actionIdCounter
    && (forall id :: id in c.actionsInFlight <==> id in r.client.actionsInFlight || id in r.settled)
    && (forall id :: !(id in r.client.actionsInFlight && id in r.settled))
  }

  lemma SettleSplits(c: Client, id: nat, outcome: Outcome)
    ensures Splits(c, Settle(c, id, outcome))
  {
  }

  lemma HandleErrorSplits(c: Client, code: string, ai: Option<nat>)
    ensures Splits(c, HandleError(c, code, ai))
  {
  }

  lemma ReplyKeepsPartition(w: World, m: ToClient, r: Settled)
    requires Partition(w) && w.s2c != [] && Splits(w.client, r)
    ensures Partition(OnReply(w, m, r)) && KeepsSettled(w, OnReply(w, m, r))
  {
  }

  lemma ReceiveKeepsPartition(w: World, names: seq<string>, subOks: seq<bool>, oks: seq<bool>)
    requires Partition(w) && w.s2c != [] && |subOks| == |names| && |oks| == |w.client.messageQueue|
    ensures var v := OnClientReceives(w, names, subOks, oks); Partition(v) && KeepsSettled(w, v)
  {
    match w.s2c[0] {
      case Init => OpenKeepsClient(w.client, names, subOks, oks);
      case Error(code, ai) =>
        HandleErrorSplits(w.client, code, ai);
        ReplyKeepsPartition(w, w.s2c[0], HandleError(w.client, code, ai));
      case ActionResponse(i, o) =>
        SettleSplits(w.client, i, Resolved(o));
        ReplyKeepsPartition(w, w.s2c[0], Settle(w.client, i, Resolved(o)));
      case Event(n, _) => DispatchFrame(w.client, n);
    }
  }

  lemma NextKeepsPartition(w: World, step: Step)
    requires Partition(w) && Enabled(w, step)
    ensures Partition(Next(w, step)) && KeepsSettled(w, Next(w, step))
  {
    match step {
      case Unlisten(name, listener, ok) => RemoveListenerFrame(w.client, name, listener, ok);
      case Listen(name, once, ok) => AddListenerFrame(w.client, name, once, ok);
      case ClientReceives(names, subOks, oks) => ReceiveKeepsPartition(w, names, subOks, oks);
      case _ =>
    }
  }

  lemma {:induction false} RunPartition(states: seq<World>, steps: seq<Step>, i: nat)
    requires IsRun(states, steps) && i < |states|
    ensures Partition(states[i])
  {
    if i > 0 {
      RunPartition(states, steps, i - 1);
      NextKeepsPartition(states[i - 1], steps[i - 1]);
    }
  }

  lemma StepKeepsSettled(states: seq<World>, steps: seq<Step>, i: nat)
    requires IsRun(states, steps) && i < |steps|
    ensures KeepsSettled(states[i], states[i + 1])
  {
    RunPartition(states, steps, i);
    NextKeepsPartition(states[i], steps[i]);
  }

  lemma KeepsSettledOn(u: World, v: World, w: World)
    requires KeepsSettled(u, v) && KeepsSettled(v, w)
    ensures KeepsSettled(u, w)
  {
  }

  /** An action is settled at most once: whatever outcome it has at some point of a run, it keeps. */
  lemma {:induction false} SettledOnce(states: seq<World>, steps: seq<Step>, i: nat, j: nat)
    requires IsRun(states, steps) && i <= j < |states|
    ensures KeepsSettled(states[i], states[j])
    decreases j - i
  {
    if i < j {
      SettledOnce(states, steps, i, j - 1);
      StepKeepsSettled(states, steps, j - 1);
      KeepsSettledOn(states[i], states[j - 1], states[j]);
    }
  }

  // ---------- No request is started twice ----------

  /** How often the request of an action has been started or still can be. */
  function Starts(w: World, id: nat): nat {
    Requests(w.client.messageQueue, id) + Requests(w.c2s, id) + Requests(w.orphans, id) + Requests(w.history.started, id)
  }

  lemma PutStarts(w: World, r: Sent, id: nat)
    ensures Starts(Put(w, r), id) == Starts(w, id) + Placed(r, id) - Requests(w.client.messageQueue, id)
  {
    RequestsConcat(w.c2s, r.out, id);
  }

  lemma NoRequestPlaced(w: World, r: Sent, id: nat)
    requires r.client.messageQueue == w.client.messageQueue
    requires r.out == [] || (|r.out| == 1 && r.out[0].SubscriptionRequest?)
    ensures Starts(Put(w, r), id) == Starts(w, id)
  {
    PutStarts(w, r, id);
    SubscriptionPlaces(r, id);
  }

  lemma CallStarts(w: World, name: string, args: seq<string>, ok: bool, id: nat)
    ensures Starts(OnCall(w, name, args, ok), id) == Starts(w, id) + (if w.client.actionIdCounter == id then 1 else 0)
  {
    var i := w.client.actionIdCounter;
    var c := w.client.(actionIdCounter := i + 1, actionsInFlight := w.client.actionsInFlight[i := name]);
    SendPlaces(c, ActionRequest(i, name, args), false, ok, id);
    PutStarts(w, Action(w.client, name, args, ok), id);
  }

  lemma ReceiveStarts(w: World, names: seq<string>, subOks: seq<bool>, oks: seq<bool>, id: nat)
    requires w.s2c != [] && |subOks| == |names| && |oks| == |w.client.messageQueue|
    ensures Starts(OnClientReceives(w, names, subOks, oks), id) == Starts(w, id)
  {
    if w.s2c[0].Init? {
      OpenPlaces(w.client, names, subOks, oks, id);
      PutStarts(w, HandleOnOpen(w.client, names, subOks, oks), id);
    } else {
      ReceiveKeepsQueue(w, names, subOks, oks);
    }
  }

  lemma ServerReceivesStarts(w: World, id: nat)
    requires w.c2s != []
    ensures Starts(OnServerReceives(w), id) == Starts(w, id)
  {
    RequestsTail(w.c2s, id);
    RequestsSnoc(w.history.started, w.c2s[0], id);
  }

  lemma OrphanStarts(w: World, k: nat, id: nat)
    requires k < |w.orphans|
    ensures Starts(OnServerStartsOrphan(w, k), id) == Starts(w, id)
  {
    RequestsRemove(w.orphans, k, id);
    RequestsSnoc(w.history.started, w.orphans[k], id);
  }

  lemma NextStarts(w: World, step: Step, id: nat)
    requires Enabled(w, step)
    ensures Starts(Next(w, step), id) ==
              Starts(w, id) + (if step.CallAction? && w.client.actionIdCounter == id then 1 else 0)
  {
    match step {
      case Close => RequestsConcat(w.orphans, w.c2s, id);
      case CallAction(name, args, ok) => CallStarts(w, name, args, ok, id);
      case Listen(name, once, ok) =>
        AddListenerFrame(w.client, name, once, ok);
        NoRequestPlaced(w, AddListener(w.client, name, once, ok), id);
      case Unlisten(name, listener, ok) =>
        RemoveListenerFrame(w.client, name, listener, ok);
        NoRequestPlaced(w, RemoveListener(w.client, name, listener, ok), id);
      case ServerReceives => ServerReceivesStarts(w, id);
      case ServerStartsOrphan(k) => OrphanStarts(w, k, id);
      case ClientReceives(names, subOks, oks) => ReceiveStarts(w, names, subOks, oks, id);
      case Connect =>
      case SocketOpens =>
      case SocketFails =>
      case ServerAccepts =>
      case ServerFinishes(_, _) =>
      case ServerErrors(_) =>
      case ServerBroadcasts(_) =>
    }
  }

  lemma NextCounter(w: World, step: Step)
    requires Enabled(w, step)
    ensures Next(w, step).client.actionIdCounter == w.client.actionIdCounter + (if step.CallAction? then 1 else 0)
  {
    match step {
      case Unlisten(name, listener, ok) => RemoveListenerFrame(w.client, name, listener, ok);
      case ClientReceives(names, subOks, oks) =>
        if w.s2c[0].Init? { OpenKeepsClient(w.client, names, subOks, oks); }
      case Connect =>
      case SocketOpens =>
      case SocketFails =>
      case Close =>
      case CallAction(_, _, _) =>
      case Listen(_, _, _) =>
      case ServerAccepts =>
      case ServerReceives =>
      case ServerFinishes(_, _) =>
      case ServerErrors(_) =>
      case ServerBroadcasts(_) =>
      case ServerStartsOrphan(_) =>
    }
  }

  /** At most once: over any number of reconnects the server starts the request of an action at most once. */
  lemma {:induction false} StartedAtMostOnce(states: seq<World>, steps: seq<Step>, i: nat, id: nat)
    requires IsRun(states, steps) && i < |states|
    ensures Requests(states[i].history.started, id) <= Starts(states[i], id) ==
              if id < states[i].client.actionIdCounter then 1 else 0
  {
    if i > 0 {
      StartedAtMostOnce(states, steps, i - 1, id);
      NextStarts(states[i - 1], steps[i - 1], id);
      NextCounter(states[i - 1], steps[i - 1]);
    }
  }

  // ---------- Outputs belong to their requests ----------

  /** A request travels as it was issued. */
  predicate Genuine(w: World, m: ToServer) {
    m.ActionRequest? ==> m.i in w.history.issued && w.history.issued[m.i] == m
  }

  ghost predicate RequestsGenuine(w: World) {
    && (forall id: nat :: id in w.history.issued <==> id < w.client.actionIdCounter)
    && (forall id | id in w.history.issued :: w.history.issued[id].ActionRequest? && w.history.issued[id].i == id)
    && (forall m | m in w.client.messageQueue || m in w.c2s || m in w.executing || m in w.orphans :: Genuine(w, m))
    && (forall m | m in w.executing :: m in w.history.started)
  }

  ghost predicate OutputsGenuine(w: World) {
    && (forall p | p in w.history.produced :: p.0 in w.history.issued && w.history.issued[p.0] in w.history.started)
    && (forall m | m in w.s2c && m.ActionResponse? :: (m.i, m.o) in w.history.produced)
    && (forall id | id in w.history.settled && w.history.settled[id].Resolved? ::
          (id, w.history.settled[id].output) in w.history.produced)
  }

  lemma OpenMembers(c: Client, names: seq<string>, subOks: seq<bool>, oks: seq<bool>)
    requires |subOks| == |names| && |oks| == |c.messageQueue|
    ensures var r := HandleOnOpen(c, names, subOks, oks);
            && (forall m | m in r.out :: m in c.messageQueue || m.SubscriptionRequest?)
            && (forall m | m in r.client.messageQueue :: m in c.messageQueue)
  {
    var subs := Subscriptions(names);
    SendAllEphemeral(c, subs, subOks);
    SelectedAreOld(subs, subOks, true);
    SendAllSplits(c.(messageQueue := []), c.messageQueue, oks);
    SelectedAreOld(c.messageQueue, oks, true);
    SelectedAreOld(c.messageQueue, oks, false);
  }

  lemma ReceiveKeepsRequests(w: World, names: seq<string>, subOks: seq<bool>, oks: seq<bool>)
    requires RequestsGenuine(w) && w.s2c != [] && |subOks| == |names| && |oks| == |w.client.messageQueue|
    ensures RequestsGenuine(OnClientReceives(w, names, subOks, oks))
  {
    if w.s2c[0].Init? {
      OpenMembers(w.client, names, subOks, oks);
      OpenKeepsClient(w.client, names, subOks, oks);
    } else {
      ReceiveKeepsQueue(w, names, subOks, oks);
    }
  }

  lemma CallKeepsRequests(w: World, name: string, args: seq<string>, ok: bool)
    requires RequestsGenuine(w)
    ensures RequestsGenuine(OnCall(w, name, args, ok))
  {
    var v := OnCall(w, name, args, ok);
    var m := ActionRequest(w.client.actionIdCounter, name, args);
    assert Genuine(v, m);
    forall x | Genuine(w, x) ensures Genuine(v, x) {
    }
  }

  /** Requests that leave the client's side or the server's side keep the others as they are. */
  lemma FewerKeepsRequests(w: World, v: World)
    requires RequestsGenuine(w) && v.history.issued == w.history.issued
    requires v.client.messageQueue == w.client.messageQueue && v.client.actionIdCounter == w.client.actionIdCounter
    requires forall m | m in v.c2s || m in v.executing || m in v.orphans ::
               m in w.c2s || m in w.executing || m in w.orphans || m.SubscriptionRequest?
    requires forall m | m in v.executing :: m in v.history.started
    ensures RequestsGenuine(v)
  {
    forall m | m in v.client.messageQueue || m in v.c2s || m in v.executing || m in v.orphans ensures Genuine(v, m) {
      assert Genuine(w, m);
    }
  }

  lemma FinishKeepsRequests(w: World, k: nat, result: ActionResult)
    requires RequestsGenuine(w) && k < |w.executing| && w.executing[k].ActionRequest?
    ensures RequestsGenuine(OnServerFinishes(w, k, result))
  {
    var v := OnServerFinishes(w, k, result);
    assert forall m | m in v.executing :: m in w.executing;
    FewerKeepsRequests(w, v);
  }

  lemma OrphanKeepsRequests(w: World, k: nat)
    requires RequestsGenuine(w) && k < |w.orphans|
    ensures RequestsGenuine(OnServerStartsOrphan(w, k))
  {
    var v := OnServerStartsOrphan(w, k);
    assert forall m | m in v.orphans :: m in w.orphans;
    FewerKeepsRequests(w, v);
  }

  lemma NextKeepsRequests(w: World, step: Step)
    requires RequestsGenuine(w) && Enabled(w, step)
    ensures RequestsGenuine(Next(w, step))
  {
    match step {
      case Unlisten(name, listener, ok) =>
        RemoveListenerFrame(w.client, name, listener, ok);
        FewerKeepsRequests(w, Next(w, step));
      case Listen(name, once, ok) =>
        AddListenerFrame(w.client, name, once, ok);
        FewerKeepsRequests(w, Next(w, step));
      case CallAction(name, args, ok) => CallKeepsRequests(w, name, args, ok);
      case ServerReceives =>
        assert w.c2s[0] in w.c2s;
        FewerKeepsRequests(w, Next(w, step));
      case Close => FewerKeepsRequests(w, Next(w, step));
      case ServerFinishes(k, result) => FinishKeepsRequests(w, k, result);
      case ServerStartsOrphan(k) => OrphanKeepsRequests(w, k);
      case ClientReceives(names, subOks, oks) => ReceiveKeepsRequests(w, names, subOks, oks);
      case _ =>
    }
  }

  /** A reply adds to the settled actions only outputs that the server produced for them. */
  lemma ReplyKeepsOutputs(w: World, m: ToClient, r: Settled)
    requires OutputsGenuine(w) && w.s2c != []
    requires forall id | id in r.settled && r.settled[id].Resolved? :: (id, r.settled[id].output) in w.history.produced
    ensures OutputsGenuine(OnReply(w, m, r))
  {
  }

  lemma ReceiveKeepsOutputs(w: World, names: seq<string>, subOks: seq<bool>, oks: seq<bool>)
    requires OutputsGenuine(w) && w.s2c != [] && |subOks| == |names| && |oks| == |w.client.messageQueue|
    ensures OutputsGenuine(OnClientReceives(w, names, subOks, oks))
  {
    assert w.s2c[0] in w.s2c;
    match w.s2c[0] {
      case Init =>
      case Error(code, ai) => ReplyKeepsOutputs(w, w.s2c[0], HandleError(w.client, code, ai));
      case ActionResponse(i, o) => ReplyKeepsOutputs(w, w.s2c[0], Settle(w.client, i, Resolved(o)));
      case Event(n, _) =>
    }
  }

  lemma FinishKeepsOutputs(w: World, k: nat, result: ActionResult)
    requires RequestsGenuine(w) && OutputsGenuine(w) && k < |w.executing| && w.executing[k].ActionRequest?
    ensures OutputsGenuine(OnServerFinishes(w, k, result))
  {
    assert w.executing[k] in w.executing;
  }

  lemma NextKeepsOutputs(w: World, step: Step)
    requires RequestsGenuine(w) && OutputsGenuine(w) && Enabled(w, step)
    ensures OutputsGenuine(Next(w, step))
  {
    match step {
      case ServerFinishes(k, result) => FinishKeepsOutputs(w, k, result);
      case ClientReceives(names, subOks, oks) => ReceiveKeepsOutputs(w, names, subOks, oks);
      case Connect =>
      case SocketOpens =>
      case SocketFails =>
      case Close =>
      case CallAction(_, _, _) =>
      case Listen(_, _, _) =>
      case Unlisten(_, _, _) =>
      case ServerAccepts =>
      case ServerReceives =>
      case ServerErrors(_) =>
      case ServerBroadcasts(_) =>
      case ServerStartsOrphan(_) =>
    }
  }

  lemma {:induction false} RunGenuine(states: seq<World>, steps: seq<Step>, i: nat)
    requires IsRun(states, steps) && i < |states|
    ensures RequestsGenuine(states[i]) && OutputsGenuine(states[i])
  {
    if i > 0 {
      RunGenuine(states, steps, i - 1);
      NextKeepsRequests(states[i - 1], steps[i - 1]);
      NextKeepsOutputs(states[i - 1], steps[i - 1]);
    }
  }

  // ---------- Rejections have a cause ----------

  /** An error names an action that threw it, or was raised for the whole connection. */
  predicate ErrorGenuine(w: World, m: ToClient) {
    m.Error? ==> if m.ai.Some? then (m.ai.value, m.code) in w.history.thrown else m.code in w.history.raised
  }

  /** An error has arrived for the action itself, for action 0, or for the whole connection. */
  predicate Caused(w: World, id: nat, code: string) {
    exists ai :: Error(code, ai) in w.history.arrived && ai in {Some(id), Some(0), None}
  }

  ghost predicate RejectionsCaused(w: World) {
    && (forall m | m in w.s2c || m in w.history.arrived :: ErrorGenuine(w, m))
    && (forall p | p in w.history.thrown :: p.0 in w.history.issued && w.history.issued[p.0] in w.history.started)
    && (forall id | id in w.history.settled && w.history.settled[id].Rejected? ::
          Caused(w, id, w.history.settled[id].code))
  }

  lemma ReplyKeepsCauses(w: World, m: ToClient, r: Settled)
    requires RejectionsCaused(w) && w.s2c != [] && m == w.s2c[0]
    requires forall id | id in r.settled && r.settled[id].Rejected? ::
               m.Error? && m.code == r.settled[id].code && m.ai in {Some(id), Some(0), None}
    ensures RejectionsCaused(OnReply(w, m, r))
  {
    var v := OnReply(w, m, r);
    assert forall x | x in v.s2c || x in v.history.arrived :: x in w.s2c || x in w.history.arrived;
    forall id | id in v.history.settled && v.history.settled[id].Rejected?
      ensures Caused(v, id, v.history.settled[id].code)
    {
      if id in r.settled {
        assert Error(m.code, m.ai) in v.history.arrived;
      } else {
        var ai :| Error(v.history.settled[id].code, ai) in w.history.arrived && ai in {Some(id), Some(0), None};
        assert Error(v.history.settled[id].code, ai) in v.history.arrived;
      }
    }
  }

  lemma ErrorOutcomes(c: Client, code: string, ai: Option<nat>)
    ensures forall id | id in HandleError(c, code, ai).settled ::
              HandleError(c, code, ai).settled[id] == Rejected(code) && ai in {Some(id), Some(0), None}
  {
  }

  lemma ReceiveKeepsCauses(w: World, names: seq<string>, subOks: seq<bool>, oks: seq<bool>)
    requires RejectionsCaused(w) && w.s2c != [] && |subOks| == |names| && |oks| == |w.client.messageQueue|
    ensures RejectionsCaused(OnClientReceives(w, names, subOks, oks))
  {
    match w.s2c[0] {
      case Init => SameCauses(w, OnClientReceives(w, names, subOks, oks));
      case Error(code, ai) =>
        ErrorOutcomes(w.client, code, ai);
        ReplyKeepsCauses(w, w.s2c[0], HandleError(w.client, code, ai));
      case ActionResponse(i, o) => ReplyKeepsCauses(w, w.s2c[0], Settle(w.client, i, Resolved(o)));
      case Event(n, _) => SameCauses(w, OnClientReceives(w, names, subOks, oks));
    }
  }

  lemma SameCauses(w: World, v: World)
    requires RejectionsCaused(w) && forall m | m in v.s2c :: m in w.s2c || !m.Error?
    requires v.history.arrived == w.history.arrived && v.history.settled == w.history.settled
    requires v.history.thrown == w.history.thrown && w.history.raised <= v.history.raised
    requires forall id | id in w.history.issued :: id in v.history.issued && v.history.issued[id] == w.history.issued[id]
    requires forall m | m in w.history.started :: m in v.history.started
    ensures RejectionsCaused(v)
  {
    forall id | id in v.history.settled && v.history.settled[id].Rejected?
      ensures Caused(v, id, v.history.settled[id].code)
    {
      assert Caused(w, id, w.history.settled[id].code);
    }
  }

  lemma FinishKeepsCauses(w: World, k: nat, result: ActionResult)
    requires RequestsGenuine(w) && RejectionsCaused(w) && k < |w.executing| && w.executing[k].ActionRequest?
    ensures RejectionsCaused(OnServerFinishes(w, k, result))
  {
    var v := OnServerFinishes(w, k, result);
    assert w.executing[k] in w.executing;
    forall id | id in v.history.settled && v.history.settled[id].Rejected?
      ensures Caused(v, id, v.history.settled[id].code)
    {
      assert Caused(w, id, w.history.settled[id].code);
    }
  }

  lemma NextKeepsCauses(w: World, step: Step)
    requires RequestsGenuine(w) && RejectionsCaused(w) && Enabled(w, step)
    ensures RejectionsCaused(Next(w, step))
  {
    match step {
      case ServerFinishes(k, result) => FinishKeepsCauses(w, k, result);
      case ClientReceives(names, subOks, oks) => ReceiveKeepsCauses(w, names, subOks, oks);
      case ServerErrors(code) => RaiseKeepsCauses(w, code);
      case Connect => SameCauses(w, Next(w, step));
      case SocketOpens => SameCauses(w, Next(w, step));
      case SocketFails => SameCauses(w, Next(w, step));
      case Close => SameCauses(w, Next(w, step));
      case CallAction(_, _, _) => SameCauses(w, Next(w, step));
      case Listen(_, _, _) => SameCauses(w, Next(w, step));
      case Unlisten(_, _, _) => SameCauses(w, Next(w, step));
      case ServerAccepts => SameCauses(w, Next(w, step));
      case ServerReceives => SameCauses(w, Next(w, step));
      case ServerBroadcasts(_) => SameCauses(w, Next(w, step));
      case ServerStartsOrphan(_) => SameCauses(w, Next(w, step));
    }
  }

  lemma RaiseKeepsCauses(w: World, code: string)
    requires RejectionsCaused(w) && w.accepted
    ensures RejectionsCaused(Next(w, ServerErrors(code)))
  {
    var v := Next(w, ServerErrors(code));
    forall id | id in v.history.settled && v.history.settled[id].Rejected?
      ensures Caused(v, id, v.history.settled[id].code)
    {
      assert Caused(w, id, w.history.settled[id].code);
    }
  }

  lemma {:induction false} RunCauses(states: seq<World>, steps: seq<Step>, i: nat)
    requires IsRun(states, steps) && i < |states|
    ensures RejectionsCaused(states[i])
  {
    if i > 0 {
      RunCauses(states, steps, i - 1);
      RunGenuine(states, steps, i - 1);
      NextKeepsCauses(states[i - 1], steps[i - 1]);
    }
  }

  /**
   An action is rejected with a code only if the server threw that code for this very action or for action 0, or raised
   it for the whole connection, and that error has arrived.
   */
  lemma RejectedForCause(states: seq<World>, steps: seq<Step>, i: nat, id: nat)
    requires IsRun(states, steps) && i < |states|
    requires id in states[i].history.settled && states[i].history.settled[id].Rejected?
    ensures var h, code := states[i].history, states[i].history.settled[id].code;
            || (Error(code, Some(id)) in h.arrived && (id, code) in h.thrown)
            || (Error(code, Some(0)) in h.arrived && (0, code) in h.thrown)
            || (Error(code, None) in h.arrived && code in h.raised)
  {
    RunCauses(states, steps, i);
    var h, code := states[i].history, states[i].history.settled[id].code;
    var ai :| Error(code, ai) in h.arrived && ai in {Some(id), Some(0), None};
    assert ErrorGenuine(states[i], Error(code, ai));
  }

  /** A client on an open socket that has received its init message. */
  lemma OpenedRun() returns (states: seq<World>, steps: seq<Step>)
    ensures IsRun(states, steps)
    ensures states[|steps|] == INITIAL.(client := NEW_CLIENT.(transport := Open), accepted := true, initReceived := true)
  {
    var s1 := INITIAL.(client := NEW_CLIENT.(transport := Connecting));
    var s2 := INITIAL.(client := NEW_CLIENT.(transport := Open));
    var s3 := s2.(accepted := true, s2c := [Init]);
    states, steps := OneMoreStep([INITIAL], [], INITIAL, Connect);
    states, steps := OneMoreStep(states, steps, s1, SocketOpens);
    states, steps := OneMoreStep(states, steps, s2, ServerAccepts);
    states, steps := OneMoreStep(states, steps, s3, ClientReceives([], [], []));
  }

  /** Two actions have been called on it, and both are executing. */
  lemma TwoActionsRun() returns (states: seq<World>, steps: seq<Step>)
    ensures IsRun(states, steps)
    ensures var w := states[|steps|];
            && w.client.transport.Open? && w.client.messageQueue == [] && w.client.eventSubscriptions == map[]
            && w.client.actionsInFlight == map[0 := "f", 1 := "g"]
            && w.s2c == [] && w.executing == [ActionRequest(0, "f", []), ActionRequest(1, "g", [])]
            && w.history.settled == map[] && w.history.thrown == {} && w.history.raised == {}
  {
    states, steps := OpenedRun();
    var f, g := ActionRequest(0, "f", []), ActionRequest(1, "g", []);
    states, steps := OneMoreStep(states, steps, states[|steps|], CallAction("f", [], true));
    assert states[|steps|].c2s == [f];
    states, steps := OneMoreStep(states, steps, states[|steps|], CallAction("g", [], true));
    assert states[|steps|].c2s == [f, g];
    states, steps := OneMoreStep(states, steps, states[|steps|], ServerReceives);
    assert states[|steps|].c2s == [g] && states[|steps|].executing == [f];
    states, steps := OneMoreStep(states, steps, states[|steps|], ServerReceives);
  }

  /** The error of action 0 rejects action 1, which is still executing. */
  lemma ActionZeroRejectsOthers() returns (states: seq<World>, steps: seq<Step>)
    ensures IsRun(states, steps)
    ensures var w := states[|steps|];
            && 1 in w.history.settled && w.history.settled[1] == Rejected("boom")
            && ActionRequest(1, "g", []) in w.executing && w.history.thrown == {(0, "boom")} && w.history.raised == {}
  {
    states, steps := TwoActionsRun();
    states, steps := OneMoreStep(states, steps, states[|steps|], ServerFinishes(0, Thrown("boom")));
    assert states[|steps|].s2c == [Error("boom", Some(0))];
    states, steps := OneMoreStep(states, steps, states[|steps|], ClientReceives([], [], []));
    assert states[|steps|].executing == [ActionRequest(1, "g", [])];
  }

  lemma {:induction false} MemberCounted(s: seq<ToServer>, m: ToServer)
    requires m in s && m.ActionRequest?
    ensures Requests(s, m.i) >= 1
    decreases |s|
  {
    if s[|s| - 1] != m {
      assert m in s[..|s| - 1];
      MemberCounted(s[..|s| - 1], m);
    }
  }

  /**
   End to end: an action that resolves with an output was started by the server exactly once, as the client issued it,
   and the output is one that the server produced for it.
   */
  lemma ResolvedGenuinely(states: seq<World>, steps: seq<Step>, i: nat, id: nat)
    requires IsRun(states, steps) && i < |states|
    requires id in states[i].history.settled && states[i].history.settled[id].Resolved?
    ensures var h := states[i].history;
            && (id, h.settled[id].output) in h.produced
            && id in h.issued && h.issued[id] in h.started && Requests(h.started, id) == 1
  {
    RunGenuine(states, steps, i);
    var h := states[i].history;
    assert (id, h.settled[id].output) in h.produced;
    MemberCounted(h.started, h.issued[id]);
    StartedAtMostOnce(states, steps, i, id);
  }
}
