/**
 Every action in flight has exactly one trace: its request in the client's queue, its request in the channel, its
 execution, its reply in the channel, or its loss with a closed socket.
 */
module TokenConservation {
  import opened Wrappers
  import opened ClientConns
  import opened ServerMessages
  import opened ConnSystem

  /** How many requests and replies of action `id` there are, in all the places where one can be. */
  function Live(w: World, id: nat): nat {
    Requests(w.client.messageQueue, id) + Requests(w.c2s, id) + Requests(w.executing, id) + Replies(w.s2c, id)
  }

  function Lost(w: World, id: nat): nat {
    Requests(w.history.lostRequests, id) + Replies(w.history.lostReplies, id)
  }

  function Tokens(w: World, id: nat): nat {
    Live(w, id) + Lost(w, id)
  }

  /** What one step adds to the tokens of an action: its call creates one, the arrival of a reply takes one. */
  function Created(w: World, step: Step, id: nat): nat {
    if step.CallAction? && w.client.actionIdCounter == id then 1 else 0
  }

  function Taken(w: World, step: Step, id: nat): nat
    requires Enabled(w, step)
  {
    if step.ClientReceives? && ReplyId(w.s2c[0]) == Some(id) then 1 else 0
  }

  lemma PutTokens(w: World, r: Sent, id: nat)
    ensures Tokens(Put(w, r), id) == Tokens(w, id) + Placed(r, id) - Requests(w.client.messageQueue, id)
  {
    RequestsConcat(w.c2s, r.out, id);
  }

  lemma CallTokens(w: World, name: string, args: seq<string>, ok: bool, id: nat)
    ensures Tokens(OnCall(w, name, args, ok), id) == Tokens(w, id) + (if w.client.actionIdCounter == id then 1 else 0)
  {
    var i := w.client.actionIdCounter;
    var c := w.client.(actionIdCounter := i + 1, actionsInFlight := w.client.actionsInFlight[i := name]);
    SendPlaces(c, ActionRequest(i, name, args), false, ok, id);
    PutTokens(w, Action(w.client, name, args, ok), id);
  }

  lemma ListenTokens(w: World, name: string, once: bool, ok: bool, id: nat)
    ensures Tokens(OnListen(w, name, once, ok), id) == Tokens(w, id)
  {
    var r := AddListener(w.client, name, once, ok);
    AddListenerFrame(w.client, name, once, ok);
    PutTokens(w, r, id);
    SubscriptionPlaces(r, id);
  }

  lemma UnlistenTokens(w: World, name: string, listener: ListenerId, ok: bool, id: nat)
    ensures Tokens(Put(w, RemoveListener(w.client, name, listener, ok)), id) == Tokens(w, id)
  {
    var r := RemoveListener(w.client, name, listener, ok);
    RemoveListenerFrame(w.client, name, listener, ok);
    PutTokens(w, r, id);
    SubscriptionPlaces(r, id);
  }

  lemma ServerReceivesTokens(w: World, id: nat)
    requires w.c2s != []
    ensures Tokens(OnServerReceives(w), id) == Tokens(w, id)
  {
    RequestsTail(w.c2s, id);
    RequestsSnoc(w.executing, w.c2s[0], id);
  }

  lemma ServerFinishesTokens(w: World, k: nat, result: ActionResult, id: nat)
    requires k < |w.executing| && w.executing[k].ActionRequest?
    ensures Tokens(OnServerFinishes(w, k, result), id) == Tokens(w, id)
  {
    RequestsRemove(w.executing, k, id);
    RepliesSnoc(w.s2c, Reply(w.executing[k].i, result), id);
  }

  lemma ServerSaysTokens(w: World, m: ToClient, id: nat)
    requires ReplyId(m).None?
    ensures Tokens(w.(s2c := w.s2c + [m]), id) == Tokens(w, id)
  {
    RepliesSnoc(w.s2c, m, id);
  }

  lemma CloseTokens(w: World, id: nat)
    ensures Tokens(OnClose(w), id) == Tokens(w, id)
  {
    RequestsConcat(w.c2s, w.executing, id);
    RequestsConcat(w.history.lostRequests, w.c2s + w.executing, id);
    RepliesConcat(w.history.lostReplies, w.s2c, id);
  }

  lemma InitTokens(w: World, names: seq<string>, subOks: seq<bool>, oks: seq<bool>, id: nat)
    requires w.s2c != [] && w.s2c[0].Init? && |subOks| == |names| && |oks| == |w.client.messageQueue|
    ensures Tokens(OnClientReceives(w, names, subOks, oks), id) == Tokens(w, id)
  {
    var r := HandleOnOpen(w.client, names, subOks, oks);
    RepliesTail(w.s2c, id);
    OpenPlaces(w.client, names, subOks, oks, id);
    PutTokens(w, r, id);
  }

  lemma ReceiveTokens(w: World, names: seq<string>, subOks: seq<bool>, oks: seq<bool>, id: nat)
    requires w.s2c != [] && |subOks| == |names| && |oks| == |w.client.messageQueue|
    ensures Tokens(OnClientReceives(w, names, subOks, oks), id) ==
              Tokens(w, id) - (if ReplyId(w.s2c[0]) == Some(id) then 1 else 0)
  {
    if w.s2c[0].Init? {
      InitTokens(w, names, subOks, oks, id);
    } else {
      ReceiveKeepsQueue(w, names, subOks, oks);
      RepliesTail(w.s2c, id);
    }
  }

  lemma NextTokens(w: World, step: Step, id: nat)
    requires Enabled(w, step)
    ensures Tokens(Next(w, step), id) == Tokens(w, id) + Created(w, step, id) - Taken(w, step, id)
  {
    match step {
      case Close => CloseTokens(w, id);
      case CallAction(name, args, ok) => CallTokens(w, name, args, ok, id);
      case Listen(name, once, ok) => ListenTokens(w, name, once, ok, id);
      case Unlisten(name, listener, ok) => UnlistenTokens(w, name, listener, ok, id);
      case ServerAccepts => ServerSaysTokens(w, Init, id);
      case ServerReceives => ServerReceivesTokens(w, id);
      case ServerFinishes(k, result) => ServerFinishesTokens(w, k, result, id);
      case ServerErrors(code) => ServerSaysTokens(w, Error(code, None), id);
      case ServerBroadcasts(name) => ServerSaysTokens(w, Event(name, []), id);
      case ClientReceives(names, subOks, oks) => ReceiveTokens(w, names, subOks, oks, id);
      case Connect =>
      case SocketOpens =>
      case SocketFails =>
      case ServerStartsOrphan(_) =>
    }
  }

  /** What the arrival of a reply does to the identifiers in flight and the answered actions. */
  lemma ReplyIds(w: World, m: ToClient, r: Settled)
    requires w.s2c != [] && r.client.actionIdCounter == w.client.actionIdCounter
    requires forall id | id in r.client.actionsInFlight :: id in w.client.actionsInFlight && ReplyId(m) != Some(id)
    ensures var v := OnReply(w, m, r);
            && v.client.actionIdCounter == w.client.actionIdCounter
            && (forall id :: id in v.history.answered <==> id in w.history.answered || ReplyId(m) == Some(id))
            && (forall id | id in v.client.actionsInFlight :: id in w.client.actionsInFlight && ReplyId(m) != Some(id))
  {
  }

  lemma ReceiveIds(w: World, names: seq<string>, subOks: seq<bool>, oks: seq<bool>)
    requires w.s2c != [] && |subOks| == |names| && |oks| == |w.client.messageQueue|
    ensures var v := OnClientReceives(w, names, subOks, oks);
            && v.client.actionIdCounter == w.client.actionIdCounter
            && (forall id :: id in v.history.answered <==> id in w.history.answered || ReplyId(w.s2c[0]) == Some(id))
            && (forall id | id in v.client.actionsInFlight ::
                  id in w.client.actionsInFlight && ReplyId(w.s2c[0]) != Some(id))
  {
    match w.s2c[0] {
      case Init => OpenKeepsClient(w.client, names, subOks, oks);
      case Error(code, ai) => ReplyIds(w, w.s2c[0], HandleError(w.client, code, ai));
      case ActionResponse(i, o) => ReplyIds(w, w.s2c[0], Settle(w.client, i, Resolved(o)));
      case Event(n, _) => DispatchFrame(w.client, n);
    }
  }

  /** What a step does to the identifiers of the client and to the answered actions. */
  lemma NextIds(w: World, step: Step)
    requires Enabled(w, step)
    ensures var v := Next(w, step);
            && v.client.actionIdCounter == w.client.actionIdCounter + (if step.CallAction? then 1 else 0)
            && (forall id :: id in v.history.answered <==> id in w.history.answered || Taken(w, step, id) == 1)
            && (forall id | id in v.client.actionsInFlight ::
                  (id in w.client.actionsInFlight || Created(w, step, id) == 1) && Taken(w, step, id) == 0)
  {
    match step {
      case Unlisten(name, listener, ok) => RemoveListenerFrame(w.client, name, listener, ok);
      case Listen(name, once, ok) => AddListenerFrame(w.client, name, once, ok);
      case ClientReceives(names, subOks, oks) => ReceiveIds(w, names, subOks, oks);
      case _ =>
    }
  }

  /** Every action whose reply has not arrived has exactly one token, and only such actions are in flight. */
  ghost predicate TokenInv(w: World) {
    && (forall id: nat :: Tokens(w, id) == if id < w.client.actionIdCounter && id !in w.history.answered then 1 else 0)
    && (forall id | id in w.history.answered :: id < w.client.actionIdCounter)
    && (forall id | id in w.client.actionsInFlight :: id < w.client.actionIdCounter && id !in w.history.answered)
  }

  lemma NextKeepsTokenInv(w: World, step: Step)
    requires TokenInv(w) && Enabled(w, step)
    ensures TokenInv(Next(w, step))
  {
    var v := Next(w, step);
    NextIds(w, step);
    forall id: nat ensures Tokens(v, id) == if id < v.client.actionIdCounter && id !in v.history.answered then 1 else 0 {
      NextTokens(w, step, id);
    }
    forall id | id in v.history.answered ensures id < v.client.actionIdCounter {
      NextTokens(w, step, id);
    }
  }

  lemma {:induction false} RunTokenInv(states: seq<World>, steps: seq<Step>, i: nat)
    requires IsRun(states, steps) && i < |states|
    ensures TokenInv(states[i])
  {
    if i == 0 {
      InitialTokens();
    } else {
      RunTokenInv(states, steps, i - 1);
      NextKeepsTokenInv(states[i - 1], steps[i - 1]);
    }
  }

  lemma InitialTokens()
    ensures TokenInv(INITIAL)
  {
    forall id: nat ensures Tokens(INITIAL, id) == 0 {
    }
  }

  /** In every run, through any number of sockets, an action in flight has exactly one token. */
  lemma TokenConserved(states: seq<World>, steps: seq<Step>, i: nat, id: nat)
    requires IsRun(states, steps) && i < |states| && id in states[i].client.actionsInFlight
    ensures Live(states[i], id) + Lost(states[i], id) == 1
  {
    RunTokenInv(states, steps, i);
    assert Tokens(states[i], id) == 1;
  }

  lemma OnlyClosingLoses(w: World, step: Step)
    requires Enabled(w, step) && !step.Close?
    ensures Next(w, step).history.lostRequests == w.history.lostRequests
    ensures Next(w, step).history.lostReplies == w.history.lostReplies
  {
    match step {
      case ClientReceives(names, subOks, oks) =>
        if !w.s2c[0].Init? {
          ReceiveKeepsQueue(w, names, subOks, oks);
        }
      case Connect =>
      case SocketOpens =>
      case SocketFails =>
      case CallAction(_, _, _) =>
      case Listen(_, _, _) =>
      case Unlisten(_, _, _) =>
      case ServerAccepts =>
      case ServerReceives =>
      case ServerFinishes(_, _) =>
      case ServerErrors(_) =>
      case ServerBroadcasts(_) =>
      case ServerStartsOrphan(_) =>
    }
  }

  lemma {:induction false} NothingLostUnbroken(states: seq<World>, steps: seq<Step>, i: nat)
    requires IsRun(states, steps) && i < |states|
    requires forall k | 0 <= k < i :: !steps[k].Close?
    ensures states[i].history.lostRequests == [] && states[i].history.lostReplies == []
  {
    if i > 0 {
      NothingLostUnbroken(states, steps, i - 1);
      OnlyClosingLoses(states[i - 1], steps[i - 1]);
    }
  }

  /** On one unbroken socket the token is never lost: it is in the queue, a channel or the execution. */
  lemma TokenConservedUnbroken(states: seq<World>, steps: seq<Step>, i: nat, id: nat)
    requires IsRun(states, steps) && i < |states| && id in states[i].client.actionsInFlight
    requires forall k | 0 <= k < i :: !steps[k].Close?
    ensures var w := states[i];
            Requests(w.client.messageQueue, id) + Requests(w.c2s, id) +
              Requests(w.executing, id) + Replies(w.s2c, id) == 1
  {
    TokenConserved(states, steps, i, id);
    NothingLostUnbroken(states, steps, i);
  }

  // ---------- The queue across reconnects ----------

  lemma PutPlaces(w: World, r: Sent, id: nat)
    ensures var v := Put(w, r);
            Requests(v.client.messageQueue, id) + Requests(v.history.handed, id) ==
              Placed(r, id) + Requests(w.history.handed, id)
  {
    RequestsConcat(w.history.handed, r.out, id);
  }

  lemma NextPlaced(w: World, step: Step, id: nat)
    requires Enabled(w, step)
    ensures var v := Next(w, step);
            Requests(v.client.messageQueue, id) + Requests(v.history.handed, id) ==
              Requests(w.client.messageQueue, id) + Requests(w.history.handed, id) + Created(w, step, id)
  {
    match step {
      case CallAction(name, args, ok) =>
        var i := w.client.actionIdCounter;
        var c := w.client.(actionIdCounter := i + 1, actionsInFlight := w.client.actionsInFlight[i := name]);
        SendPlaces(c, ActionRequest(i, name, args), false, ok, id);
        PutPlaces(w, Action(w.client, name, args, ok), id);
      case Listen(name, once, ok) =>
        var r := AddListener(w.client, name, once, ok);
        AddListenerFrame(w.client, name, once, ok);
        SubscriptionPlaces(r, id);
        PutPlaces(w, r, id);
      case Unlisten(name, listener, ok) =>
        var r := RemoveListener(w.client, name, listener, ok);
        RemoveListenerFrame(w.client, name, listener, ok);
        SubscriptionPlaces(r, id);
        PutPlaces(w, r, id);
      case ClientReceives(names, subOks, oks) => ReceivePlaced(w, names, subOks, oks, id);
      case _ =>
    }
  }

  lemma ReceivePlaced(w: World, names: seq<string>, subOks: seq<bool>, oks: seq<bool>, id: nat)
    requires w.s2c != [] && |subOks| == |names| && |oks| == |w.client.messageQueue|
    ensures var v := OnClientReceives(w, names, subOks, oks);
            Requests(v.client.messageQueue, id) + Requests(v.history.handed, id) ==
              Requests(w.client.messageQueue, id) + Requests(w.history.handed, id)
  {
    if w.s2c[0].Init? {
      OpenPlaces(w.client, names, subOks, oks, id);
      PutPlaces(w, HandleOnOpen(w.client, names, subOks, oks), id);
    } else {
      ReceiveKeepsQueue(w, names, subOks, oks);
    }
  }

  /** Across any number of reconnects, every accepted request was handed to a socket once or is queued once. */
  lemma {:induction false} QueueConserved(states: seq<World>, steps: seq<Step>, i: nat, id: nat)
    requires IsRun(states, steps) && i < |states|
    ensures Requests(states[i].client.messageQueue, id) + Requests(states[i].history.handed, id) ==
              if id < states[i].client.actionIdCounter then 1 else 0
  {
    if i > 0 {
      QueueConserved(states, steps, i - 1, id);
      NextPlaced(states[i - 1], steps[i - 1], id);
      NextIds(states[i - 1], steps[i - 1]);
    }
  }
}
