/**
 A client connection and the actor behind it as one system: a FIFO channel each way, actions that run
 concurrently at the server and end in any order, sockets that come and go. One socket at a time.
 */
module ConnSystem {
  import opened Wrappers
  import opened ClientConns
  import opened ServerMessages

  /**
   What has happened so far: the request of each action, the settled actions, the actions whose reply has
   arrived and all replies that have, the requests and the replies that went down with a socket, the requests the
   server has started, the outputs and the errors of its actions, the errors it has raised for the whole
   connection, and the messages that the client has handed to a socket.
   */
  datatype History = History(issued: map<nat, ToServer>, settled: map<nat, Outcome>, answered: set<nat>,
                             arrived: set<ToClient>, lostRequests: seq<ToServer>, lostReplies: seq<ToClient>,
                             started: seq<ToServer>, produced: set<(nat, string)>, thrown: set<(nat, string)>,
                             raised: set<string>, handed: seq<ToServer>)

  /**
   `c2s` and `s2c` are the channels of the current socket, `executing` its running actions and `subscribed` the
   server's subscriptions for it. `lost` are the events whose latest subscription request on it went down in a
   failed send. `orphans` are requests of closed sockets that the server may still start.
   */
  datatype World = World(client: Client, c2s: seq<ToServer>, executing: seq<ToServer>, s2c: seq<ToClient>,
                         subscribed: set<string>, accepted: bool, initReceived: bool, lost: set<string>,
                         orphans: seq<ToServer>, history: History)

  const INITIAL := World(NEW_CLIENT, [], [], [], {}, false, false, {}, [],
                         History(map[], map[], {}, {}, [], [], [], {}, {}, {}, []))

  datatype Step =
    | Connect
    | SocketOpens
    | SocketFails
    | Close
    | CallAction(name: string, args: seq<string>, ok: bool)
    | Listen(name: string, once: bool, ok: bool)
    | Unlisten(name: string, listener: ListenerId, ok: bool)
    | ServerAccepts
    | ServerReceives
    | ServerFinishes(k: nat, result: ActionResult)
    | ServerErrors(code: string)
    | ServerBroadcasts(name: string)
    | ServerStartsOrphan(k: nat)
    | ClientReceives(names: seq<string>, subOks: seq<bool>, oks: seq<bool>)

  predicate Enabled(w: World, step: Step) {
    match step
    case Connect => w.client.transport.NoTransport?
    case SocketOpens => w.client.transport.Connecting?
    case SocketFails => !w.client.transport.NoTransport?
    case Close => !w.client.transport.NoTransport?
    case CallAction(_, _, _) => true
    case Listen(_, _, _) => true
    case Unlisten(_, _, _) => true
    case ServerAccepts => !w.client.transport.NoTransport? && !w.accepted
    case ServerReceives => w.accepted && w.c2s != []
    case ServerFinishes(k, _) => k < |w.executing| && w.executing[k].ActionRequest?
    case ServerErrors(_) => w.accepted
    case ServerBroadcasts(_) => w.accepted
    case ServerStartsOrphan(k) => k < |w.orphans|
    case ClientReceives(names, subOks, oks) =>
      && w.s2c != [] && (w.client.transport.Open? || w.client.transport.Closing?)
      && Enumerates(names, w.client.eventSubscriptions)
      && |subOks| == |names| && |oks| == |w.client.messageQueue|
  }

  // ---------- Counting the traces of actions ----------

  /** How many requests of action `id` a sequence holds. */
  function Requests(s: seq<ToServer>, id: nat): nat
    decreases |s|
  {
    if s == [] then 0
    else Requests(s[..|s| - 1], id) + (if s[|s| - 1].ActionRequest? && s[|s| - 1].i == id then 1 else 0)
  }

  /** How many replies to action `id` a sequence holds. */
  function Replies(s: seq<ToClient>, id: nat): nat
    decreases |s|
  {
    if s == [] then 0
    else Replies(s[..|s| - 1], id) + (if ReplyId(s[|s| - 1]) == Some(id) then 1 else 0)
  }

  lemma {:induction false} RequestsConcat(a: seq<ToServer>, b: seq<ToServer>, id: nat)
    ensures Requests(a + b, id) == Requests(a, id) + Requests(b, id)
    decreases |b|
  {
    if b == [] {
      assert a + b == a;
    } else {
      assert (a + b)[..|a + b| - 1] == a + b[..|b| - 1];
      RequestsConcat(a, b[..|b| - 1], id);
    }
  }

  lemma {:induction false} RepliesConcat(a: seq<ToClient>, b: seq<ToClient>, id: nat)
    ensures Replies(a + b, id) == Replies(a, id) + Replies(b, id)
    decreases |b|
  {
    if b == [] {
      assert a + b == a;
    } else {
      assert (a + b)[..|a + b| - 1] == a + b[..|b| - 1];
      RepliesConcat(a, b[..|b| - 1], id);
    }
  }

  lemma RequestsSnoc(s: seq<ToServer>, m: ToServer, id: nat)
    ensures Requests(s + [m], id) == Requests(s, id) + (if m.ActionRequest? && m.i == id then 1 else 0)
  {
    assert (s + [m])[..|s|] == s;
  }

  lemma RepliesSnoc(s: seq<ToClient>, m: ToClient, id: nat)
    ensures Replies(s + [m], id) == Replies(s, id) + (if ReplyId(m) == Some(id) then 1 else 0)
  {
    assert (s + [m])[..|s|] == s;
  }

  lemma RequestsRemove(s: seq<ToServer>, k: nat, id: nat)
    requires k < |s|
    ensures Requests(s, id) ==
              Requests(s[..k] + s[k + 1..], id) + (if s[k].ActionRequest? && s[k].i == id then 1 else 0)
  {
    assert s == (s[..k] + [s[k]]) + s[k + 1..];
    RequestsConcat(s[..k] + [s[k]], s[k + 1..], id);
    RequestsSnoc(s[..k], s[k], id);
    RequestsConcat(s[..k], s[k + 1..], id);
  }

  lemma RequestsTail(s: seq<ToServer>, id: nat)
    requires s != []
    ensures Requests(s, id) == Requests(s[1..], id) + (if s[0].ActionRequest? && s[0].i == id then 1 else 0)
  {
    RequestsRemove(s, 0, id);
    assert s[..0] + s[1..] == s[1..];
  }

  lemma RepliesTail(s: seq<ToClient>, id: nat)
    requires s != []
    ensures Replies(s, id) == Replies(s[1..], id) + (if ReplyId(s[0]) == Some(id) then 1 else 0)
  {
    assert s == [s[0]] + s[1..];
    RepliesConcat([s[0]], s[1..], id);
    assert [s[0]] == [] + [s[0]];
    RepliesSnoc([], s[0], id);
  }

  lemma {:induction false} SelectSplitsRequests(s: seq<ToServer>, picks: seq<bool>, id: nat)
    requires |picks| == |s|
    ensures Requests(s, id) == Requests(Select(s, picks, true), id) + Requests(Select(s, picks, false), id)
    decreases |s|
  {
    if s != [] {
      var n := |s| - 1;
      var t, f := Select(s[..n], picks[..n], true), Select(s[..n], picks[..n], false);
      SelectSplitsRequests(s[..n], picks[..n], id);
      RequestsSnoc(t, s[n], id);
      RequestsSnoc(f, s[n], id);
      assert t + [] == t && f + [] == f;
    }
  }

  lemma {:induction false} OnlySubscriptions(s: seq<ToServer>, id: nat)
    requires forall m | m in s :: m.SubscriptionRequest?
    ensures Requests(s, id) == 0
    decreases |s|
  {
    if s != [] {
      assert s[|s| - 1] in s;
      OnlySubscriptions(s[..|s| - 1], id);
    }
  }

  lemma {:induction false} SelectedAreOld(s: seq<ToServer>, picks: seq<bool>, mark: bool)
    requires |picks| == |s|
    ensures forall m | m in Select(s, picks, mark) :: m in s
    decreases |s|
  {
    if s != [] {
      SelectedAreOld(s[..|s| - 1], picks[..|s| - 1], mark);
    }
  }

  // ---------- The steps ----------

  /** The client has handed messages to the current socket. */
  function Put(w: World, r: Sent): World {
    w.(client := r.client, c2s := w.c2s + r.out, history := w.history.(handed := w.history.handed + r.out))
  }

  function OnClose(w: World): World {
    w.(client := w.client.(transport := NoTransport), c2s := [], executing := [], s2c := [], subscribed := {},
       accepted := false, initReceived := false, lost := {}, orphans := w.orphans + w.c2s,
       history := w.history.(lostRequests := w.history.lostRequests + (w.c2s + w.executing),
                             lostReplies := w.history.lostReplies + w.s2c))
  }

  function OnCall(w: World, name: string, args: seq<string>, ok: bool): World {
    var id := w.client.actionIdCounter;
    var v := Put(w, Action(w.client, name, args, ok));
    v.(history := v.history.(issued := v.history.issued[id := ActionRequest(id, name, args)]))
  }

  function OnListen(w: World, name: string, once: bool, ok: bool): World {
    Put(w, AddListener(w.client, name, once, ok))
      .(lost := if name in w.client.eventSubscriptions then w.lost else if ok then w.lost - {name} else w.lost + {name})
  }

  function OnServerReceives(w: World): World
    requires w.c2s != []
  {
    var m := w.c2s[0];
    var v := w.(c2s := w.c2s[1..], subscribed := Apply(w.subscribed, m));
    if m.ActionRequest?
    then v.(executing := w.executing + [m], history := w.history.(started := w.history.started + [m]))
    else v
  }

  function OnServerFinishes(w: World, k: nat, result: ActionResult): World
    requires k < |w.executing| && w.executing[k].ActionRequest?
  {
    var m := w.executing[k];
    w.(executing := w.executing[..k] + w.executing[k + 1..],
       s2c := w.s2c + Process(INSTANCE_HANDLERS, w.subscribed, m, result).replies,
       history := if result.Output? then w.history.(produced := w.history.produced + {(m.i, result.output)})
                  else w.history.(thrown := w.history.thrown + {(m.i, result.code)}))
  }

  function OnServerStartsOrphan(w: World, k: nat): World
    requires k < |w.orphans|
  {
    var m := w.orphans[k];
    w.(orphans := w.orphans[..k] + w.orphans[k + 1..],
       history := if m.ActionRequest? then w.history.(started := w.history.started + [m]) else w.history)
  }

  /** A reply for an action, or an error for the whole connection. */
  function OnReply(w: World, m: ToClient, r: Settled): World
    requires w.s2c != []
  {
    w.(client := r.client, s2c := w.s2c[1..],
       history := w.history.(settled := w.history.settled + r.settled, arrived := w.history.arrived + {m},
                             answered := w.history.answered + if ReplyId(m).Some? then {ReplyId(m).value} else {}))
  }

  /** The events whose resubscription the socket did not take. */
  function LostNames(names: seq<string>, subOks: seq<bool>): set<string>
    requires |subOks| == |names|
  {
    set k | 0 <= k < |names| && !subOks[k] :: names[k]
  }

  function OnClientReceives(w: World, names: seq<string>, subOks: seq<bool>, oks: seq<bool>): World
    requires w.s2c != [] && |subOks| == |names| && |oks| == |w.client.messageQueue|
  {
    var m := w.s2c[0];
    match m
    case Init =>
      Put(w, HandleOnOpen(w.client, names, subOks, oks))
        .(s2c := w.s2c[1..], initReceived := true, lost := LostNames(names, subOks))
    case Error(code, ai) => OnReply(w, m, HandleError(w.client, code, ai))
    case ActionResponse(i, o) => OnReply(w, m, Settle(w.client, i, Resolved(o)))
    case Event(n, _) => w.(client := DispatchEvent(w.client, n), s2c := w.s2c[1..])
  }

  function Next(w: World, step: Step): World
    requires Enabled(w, step)
  {
    match step
    case Connect => w.(client := w.client.(transport := Connecting))
    case SocketOpens => w.(client := w.client.(transport := Open))
    case SocketFails => w.(client := w.client.(transport := Closing))
    case Close => OnClose(w)
    case CallAction(name, args, ok) => OnCall(w, name, args, ok)
    case Listen(name, once, ok) => OnListen(w, name, once, ok)
    case Unlisten(name, listener, ok) => Put(w, RemoveListener(w.client, name, listener, ok))
    case ServerAccepts => w.(accepted := true, s2c := w.s2c + [Init])
    case ServerReceives => OnServerReceives(w)
    case ServerFinishes(k, result) => OnServerFinishes(w, k, result)
    case ServerErrors(code) =>
      w.(s2c := w.s2c + [Error(code, None)], history := w.history.(raised := w.history.raised + {code}))
    case ServerBroadcasts(name) => if name in w.subscribed then w.(s2c := w.s2c + [Event(name, [])]) else w
    case ServerStartsOrphan(k) => OnServerStartsOrphan(w, k)
    case ClientReceives(names, subOks, oks) => OnClientReceives(w, names, subOks, oks)
  }

  ghost predicate IsRun(states: seq<World>, steps: seq<Step>) {
    && |states| == |steps| + 1
    && states[0] == INITIAL
    && forall i | 0 <= i < |steps| :: Enabled(states[i], steps[i]) && states[i + 1] == Next(states[i], steps[i])
  }

  lemma OneMoreStep(states: seq<World>, steps: seq<Step>, w: World, step: Step)
    returns (states': seq<World>, steps': seq<Step>)
    requires IsRun(states, steps) && w == states[|steps|] && Enabled(w, step)
    ensures steps' == steps + [step] && states' == states + [Next(w, step)]
    ensures IsRun(states', steps') && states'[|steps'|] == Next(w, step)
  {
    states', steps' := states + [Next(w, step)], steps + [step];
  }

  // ---------- What handing messages to the socket does ----------

  /** Queued or handed over: where the requests of action `id` are after a call of the client. */
  function Placed(r: Sent, id: nat): nat {
    Requests(r.client.messageQueue, id) + Requests(r.out, id)
  }

  /** A message is either handed over or queued, except that an ephemeral one may be dropped. */
  lemma SendPlaces(c: Client, m: ToServer, ephemeral: bool, ok: bool, id: nat)
    requires ephemeral ==> m.SubscriptionRequest?
    ensures Placed(SendMessage(c, m, ephemeral, ok), id) ==
              Requests(c.messageQueue, id) + (if m.ActionRequest? && m.i == id then 1 else 0)
  {
    RequestsSnoc(c.messageQueue, m, id);
    RequestsSnoc([], m, id);
    assert [] + [m] == [m];
  }

  lemma SubscriptionPlaces(r: Sent, id: nat)
    requires r.out == [] || (|r.out| == 1 && r.out[0].SubscriptionRequest?)
    ensures Placed(r, id) == Requests(r.client.messageQueue, id)
  {
    if r.out != [] {
      assert r.out == [] + [r.out[0]];
      RequestsSnoc([], r.out[0], id);
    }
  }

  lemma ResubscribePlaces(c: Client, names: seq<string>, subOks: seq<bool>, id: nat)
    requires |subOks| == |names|
    ensures Requests(SendAll(c, Subscriptions(names), true, subOks).out, id) == 0
  {
    var subs := Subscriptions(names);
    SendAllEphemeral(c, subs, subOks);
    SelectedAreOld(subs, subOks, true);
    OnlySubscriptions(SendAll(c, subs, true, subOks).out, id);
  }

  lemma FlushPlaces(c: Client, messages: seq<ToServer>, oks: seq<bool>, id: nat)
    requires |oks| == |messages| && c.messageQueue == []
    ensures Placed(SendAll(c, messages, false, oks), id) == Requests(messages, id)
  {
    SendAllSplits(c, messages, oks);
    SelectSplitsRequests(messages, oks, id);
    assert [] + messages == messages;
    assert [] + Select(messages, oks, false) == Select(messages, oks, false);
  }

  /** A flush moves requests from the queue to the socket and loses none. */
  lemma OpenPlaces(c: Client, names: seq<string>, subOks: seq<bool>, oks: seq<bool>, id: nat)
    requires |subOks| == |names| && |oks| == |c.messageQueue|
    ensures Placed(HandleOnOpen(c, names, subOks, oks), id) == Requests(c.messageQueue, id)
  {
    ResubscribePlaces(c, names, subOks, id);
    FlushPlaces(c.(messageQueue := []), c.messageQueue, oks, id);
    RequestsConcat(SendAll(c, Subscriptions(names), true, subOks).out,
                   SendAll(c.(messageQueue := []), c.messageQueue, false, oks).out, id);
  }

  lemma OpenKeepsClient(c: Client, names: seq<string>, subOks: seq<bool>, oks: seq<bool>)
    requires |subOks| == |names| && |oks| == |c.messageQueue|
    ensures var r := HandleOnOpen(c, names, subOks, oks).client; r == c.(messageQueue := r.messageQueue)
  {
    SendAllSplits(c.(messageQueue := []), c.messageQueue, oks);
  }

  // ---------- What the arrival of anything but an init message leaves alone ----------

  /** Only promises and listeners of the client change. */
  ghost predicate KeepsQueue(w: World, v: World) {
    && v.client == w.client.(actionsInFlight := v.client.actionsInFlight,
                             eventSubscriptions := v.client.eventSubscriptions)
    && v == w.(client := v.client, s2c := v.s2c, history := v.history)
    && v.history == w.history.(settled := v.history.settled, answered := v.history.answered,
                               arrived := v.history.arrived)
  }

  lemma ReplyKeepsQueue(w: World, m: ToClient, r: Settled)
    requires w.s2c != [] && r.client == w.client.(actionsInFlight := r.client.actionsInFlight)
    ensures KeepsQueue(w, OnReply(w, m, r)) && OnReply(w, m, r).s2c == w.s2c[1..]
  {
  }

  lemma DispatchFrame(c: Client, name: string)
    ensures DispatchEvent(c, name) == c.(eventSubscriptions := DispatchEvent(c, name).eventSubscriptions)
  {
  }

  lemma ReceiveKeepsQueue(w: World, names: seq<string>, subOks: seq<bool>, oks: seq<bool>)
    requires w.s2c != [] && !w.s2c[0].Init? && |subOks| == |names| && |oks| == |w.client.messageQueue|
    ensures var v := OnClientReceives(w, names, subOks, oks); KeepsQueue(w, v) && v.s2c == w.s2c[1..]
  {
    match w.s2c[0] {
      case Error(code, ai) => ReplyKeepsQueue(w, w.s2c[0], HandleError(w.client, code, ai));
      case ActionResponse(i, o) => ReplyKeepsQueue(w, w.s2c[0], Settle(w.client, i, Resolved(o)));
      case Event(n, _) => DispatchFrame(w.client, n);
    }
  }
}
