/** The server's subscriptions follow the client's listeners, through requests in transit and reconnects. */
module SubscriptionAgreement {
  import opened ClientConns
  import opened ServerMessages
  import opened ConnSystem

  /** The server's subscriptions once it has processed the messages in the channel. */
  function Fold(subscribed: set<string>, messages: seq<ToServer>): set<string>
    decreases |messages|
  {
    if messages == [] then subscribed
    else Apply(Fold(subscribed, messages[..|messages| - 1]), messages[|messages| - 1])
  }

  lemma {:induction false} FoldConcat(subscribed: set<string>, a: seq<ToServer>, b: seq<ToServer>)
    ensures Fold(subscribed, a + b) == Fold(Fold(subscribed, a), b)
    decreases |b|
  {
    if b == [] {
      assert a + b == a;
    } else {
      assert (a + b)[..|a + b| - 1] == a + b[..|b| - 1];
      FoldConcat(subscribed, a, b[..|b| - 1]);
    }
  }

  lemma FoldTail(subscribed: set<string>, messages: seq<ToServer>)
    requires messages != []
    ensures Fold(subscribed, messages) == Fold(Apply(subscribed, messages[0]), messages[1..])
  {
    assert messages == [messages[0]] + messages[1..];
    FoldConcat(subscribed, [messages[0]], messages[1..]);
    assert [messages[0]][..0] == [];
  }

  lemma FoldSnoc(subscribed: set<string>, messages: seq<ToServer>, m: ToServer)
    ensures Fold(subscribed, messages + [m]) == Apply(Fold(subscribed, messages), m)
  {
    assert (messages + [m])[..|messages|] == messages;
  }

  lemma {:induction false} FoldRequests(subscribed: set<string>, messages: seq<ToServer>)
    requires forall m | m in messages :: m.ActionRequest?
    ensures Fold(subscribed, messages) == subscribed
    decreases |messages|
  {
    if messages != [] {
      assert messages[|messages| - 1] in messages;
      FoldRequests(subscribed, messages[..|messages| - 1]);
    }
  }

  /** The resubscriptions that a socket accepts. */
  function Accepted(names: seq<string>, subOks: seq<bool>): seq<ToServer>
    requires |subOks| == |names|
  {
    Select(Subscriptions(names), subOks, true)
  }

  lemma {:induction false} FoldAccepted(subscribed: set<string>, names: seq<string>, subOks: seq<bool>, e: string)
    requires |subOks| == |names|
    requires e in subscribed || exists k :: 0 <= k < |names| && names[k] == e && subOks[k]
    ensures e in Fold(subscribed, Accepted(names, subOks))
    decreases |names|
  {
    if names != [] {
      var n := |names| - 1;
      assert Subscriptions(names)[..n] == Subscriptions(names[..n]);
      var front := Accepted(names[..n], subOks[..n]);
      if subOks[n] {
        FoldSnoc(subscribed, front, SubscriptionRequest(names[n], true));
      } else {
        assert front + [] == front;
      }
      if !(names[n] == e && subOks[n]) {
        assert e in subscribed || exists k :: 0 <= k < n && names[..n][k] == e && subOks[..n][k];
        FoldAccepted(subscribed, names[..n], subOks[..n], e);
      }
    }
  }

  /** The queue holds action requests only, because subscription requests are never queued. */
  predicate QueueOfRequests(w: World) {
    forall k | 0 <= k < |w.client.messageQueue| :: w.client.messageQueue[k].ActionRequest?
  }

  /** Before the first message a socket is not open for the client, and a closed one carries nothing. */
  predicate SocketInv(w: World) {
    w.client.transport.NoTransport? || w.client.transport.Connecting? ==> !w.initReceived
  }

  /**
   The agreement: on an open socket whose init message has arrived, the server is or will be subscribed to every event
   that the client listens to, except the events whose own latest subscription request was lost in a failed send.
   */
  ghost predicate Agreement(w: World) {
    w.client.transport.Open? && w.initReceived ==>
      forall e | e in w.client.eventSubscriptions && e !in w.lost :: e in Fold(w.subscribed, w.c2s)
  }

  ghost predicate SubInv(w: World) {
    QueueOfRequests(w) && SocketInv(w) && Agreement(w)
  }

  lemma CallKeepsSubInv(w: World, name: string, args: seq<string>, ok: bool)
    requires SubInv(w)
    ensures SubInv(OnCall(w, name, args, ok))
  {
    FoldSnoc(w.subscribed, w.c2s, ActionRequest(w.client.actionIdCounter, name, args));
    assert w.c2s + [] == w.c2s;
  }

  lemma ListenKeepsSubInv(w: World, name: string, once: bool, ok: bool)
    requires SubInv(w)
    ensures SubInv(OnListen(w, name, once, ok))
  {
    AddListenerFrame(w.client, name, once, ok);
    FoldSnoc(w.subscribed, w.c2s, SubscriptionRequest(name, true));
    assert w.c2s + [] == w.c2s;
  }

  lemma UnlistenKeepsSubInv(w: World, name: string, listener: ListenerId, ok: bool)
    requires SubInv(w)
    ensures SubInv(Put(w, RemoveListener(w.client, name, listener, ok)))
  {
    RemoveListenerFrame(w.client, name, listener, ok);
    FoldSnoc(w.subscribed, w.c2s, SubscriptionRequest(name, false));
    assert w.c2s + [] == w.c2s;
  }

  /** The init message resubscribes everything that the socket accepts, ahead of the flushed queue. */
  lemma InitAgrees(w: World, names: seq<string>, subOks: seq<bool>, oks: seq<bool>, e: string)
    requires QueueOfRequests(w) && w.client.transport.Open?
    requires |subOks| == |names| && |oks| == |w.client.messageQueue| && Enumerates(names, w.client.eventSubscriptions)
    requires e in w.client.eventSubscriptions && e !in LostNames(names, subOks)
    ensures e in Fold(w.subscribed, w.c2s + HandleOnOpen(w.client, names, subOks, oks).out)
  {
    FlushKeepsOrder(w.client, names, subOks, oks);
    var accepted, flushed := Accepted(names, subOks), Select(w.client.messageQueue, oks, true);
    SelectedAreOld(w.client.messageQueue, oks, true);
    var before := Fold(w.subscribed, w.c2s);
    FoldConcat(w.subscribed, w.c2s, accepted + flushed);
    FoldConcat(before, accepted, flushed);
    var k :| 0 <= k < |names| && names[k] == e;
    assert subOks[k];
    FoldAccepted(before, names, subOks, e);
    FoldRequests(Fold(before, accepted), flushed);
  }

  lemma InitKeepsSubInv(w: World, names: seq<string>, subOks: seq<bool>, oks: seq<bool>)
    requires SubInv(w) && Enabled(w, ClientReceives(names, subOks, oks)) && w.s2c[0].Init?
    ensures SubInv(OnClientReceives(w, names, subOks, oks))
  {
    SendAllSplits(w.client.(messageQueue := []), w.client.messageQueue, oks);
    SelectedAreOld(w.client.messageQueue, oks, false);
    var v := OnClientReceives(w, names, subOks, oks);
    forall k | 0 <= k < |v.client.messageQueue| ensures v.client.messageQueue[k].ActionRequest? {
      assert v.client.messageQueue[k] in v.client.messageQueue;
    }
    if w.client.transport.Open? {
      forall e | e in v.client.eventSubscriptions && e !in v.lost ensures e in Fold(v.subscribed, v.c2s) {
        InitAgrees(w, names, subOks, oks, e);
      }
    }
  }

  lemma ReceiveKeepsSubInv(w: World, names: seq<string>, subOks: seq<bool>, oks: seq<bool>)
    requires SubInv(w) && Enabled(w, ClientReceives(names, subOks, oks))
    ensures SubInv(OnClientReceives(w, names, subOks, oks))
  {
    match w.s2c[0] {
      case Init => InitKeepsSubInv(w, names, subOks, oks);
      case Error(code, ai) =>
      case ActionResponse(i, o) =>
      case Event(n, _) =>
    }
  }

  lemma NextKeepsSubInv(w: World, step: Step)
    requires SubInv(w) && Enabled(w, step)
    ensures SubInv(Next(w, step))
  {
    match step {
      case CallAction(name, args, ok) => CallKeepsSubInv(w, name, args, ok);
      case Listen(name, once, ok) => ListenKeepsSubInv(w, name, once, ok);
      case Unlisten(name, listener, ok) => UnlistenKeepsSubInv(w, name, listener, ok);
      case ServerReceives => FoldTail(w.subscribed, w.c2s);
      case ClientReceives(names, subOks, oks) => ReceiveKeepsSubInv(w, names, subOks, oks);
      case _ =>
    }
  }

  /** The agreement holds in every run, through `on`, `once`, unsubscribing, duplicate requests and reconnects. */
  lemma {:induction false} SubscriptionsAgree(states: seq<World>, steps: seq<Step>, i: nat)
    requires IsRun(states, steps) && i < |states|
    ensures SubInv(states[i])
  {
    if i > 0 {
      SubscriptionsAgree(states, steps, i - 1);
      NextKeepsSubInv(states[i - 1], steps[i - 1]);
    }
  }
}
