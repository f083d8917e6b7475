/**
 Messages between nodes: a publish looks up the actor's leader, sends the message there and waits for an
 ack, with retries that reuse the message identifier. Packets may be delayed, reordered and dropped.
 */
module NodeMessages {
  import opened Wrappers

  type NodeId = string
  type MessageId = string

  datatype Body = Ack(m: MessageId) | Payload(data: string)

  /** `n` is the node that wants an ack and `m` the identifier to acknowledge; most messages carry neither. */
  datatype Packet = Packet(to: NodeId, n: Option<NodeId>, m: Option<MessageId>, b: Body)

  /** The ack of message `id`, on its way to the node that asked for it. */
  function AckFor(node: NodeId, id: MessageId): Packet {
    Packet(node, None, None, Ack(id))
  }

  /** The sender wants an ack: `n` and `m` are there and not empty. */
  predicate AsksForAck(p: Packet) {
    p.n.Some? && p.n.value != "" && p.m.Some? && p.m.value != ""
  }

  /** What a node does with a packet: the packets it publishes, and the publish whose promise it resolves. */
  datatype Handled = Handled(resolvers: set<MessageId>, published: seq<Packet>, resolved: Option<MessageId>)
                   | AckRequestsAck

  function OnMessage(resolvers: set<MessageId>, p: Packet): Handled {
    if AsksForAck(p) && p.b.Ack? then AckRequestsAck
    else
      var published := if AsksForAck(p) then [AckFor(p.n.value, p.m.value)] else [];
      if p.b.Ack? && p.b.m in resolvers then Handled(resolvers - {p.b.m}, published, Some(p.b.m))
      else Handled(resolvers, published, None)
  }

  const MAX_ATTEMPTS := 6

  /** Where a publish is: before a lookup, waiting for its ack, waiting to retry, or settled. */
  datatype Phase = Looking | Waiting(acked: bool) | Backoff | Succeeded | Failed

  /**
   `reported` are the nodes that lookups of this publish named as leader. An aborted publish is rejected at once, but
   an attempt that is under way runs to its end.
   */
  datatype Publish = Publish(owner: NodeId, data: string, attempt: nat, phase: Phase, aborted: bool,
                             reported: set<NodeId>)

  function AttemptFailed(p: Publish): Publish {
    p.(phase := if p.attempt < MAX_ATTEMPTS && !p.aborted then Backoff else Failed)
  }

  function AttemptSucceeded(p: Publish): Publish {
    p.(phase := if p.aborted then Failed else Succeeded)
  }

  function OutgoingMessage(p: Publish, id: MessageId, leader: NodeId): Packet {
    Packet(leader, Some(p.owner), Some(id), Payload(p.data))
  }

  /** `resolvers` collects the resolver maps of all nodes, `received` which node has received which data. */
  datatype World = World(publishes: map<MessageId, Publish>, resolvers: set<(NodeId, MessageId)>,
                         network: multiset<Packet>, received: set<(NodeId, MessageId, string)>)

  const INITIAL := World(map[], {}, multiset{}, {})

  datatype Lookup = NotInitialized | NoLeader | LeaderIs(node: NodeId)

  datatype Step =
    | Start(owner: NodeId, id: MessageId, data: string)
    | LookUp(id: MessageId, answer: Lookup, sent: bool)
    | WaitFails(id: MessageId)
    | Abort(id: MessageId)
    | Complete(id: MessageId)
    | Retry(id: MessageId)
    | SendPlain(to: NodeId, data: string)
    | Deliver(packet: Packet)
    | Drop(packet: Packet)

  predicate InPhase(w: World, id: MessageId, phase: Phase) {
    id in w.publishes && w.publishes[id].phase == phase
  }

  /**
   Node and message identifiers are UUIDs: not empty, and a message identifier is used for one publish. A wait fails
   by its timeout, by an error of the driver's publish, or by the signal.
   */
  predicate Enabled(w: World, step: Step) {
    match step
    case Start(owner, id, _) => owner != "" && id != "" && id !in w.publishes
    case LookUp(id, _, _) => InPhase(w, id, Looking)
    case WaitFails(id) => InPhase(w, id, Waiting(false)) || InPhase(w, id, Waiting(true))
    case Abort(id) => id in w.publishes && !w.publishes[id].aborted
    case Complete(id) => InPhase(w, id, Waiting(true))
    case Retry(id) => InPhase(w, id, Backoff)
    case SendPlain(_, _) => true
    case Deliver(p) => p in w.network
    case Drop(p) => p in w.network
  }

  /** The `finally` block: the resolver is deleted however the wait ended. */
  function EndWait(w: World, id: MessageId, p: Publish): World {
    w.(publishes := w.publishes[id := p], resolvers := w.resolvers - {(p.owner, id)})
  }

  function OnLookup(w: World, id: MessageId, answer: Lookup, sent: bool): World
    requires id in w.publishes
  {
    var p := w.publishes[id];
    match answer
    case NotInitialized => w.(publishes := w.publishes[id := p.(phase := Failed)])
    case NoLeader => w.(publishes := w.publishes[id := AttemptFailed(p)])
    case LeaderIs(leader) =>
      w.(publishes := w.publishes[id := p.(phase := Waiting(false), reported := p.reported + {leader})],
         resolvers := w.resolvers + {(p.owner, id)},
         network := if sent then w.network + multiset{OutgoingMessage(p, id, leader)} else w.network)
  }

  /** A signal that comes too late changes nothing; between attempts it cancels the retry. */
  function OnAbort(w: World, id: MessageId): World
    requires id in w.publishes
  {
    var p := w.publishes[id];
    if p.phase in {Succeeded, Failed} then w
    else w.(publishes := w.publishes[id := p.(aborted := true, phase := if p.phase == Backoff then Failed else p.phase)])
  }

  function ResolversOf(w: World, node: NodeId): set<MessageId> {
    set r | r in w.resolvers && r.0 == node :: r.1
  }

  function OnDeliver(w: World, p: Packet): World {
    var v := w.(network := w.network - multiset{p},
                received := if p.m.Some? && p.b.Payload? then w.received + {(p.to, p.m.value, p.b.data)}
                            else w.received);
    match OnMessage(ResolversOf(w, p.to), p)
    case AckRequestsAck => v
    case Handled(_, published, resolved) =>
      var u := v.(network := v.network + multiset(published));
      if resolved.Some? && resolved.value in w.publishes then
        u.(resolvers := w.resolvers - {(p.to, resolved.value)},
           publishes := w.publishes[resolved.value := w.publishes[resolved.value].(phase := Waiting(true))])
      else u
  }

  function Next(w: World, step: Step): World
    requires Enabled(w, step)
  {
    match step
    case Start(owner, id, data) => w.(publishes := w.publishes[id := Publish(owner, data, 1, Looking, false, {})])
    case LookUp(id, answer, sent) => OnLookup(w, id, answer, sent)
    case WaitFails(id) => EndWait(w, id, AttemptFailed(w.publishes[id]))
    case Abort(id) => OnAbort(w, id)
    case Complete(id) => EndWait(w, id, AttemptSucceeded(w.publishes[id]))
    case Retry(id) =>
      var p := w.publishes[id];
      w.(publishes := w.publishes[id := p.(phase := Looking, attempt := p.attempt + 1)])
    case SendPlain(to, data) => w.(network := w.network + multiset{Packet(to, None, None, Payload(data))})
    case Deliver(p) => OnDeliver(w, p)
    case Drop(p) => w.(network := w.network - multiset{p})
  }

  ghost predicate IsRun(states: seq<World>, steps: seq<Step>) {
    && |states| == |steps| + 1
    && states[0] == INITIAL
    && forall i | 0 <= i < |steps| :: Enabled(states[i], steps[i]) && states[i + 1] == Next(states[i], steps[i])
  }

  /** Some node that the publish was told is the leader has received its data. */
  ghost predicate ReachedLeader(w: World, id: MessageId) {
    && id in w.publishes
    && exists node :: node in w.publishes[id].reported && (node, id, w.publishes[id].data) in w.received
  }

  /** What can be on the network. */
  ghost predicate PacketOk(w: World, p: Packet) {
    if p.b.Ack? then p.n.None? && p.m.None? && ReachedLeader(w, p.b.m) && p.to == w.publishes[p.b.m].owner
    else if p.m.Some? then
      && p.m.value in w.publishes
      && p == OutgoingMessage(w.publishes[p.m.value], p.m.value, p.to)
      && p.to in w.publishes[p.m.value].reported
    else p.n.None?
  }

  ghost predicate Inv(w: World) {
    && (forall p | p in w.network :: PacketOk(w, p))
    && (forall id | id in w.publishes ::
          && w.publishes[id].owner != "" && id != ""
          && 1 <= w.publishes[id].attempt <= MAX_ATTEMPTS
          && (w.publishes[id].phase == Backoff ==> w.publishes[id].attempt < MAX_ATTEMPTS && !w.publishes[id].aborted)
          && (w.publishes[id].phase in {Waiting(true), Succeeded} ==> ReachedLeader(w, id)))
    && (forall node, id ::
          (node, id) in w.resolvers <==> InPhase(w, id, Waiting(false)) && w.publishes[id].owner == node)
  }

  /** Steps only add to what is reported and received, so packets on the network stay explained. */
  lemma ExplanationsKept(w: World, v: World)
    requires w.received <= v.received
    requires forall id | id in w.publishes ::
               && id in v.publishes
               && v.publishes[id].owner == w.publishes[id].owner && v.publishes[id].data == w.publishes[id].data
               && w.publishes[id].reported <= v.publishes[id].reported
    ensures forall p | PacketOk(w, p) :: PacketOk(v, p)
    ensures forall id | ReachedLeader(w, id) :: ReachedLeader(v, id)
  {
    forall id | ReachedLeader(w, id) ensures ReachedLeader(v, id) {
      var node :| node in w.publishes[id].reported && (node, id, w.publishes[id].data) in w.received;
      assert node in v.publishes[id].reported && (node, id, v.publishes[id].data) in v.received;
    }
  }

  lemma WaitKeepsInv(w: World, id: MessageId, leader: NodeId, sent: bool)
    requires Inv(w) && InPhase(w, id, Looking)
    ensures Inv(OnLookup(w, id, LeaderIs(leader), sent))
  {
    ExplanationsKept(w, OnLookup(w, id, LeaderIs(leader), sent));
  }

  lemma LookupKeepsInv(w: World, id: MessageId, answer: Lookup, sent: bool)
    requires Inv(w) && InPhase(w, id, Looking)
    ensures Inv(OnLookup(w, id, answer, sent))
  {
    if answer.LeaderIs? {
      WaitKeepsInv(w, id, answer.node, sent);
    } else {
      var phase := if answer.NoLeader? then AttemptFailed(w.publishes[id]).phase else Failed;
      EndWaitKeepsInv(w, id, phase);
      assert OnLookup(w, id, answer, sent) == EndWait(w, id, w.publishes[id].(phase := phase));
    }
  }

  /** Receiving an ack publishes nothing and resolves at most the wait that it names. */
  lemma AckKeepsInv(w: World, p: Packet)
    requires Inv(w) && p in w.network && p.b.Ack?
    ensures Inv(OnDeliver(w, p))
    ensures OnMessage(ResolversOf(w, p.to), p).Handled? && OnMessage(ResolversOf(w, p.to), p).published == []
  {
    assert PacketOk(w, p);
    assert p.b.m in ResolversOf(w, p.to) <==> (p.to, p.b.m) in w.resolvers;
    ExplanationsKept(w, OnDeliver(w, p));
  }

  /** Receiving a payload publishes one ack if the sender asked for it. */
  lemma PayloadKeepsInv(w: World, p: Packet)
    requires Inv(w) && p in w.network && p.b.Payload?
    ensures Inv(OnDeliver(w, p))
    ensures OnMessage(ResolversOf(w, p.to), p) == Handled(ResolversOf(w, p.to),
              if p.m.Some? then [AckFor(p.n.value, p.m.value)] else [], None)
  {
    assert PacketOk(w, p);
    var v := OnDeliver(w, p);
    ExplanationsKept(w, v);
    if p.m.Some? {
      var id := p.m.value;
      assert p.to in v.publishes[id].reported && (p.to, id, v.publishes[id].data) in v.received;
      assert PacketOk(v, AckFor(p.n.value, id));
    }
  }

  lemma DeliverKeepsInv(w: World, p: Packet)
    requires Inv(w) && p in w.network
    ensures Inv(OnDeliver(w, p))
  {
    if p.b.Ack? {
      AckKeepsInv(w, p);
    } else {
      PayloadKeepsInv(w, p);
    }
  }

  /** Ending a wait, however it ends, keeps the resolver maps exact. */
  lemma EndWaitKeepsInv(w: World, id: MessageId, phase: Phase)
    requires Inv(w) && id in w.publishes && phase in {Backoff, Succeeded, Failed}
    requires phase == Backoff ==> w.publishes[id].attempt < MAX_ATTEMPTS && !w.publishes[id].aborted
    requires phase == Succeeded ==> ReachedLeader(w, id)
    ensures Inv(EndWait(w, id, w.publishes[id].(phase := phase)))
  {
    ExplanationsKept(w, EndWait(w, id, w.publishes[id].(phase := phase)));
  }

  lemma AbortKeepsInv(w: World, id: MessageId)
    requires Inv(w) && id in w.publishes
    ensures Inv(OnAbort(w, id))
  {
    ExplanationsKept(w, OnAbort(w, id));
  }

  lemma LookingKeepsInv(w: World, id: MessageId, p: Publish)
    requires Inv(w) && id != "" && p.owner != "" && p.phase == Looking && 1 <= p.attempt <= MAX_ATTEMPTS
    requires id in w.publishes ==>
               w.publishes[id].phase == Backoff && p == w.publishes[id].(phase := Looking, attempt := p.attempt)
    ensures Inv(w.(publishes := w.publishes[id := p]))
  {
    ExplanationsKept(w, w.(publishes := w.publishes[id := p]));
  }

  lemma NetworkKeepsInv(w: World, network: multiset<Packet>)
    requires Inv(w) && forall p | p in network :: p in w.network || (p.b.Payload? && p.n.None? && p.m.None?)
    ensures Inv(w.(network := network))
  {
    ExplanationsKept(w, w.(network := network));
  }

  lemma NextKeepsInv(w: World, step: Step)
    requires Inv(w) && Enabled(w, step)
    ensures Inv(Next(w, step))
  {
    match step {
      case Start(owner, id, data) => LookingKeepsInv(w, id, Publish(owner, data, 1, Looking, false, {}));
      case LookUp(id, answer, sent) => LookupKeepsInv(w, id, answer, sent);
      case WaitFails(id) => EndWaitKeepsInv(w, id, AttemptFailed(w.publishes[id]).phase);
      case Abort(id) => AbortKeepsInv(w, id);
      case Complete(id) => EndWaitKeepsInv(w, id, AttemptSucceeded(w.publishes[id]).phase);
      case Retry(id) =>
        var p := w.publishes[id];
        LookingKeepsInv(w, id, p.(phase := Looking, attempt := p.attempt + 1));
      case SendPlain(to, data) => NetworkKeepsInv(w, Next(w, step).network);
      case Deliver(p) => DeliverKeepsInv(w, p);
      case Drop(p) => NetworkKeepsInv(w, Next(w, step).network);
    }
  }

  lemma {:induction false} RunKeepsInv(states: seq<World>, steps: seq<Step>, i: nat)
    requires IsRun(states, steps) && i < |states|
    ensures Inv(states[i])
  {
    if i > 0 {
      RunKeepsInv(states, steps, i - 1);
      NextKeepsInv(states[i - 1], steps[i - 1]);
    }
  }

  // ---------- What the steps of a run explain ----------

  lemma {:induction false} StartedByStep(states: seq<World>, steps: seq<Step>, i: nat, id: MessageId) returns (s: nat)
    requires IsRun(states, steps) && i < |states| && id in states[i].publishes
    ensures s < i && steps[s] == Start(states[i].publishes[id].owner, id, states[i].publishes[id].data)
  {
    if i == 0 {
      assert false;
    } else if id in states[i - 1].publishes {
      s := StartedByStep(states, steps, i - 1, id);
      PublishKept(states[i - 1], steps[i - 1], id);
    } else {
      s := i - 1;
      assert steps[s].Start? && steps[s].id == id by {
        OnlyStartAdds(states[i - 1], steps[i - 1], id);
      }
    }
  }

  lemma OnlyStartAdds(w: World, step: Step, id: MessageId)
    requires Enabled(w, step) && id in Next(w, step).publishes && id !in w.publishes
    ensures step.Start? && step.id == id
  {
  }

  predicate Learns(step: Step, id: MessageId, node: NodeId) {
    step.LookUp? && step.id == id && step.answer == LeaderIs(node)
  }

  /** `q` is `p` later on: the same owner and data, and perhaps one more leader. */
  ghost predicate Continues(p: Publish, q: Publish, id: MessageId, step: Step) {
    && q.owner == p.owner && q.data == p.data && p.attempt <= q.attempt
    && forall node :: node in q.reported <==> node in p.reported || Learns(step, id, node)
  }

  lemma LookupContinues(w: World, id: MessageId, i: MessageId, answer: Lookup, sent: bool)
    requires i in w.publishes && id in w.publishes
    ensures id in OnLookup(w, i, answer, sent).publishes
    ensures Continues(w.publishes[id], OnLookup(w, i, answer, sent).publishes[id], id, LookUp(i, answer, sent))
  {
  }

  lemma DeliverContinues(w: World, id: MessageId, p: Packet)
    requires id in w.publishes
    ensures id in OnDeliver(w, p).publishes
    ensures Continues(w.publishes[id], OnDeliver(w, p).publishes[id], id, Deliver(p))
  {
  }

  /** A publish keeps its owner and data, and learns of a leader only by its own lookups. */
  lemma PublishKept(w: World, step: Step, id: MessageId)
    requires Enabled(w, step) && id in w.publishes
    ensures id in Next(w, step).publishes
    ensures Continues(w.publishes[id], Next(w, step).publishes[id], id, step)
  {
    match step {
      case LookUp(i, answer, sent) => LookupContinues(w, id, i, answer, sent);
      case Deliver(p) => DeliverContinues(w, id, p);
      case Start(_, _, _) =>
      case WaitFails(_) =>
      case Abort(_) =>
      case Complete(_) =>
      case Retry(_) =>
      case SendPlain(_, _) =>
      case Drop(_) =>
    }
  }

  lemma {:induction false} ReportedByStep(states: seq<World>, steps: seq<Step>, i: nat, id: MessageId, node: NodeId)
    returns (l: nat)
    requires IsRun(states, steps) && i < |states| && id in states[i].publishes
    requires node in states[i].publishes[id].reported
    ensures l < i && steps[l].LookUp? && steps[l].id == id && steps[l].answer == LeaderIs(node)
  {
    if i == 0 {
      assert false;
    } else if id !in states[i - 1].publishes {
      OnlyStartAdds(states[i - 1], steps[i - 1], id);
      assert false;
    } else {
      PublishKept(states[i - 1], steps[i - 1], id);
      if node in states[i - 1].publishes[id].reported {
        l := ReportedByStep(states, steps, i - 1, id, node);
      } else {
        l := i - 1;
      }
    }
  }

  /** The delivery of data under an identifier to a node. */
  predicate Delivers(step: Step, r: (NodeId, MessageId, string)) {
    step.Deliver? && step.packet.to == r.0 && step.packet.m == Some(r.1) && step.packet.b == Payload(r.2)
  }

  lemma DeliveryReceives(w: World, p: Packet, r: (NodeId, MessageId, string))
    ensures r in OnDeliver(w, p).received <==> r in w.received || Delivers(Deliver(p), r)
  {
  }

  lemma NextReceives(w: World, step: Step, r: (NodeId, MessageId, string))
    requires Enabled(w, step)
    ensures r in Next(w, step).received <==> r in w.received || Delivers(step, r)
  {
    match step {
      case Deliver(p) => DeliveryReceives(w, p, r);
      case LookUp(_, _, _) =>
      case Start(_, _, _) =>
      case WaitFails(_) =>
      case Abort(_) =>
      case Complete(_) =>
      case Retry(_) =>
      case SendPlain(_, _) =>
      case Drop(_) =>
    }
  }

  lemma {:induction false} ReceivedByStep(states: seq<World>, steps: seq<Step>, i: nat, r: (NodeId, MessageId, string))
    returns (d: nat)
    requires IsRun(states, steps) && i < |states| && r in states[i].received
    ensures d < i && Delivers(steps[d], r)
  {
    if i == 0 {
      assert false;
    } else {
      NextReceives(states[i - 1], steps[i - 1], r);
      if r in states[i - 1].received {
        d := ReceivedByStep(states, steps, i - 1, r);
      } else {
        d := i - 1;
      }
    }
  }

  /**
   A publish that succeeds was started with some data at a step `s`, was told of a leader by a lookup at a later step
   `l`, and exactly that data was delivered to that node under its identifier at a step `d` after that. Retries reuse
   the identifier, so this need not be the node of the last attempt.
   */
  lemma AckCausality(states: seq<World>, steps: seq<Step>, i: nat, id: MessageId) returns (s: nat, l: nat, d: nat)
    requires IsRun(states, steps) && i < |states| && InPhase(states[i], id, Succeeded)
    ensures s < l < d < i
    ensures steps[s].Start? && steps[s].id == id
    ensures steps[l].LookUp? && steps[l].id == id && steps[l].answer.LeaderIs?
    ensures steps[d].Deliver? && steps[d].packet.to == steps[l].answer.node
    ensures steps[d].packet.m == Some(id) && steps[d].packet.b == Payload(steps[s].data)
  {
    RunKeepsInv(states, steps, i);
    s := StartedByStep(states, steps, i, id);
    var p := states[i].publishes[id];
    assert ReachedLeader(states[i], id);
    var node :| node in p.reported && (node, id, p.data) in states[i].received;
    d := ReceivedByStep(states, steps, i, (node, id, p.data));
    RunKeepsInv(states, steps, d);
    assert PacketOk(states[d], steps[d].packet);
    l := ReportedByStep(states, steps, d, id, node);
    LookupAfterStart(states, steps, s, l, id);
  }

  /** An identifier is used for one publish, so what it does comes after the start. */
  lemma LookupAfterStart(states: seq<World>, steps: seq<Step>, s: nat, l: nat, id: MessageId)
    requires IsRun(states, steps) && s < |steps| && l < |steps|
    requires steps[s].Start? && steps[s].id == id && steps[l].LookUp? && steps[l].id == id
    ensures s < l
  {
    if l < s {
      PublishStays(states, steps, l, s, id);
      assert false;
    }
  }

  lemma {:induction false} PublishStays(states: seq<World>, steps: seq<Step>, i: nat, j: nat, id: MessageId)
    requires IsRun(states, steps) && i <= j < |states| && id in states[i].publishes
    ensures id in states[j].publishes
    decreases j - i
  {
    if i < j {
      PublishStays(states, steps, i, j - 1, id);
      PublishKept(states[j - 1], steps[j - 1], id);
    }
  }

  lemma AskedNodeAcks(w: World, id: MessageId, node: NodeId) returns (v: World, ack: Packet)
    requires Inv(w) && InPhase(w, id, Looking)
    ensures Enabled(w, LookUp(id, LeaderIs(node), true))
    ensures var p := Packet(node, Some(w.publishes[id].owner), Some(id), Payload(w.publishes[id].data));
            var u := Next(w, LookUp(id, LeaderIs(node), true));
            && Enabled(u, Deliver(p)) && v == Next(u, Deliver(p)) && Inv(v)
            && (node, id, w.publishes[id].data) in v.received
    ensures ack == Packet(w.publishes[id].owner, None, None, Ack(id)) && ack in v.network
    ensures InPhase(v, id, Waiting(false)) && v.publishes[id].owner == w.publishes[id].owner
    ensures v.publishes[id].aborted == w.publishes[id].aborted
  {
    var p := Packet(node, Some(w.publishes[id].owner), Some(id), Payload(w.publishes[id].data));
    var u := Next(w, LookUp(id, LeaderIs(node), true));
    assert w.publishes[id].owner != "" && id != "";
    assert p in u.network;
    LookupKeepsInv(w, id, LeaderIs(node), true);
    PayloadKeepsInv(u, p);
    DeliverKeepsInv(u, p);
    v := Next(u, Deliver(p));
    ack := Packet(w.publishes[id].owner, None, None, Ack(id));
    assert ack in multiset([ack]);
  }

  lemma AckResolves(w: World, id: MessageId, ack: Packet) returns (v: World)
    requires Inv(w) && InPhase(w, id, Waiting(false)) && ack in w.network
    requires ack == Packet(w.publishes[id].owner, None, None, Ack(id))
    ensures Enabled(w, Deliver(ack)) && Enabled(Next(w, Deliver(ack)), Complete(id))
    ensures v == Next(Next(w, Deliver(ack)), Complete(id)) && Inv(v)
    ensures InPhase(v, id, if w.publishes[id].aborted then Failed else Succeeded)
  {
    assert (ack.to, id) in w.resolvers;
    assert id in ResolversOf(w, ack.to);
    AckKeepsInv(w, ack);
    NextKeepsInv(Next(w, Deliver(ack)), Complete(id));
    v := Next(Next(w, Deliver(ack)), Complete(id));
  }

  /**
   The converse of causality: if the looked-up node gets the message and its ack comes back, an attempt succeeds, unless
   the publish was aborted.
   */
  lemma AttemptSucceedsIfAcked(w: World, id: MessageId, node: NodeId) returns (v: World)
    requires Inv(w) && InPhase(w, id, Looking) && !w.publishes[id].aborted
    ensures InPhase(v, id, Succeeded)
    ensures var p := Packet(node, Some(w.publishes[id].owner), Some(id), Payload(w.publishes[id].data));
            var ack := Packet(w.publishes[id].owner, None, None, Ack(id));
            var asked := Next(w, LookUp(id, LeaderIs(node), true));
            && Enabled(asked, Deliver(p))
            && Enabled(Next(asked, Deliver(p)), Deliver(ack))
            && Enabled(Next(Next(asked, Deliver(p)), Deliver(ack)), Complete(id))
            && v == Next(Next(Next(asked, Deliver(p)), Deliver(ack)), Complete(id))
  {
    var u, ack := AskedNodeAcks(w, id, node);
    v := AckResolves(u, id, ack);
  }

  /** An aborted publish that has not succeeded never will, and makes no further attempt. */
  lemma {:induction false} AbortedNeverSucceeds(states: seq<World>, steps: seq<Step>, i: nat, j: nat, id: MessageId)
    requires IsRun(states, steps) && i < j < |states| && steps[i] == Abort(id) && !InPhase(states[i], id, Succeeded)
    ensures id in states[j].publishes && !InPhase(states[j], id, Succeeded) && !InPhase(states[j], id, Backoff)
    ensures states[j].publishes[id].aborted || InPhase(states[j], id, Failed)
    ensures states[j].publishes[id].attempt == states[i].publishes[id].attempt
    decreases j
  {
    if j > i + 1 {
      AbortedNeverSucceeds(states, steps, i, j - 1, id);
      RunKeepsInv(states, steps, j - 1);
      StaysAborted(states[j - 1], steps[j - 1], id);
    }
  }

  lemma StaysAborted(w: World, step: Step, id: MessageId)
    requires Inv(w) && Enabled(w, step) && id in w.publishes && (w.publishes[id].aborted || InPhase(w, id, Failed))
    requires !InPhase(w, id, Succeeded) && !InPhase(w, id, Backoff)
    ensures var v := Next(w, step);
            && id in v.publishes && (v.publishes[id].aborted || InPhase(v, id, Failed))
            && !InPhase(v, id, Succeeded) && !InPhase(v, id, Backoff)
            && v.publishes[id].attempt == w.publishes[id].attempt
  {
    match step {
      case Deliver(p) => DeliverKeepsAborted(w, p, id);
      case LookUp(_, _, _) =>
      case Start(_, _, _) =>
      case WaitFails(_) =>
      case Abort(_) =>
      case Complete(_) =>
      case Retry(_) =>
      case SendPlain(_, _) =>
      case Drop(_) =>
    }
  }

  lemma DeliverKeepsAborted(w: World, p: Packet, id: MessageId)
    requires Inv(w) && id in w.publishes
    ensures var v := OnDeliver(w, p);
            && id in v.publishes && v.publishes[id].aborted == w.publishes[id].aborted
            && v.publishes[id].attempt == w.publishes[id].attempt
            && (v.publishes[id].phase == w.publishes[id].phase || v.publishes[id].phase == Waiting(true))
            && (InPhase(w, id, Failed) ==> InPhase(v, id, Failed))
  {
  }

  /** The resolver maps hold exactly the publishes that await an ack, each at its own node. */
  lemma NoResolverLeak(states: seq<World>, steps: seq<Step>, i: nat, node: NodeId, id: MessageId)
    requires IsRun(states, steps) && i < |states|
    ensures (node, id) in states[i].resolvers <==>
              InPhase(states[i], id, Waiting(false)) && states[i].publishes[id].owner == node
  {
    RunKeepsInv(states, steps, i);
  }

  /** Acks never trigger acks: a delivered ack takes itself off the network and adds nothing, in any state. */
  lemma AcksTriggerNothing(w: World, p: Packet)
    requires p in w.network && p.b.Ack?
    ensures Next(w, Deliver(p)).network == w.network - multiset{p}
  {
    assert w.network - multiset{p} + multiset([]) == w.network - multiset{p};
  }

  /** No publish looks its leader up more often than six times. */
  lemma AttemptsBounded(states: seq<World>, steps: seq<Step>, i: nat, id: MessageId)
    requires IsRun(states, steps) && i < |states| && id in states[i].publishes
    ensures states[i].publishes[id].attempt <= 6
  {
    RunKeepsInv(states, steps, i);
  }

  lemma DeliverKeepsFailed(w: World, p: Packet, id: MessageId)
    requires Inv(w) && InPhase(OnDeliver(w, p), id, Failed)
    ensures InPhase(w, id, Failed)
  {
  }

  lemma StepFailsForReason(w: World, step: Step, id: MessageId)
    requires Inv(w) && Enabled(w, step) && InPhase(Next(w, step), id, Failed) && !InPhase(w, id, Failed)
    ensures id in w.publishes
    ensures Next(w, step).publishes[id].aborted || w.publishes[id].attempt == 6 ||
            (step.LookUp? && step.id == id && step.answer.NotInitialized?)
  {
    match step {
      case Deliver(p) => DeliverKeepsFailed(w, p, id);
      case LookUp(_, _, _) =>
      case Start(_, _, _) =>
      case WaitFails(_) =>
      case Abort(_) =>
      case Complete(_) =>
      case Retry(_) =>
      case SendPlain(_, _) =>
      case Drop(_) =>
    }
  }

  /** A publish gives up only for a reason: it was aborted, its actor is not initialized, or its sixth attempt failed. */
  lemma FailsForReason(states: seq<World>, steps: seq<Step>, i: nat, id: MessageId)
    requires IsRun(states, steps) && i < |steps| && InPhase(states[i + 1], id, Failed) && !InPhase(states[i], id, Failed)
    ensures id in states[i].publishes
    ensures states[i + 1].publishes[id].aborted || states[i].publishes[id].attempt == 6 ||
            (steps[i].LookUp? && steps[i].id == id && steps[i].answer.NotInitialized?)
  {
    RunKeepsInv(states, steps, i);
    StepFailsForReason(states[i], steps[i], id);
  }

  /** And an attempt that fails before that is followed by another one. */
  lemma FailureIsRetried(w: World, id: MessageId)
    requires InPhase(w, id, Waiting(false)) && w.publishes[id].attempt < 6 && !w.publishes[id].aborted
    ensures var v := Next(w, WaitFails(id));
            Enabled(v, Retry(id)) && InPhase(Next(v, Retry(id)), id, Looking) &&
            Next(v, Retry(id)).publishes[id].attempt == w.publishes[id].attempt + 1
  {
  }

  // ---------- The node ----------

  /** A node's resolver map, updated by its message handler and by the publishes it runs. */
  class Node {
    var messageAckResolvers: set<MessageId>

    constructor ()
      ensures messageAckResolvers == {}
    {
      messageAckResolvers := {};
    }

    /** `#onMessage`, up to handing a payload to the actor; `failed` is the error it throws. */
    method HandleMessage(p: Packet) returns (published: seq<Packet>, resolved: Option<MessageId>, failed: bool)
      modifies this
      ensures failed <==> OnMessage(old(messageAckResolvers), p).AckRequestsAck?
      ensures failed ==> published == [] && resolved.None? && messageAckResolvers == old(messageAckResolvers)
      ensures !failed ==> OnMessage(old(messageAckResolvers), p) == Handled(messageAckResolvers, published, resolved)
      ensures failed <==> AsksForAck(p) && p.b.Ack?
      ensures !failed && AsksForAck(p) ==> published == [Packet(p.n.value, None, None, Ack(p.m.value))]
      ensures !AsksForAck(p) ==> published == []
      ensures !failed && p.b.Ack? ==>
                messageAckResolvers == old(messageAckResolvers) - {p.b.m} &&
                resolved == if p.b.m in old(messageAckResolvers) then Some(p.b.m) else None
      ensures p.b.Payload? ==> resolved.None? && messageAckResolvers == old(messageAckResolvers)
    {
      published, resolved, failed := [], None, false;
      if AsksForAck(p) {
        if p.b.Ack? {
          failed := true;
          return;
        }
        published := [AckFor(p.n.value, p.m.value)];
      }
      if p.b.Ack? {
        resolved := HandleAck(p.b.m);
      }
    }

    method HandleAck(messageId: MessageId) returns (resolved: Option<MessageId>)
      modifies this
      ensures resolved == if messageId in old(messageAckResolvers) then Some(messageId) else None
      ensures messageAckResolvers == old(messageAckResolvers) - {messageId}
    {
      if messageId in messageAckResolvers {
        resolved := Some(messageId);
        messageAckResolvers := messageAckResolvers - {messageId};
      } else {
        resolved := None;
      }
    }

    /**
     The part of a publish attempt before the wait. Any node that receives the message acknowledges it, and that ack,
     if it comes back to this node, resolves exactly this publish.
     */
    method BeginWait(publish: Publish, messageId: MessageId, leaderNodeId: NodeId) returns (out: Packet)
      modifies this
      ensures out.to == leaderNodeId && out.b == Payload(publish.data)
      ensures out.n == Some(publish.owner) && out.m == Some(messageId)
      ensures publish.owner != "" && messageId != "" ==>
                forall others :: OnMessage(others, out) == Handled(others, [AckFor(publish.owner, messageId)], None)
      ensures OnMessage(messageAckResolvers, AckFor(publish.owner, messageId)) ==
                Handled(old(messageAckResolvers) - {messageId}, [], Some(messageId))
      ensures messageAckResolvers == old(messageAckResolvers) + {messageId}
      ensures out == OutgoingMessage(publish, messageId, leaderNodeId)
    {
      messageAckResolvers := messageAckResolvers + {messageId};
      out := Packet(leaderNodeId, Some(publish.owner), Some(messageId), Payload(publish.data));
    }

    /** The `finally` block of the attempt: a late ack for it resolves nothing, and other waits go on. */
    method FinishWait(messageId: MessageId)
      modifies this
      ensures forall node ::
                OnMessage(messageAckResolvers, AckFor(node, messageId)) == Handled(messageAckResolvers, [], None)
      ensures forall id | id != messageId :: id in messageAckResolvers <==> id in old(messageAckResolvers)
      ensures messageAckResolvers == old(messageAckResolvers) - {messageId}
    {
      messageAckResolvers := messageAckResolvers - {messageId};
    }
  }
}
