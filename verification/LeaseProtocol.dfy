/**
 The coordinate topology's leader election for one actor, as a transition system: any number of
 nodes, each with at most one peer, one expiring lease key in Redis and one clock. A script request
 and its answer travel separately, so everything else may happen in between.

 Assumptions of the model: a node starts a new peer only when its previous one has finished disposing,
 and a peer is not disposed while a script that may acquire the lease is outstanding.
 */
module LeaseProtocol {
  import opened Wrappers
  import opened LeaseScripts
  import opened ActorPeers

  /**
   `granted` records when Redis last wrote a node's lease on behalf of its peer, `expiry` the instant at which
   the lease last written for a node runs out, and `strays` counts the renewals that a peer had outstanding when it
   was disposed.
   */
  datatype World = World(now: int, key: LeaseKey, peers: map<NodeId, Peer>,
                         granted: map<NodeId, int>, expiry: map<NodeId, int>, strays: multiset<NodeId>)

  const INITIAL := World(0, Missing, map[], map[], map[], multiset{})

  datatype Step =
    | Tick(elapsed: int)
    | StartPeer(node: NodeId)
    | RunScript(node: NodeId)
    | Deliver(node: NodeId, conn: ConnId, random: int)
    | FinishActorStart(node: NodeId, conn: ConnId)
    | FireTimer(node: NodeId)
    | AddReference(node: NodeId, conn: ConnId)
    | RemoveReference(node: NodeId, conn: ConnId)
    | FinishActorStop(node: NodeId)
    | RunStrayExtend(node: NodeId)

  predicate MayAcquire(at: Suspension) {
    || (at.Request? && (at.command.StartAndAcquire? || at.command.AttemptAcquire?))
    || (at.Reply? && (at.answered.StartAndAcquire? || at.answered.AttemptAcquire?))
  }

  predicate Enabled(cfg: Config, w: World, step: Step) {
    match step
    case Tick(elapsed) => 0 < elapsed
    case StartPeer(n) => n in w.peers ==> w.peers[n].at.Finished?
    case RunScript(n) => n in w.peers && w.peers[n].at.Request?
    case Deliver(n, _, random) => n in w.peers && w.peers[n].at.Reply? && 0 <= random <= cfg.checkLeaseJitter
    case FinishActorStart(n, _) => n in w.peers && w.peers[n].at.ActorStart?
    case FireTimer(n) => n in w.peers && w.peers[n].at.Timer? && w.peers[n].at.fireAt <= w.now
    case AddReference(n, _) => n in w.peers && !w.peers[n].isDisposed
    case RemoveReference(n, _) => n in w.peers && !MayAcquire(w.peers[n].at)
    case FinishActorStop(n) => n in w.peers && w.peers[n].at.ActorStop?
    case RunStrayExtend(n) => n in w.strays
  }

  /** What Redis does with the outstanding request of node `n`. */
  function ScriptNext(cfg: Config, w: World, n: NodeId): World
    requires n in w.peers && w.peers[n].at.Request?
  {
    var p := w.peers[n];
    match p.at.command
    case StartAndAcquire | AttemptAcquire =>
      var (key, leader) := Acquire(w.key, w.now, n, cfg.leaseDuration);
      w.(key := key, peers := w.peers[n := p.(at := Reply(p.at.command, Leader(leader)))],
         granted := if Live(w.key, w.now) then w.granted else w.granted[n := w.now],
         expiry := if Live(w.key, w.now) then w.expiry else w.expiry[n := key.expiresAt])
    case ExtendLease =>
      var (key, valid) := Extend(w.key, w.now, n, cfg.leaseDuration);
      w.(key := key, peers := w.peers[n := p.(at := Reply(ExtendLease, LeaseValid(valid)))],
         granted := if valid then w.granted[n := w.now] else w.granted,
         expiry := if valid then w.expiry[n := key.expiresAt] else w.expiry)
    case ReleaseLease =>
      var (key, _) := Release(w.key, w.now, n);
      w.(key := key, peers := w.peers[n := p.(at := Reply(ReleaseLease, Released))])
  }

  /** The code of a peer that an answer wakes up. */
  function Answered(cfg: Config, n: NodeId, p: Peer, conn: ConnId, now: int, random: int): Peer
    requires p.at.Reply?
  {
    match p.at
    case Reply(StartAndAcquire, Leader(leader)) => OnStartReply(cfg, n, p, leader, conn, now, random)
    case Reply(ExtendLease, LeaseValid(valid)) => OnExtendReply(cfg, n, p, valid, now)
    case Reply(AttemptAcquire, Leader(leader)) => OnAcquireReply(cfg, n, p, leader, now, random)
    case Reply(_, _) => p.(at := Finished)
  }

  function Next(cfg: Config, w: World, step: Step): World
    requires Enabled(cfg, w, step)
  {
    match step
    case Tick(elapsed) => w.(now := w.now + elapsed)
    case StartPeer(n) => w.(peers := w.peers[n := NEW_PEER])
    case RunScript(n) => ScriptNext(cfg, w, n)
    case Deliver(n, conn, random) =>
      w.(peers := w.peers[n := Answered(cfg, n, w.peers[n], conn, w.now, random)])
    case FinishActorStart(n, conn) =>
      w.(peers := w.peers[n := OnActorStarted(cfg, n, w.peers[n], conn, w.now)])
    case FireTimer(n) => w.(peers := w.peers[n := OnHeartbeat(n, w.peers[n])])
    case AddReference(n, conn) =>
      var p := w.peers[n];
      w.(peers := w.peers[n := p.(referenceConnections := p.referenceConnections + {conn})])
    case RemoveReference(n, conn) =>
      var p := w.peers[n];
      var q := RemoveConnectionReference(n, p, conn);
      w.(peers := w.peers[n := q],
         strays := if q.isDisposed && !p.isDisposed && p.at == Request(ExtendLease)
                   then w.strays + multiset{n} else w.strays)
    case FinishActorStop(n) =>
      w.(peers := w.peers[n := OnActorStopped(n, w.peers[n], w.peers[n].at.releaseLease)])
    case RunStrayExtend(n) =>
      var (key, valid) := Extend(w.key, w.now, n, cfg.leaseDuration);
      w.(key := key, strays := w.strays - multiset{n},
         expiry := if valid then w.expiry[n := key.expiresAt] else w.expiry)
  }

  /** A run from the empty system: `states[i + 1]` is what `steps[i]` makes of `states[i]`. */
  ghost predicate IsRun(cfg: Config, states: seq<World>, steps: seq<Step>) {
    && |states| == |steps| + 1
    && states[0] == INITIAL
    && forall i | 0 <= i < |steps| ::
         Enabled(cfg, states[i], steps[i]) && states[i + 1] == Next(cfg, states[i], steps[i])
  }

  predicate Holds(w: World, n: NodeId) {
    HeldBy(w.key, w.now, n)
  }

  // ---------- What holds in every run, without any timing assumption ----------

  /** Peers whose node may be the value of the lease key. */
  predicate MayHold(n: NodeId, p: Peer) {
    || p.at == Reply(StartAndAcquire, Leader(n))
    || p.at == Reply(AttemptAcquire, Leader(n))
    || (&& p.IsLeader(n)
        && p.at != Reply(ExtendLease, LeaseValid(false))
        && p.at != ActorStop(false)
        && p.at != Reply(ReleaseLease, Released)
        && p.at != Finished)
  }

  ghost predicate Inv(w: World) {
    && (forall n | n in w.peers :: WellFormed(n, w.peers[n]))
    && (forall n | Holds(w, n) :: n in w.peers && MayHold(n, w.peers[n]))
  }

  lemma NextKeepsWellFormed(cfg: Config, w: World, step: Step)
    requires Enabled(cfg, w, step) && forall n | n in w.peers :: WellFormed(n, w.peers[n])
    ensures forall n | n in Next(cfg, w, step).peers :: WellFormed(n, Next(cfg, w, step).peers[n])
  {
  }

  /** After a step, the node that holds the lease has a peer that accounts for it. */
  lemma NextKeepsHolder(cfg: Config, w: World, step: Step, n: NodeId)
    requires Inv(w) && Enabled(cfg, w, step) && Holds(Next(cfg, w, step), n)
    ensures n in Next(cfg, w, step).peers && MayHold(n, Next(cfg, w, step).peers[n])
  {
    if step.Tick? || step.RunStrayExtend? || (step.RunScript? && w.peers[step.node].at.command.ExtendLease?) {
      assert Holds(w, n);
    }
  }

  lemma NextKeepsInv(cfg: Config, w: World, step: Step)
    requires Inv(w) && Enabled(cfg, w, step)
    ensures Inv(Next(cfg, w, step))
  {
    NextKeepsWellFormed(cfg, w, step);
    forall n | Holds(Next(cfg, w, step), n)
      ensures n in Next(cfg, w, step).peers && MayHold(n, Next(cfg, w, step).peers[n])
    {
      NextKeepsHolder(cfg, w, step, n);
    }
  }

  lemma {:induction false} RunKeepsInv(cfg: Config, states: seq<World>, steps: seq<Step>, i: nat)
    requires IsRun(cfg, states, steps) && i < |states|
    ensures Inv(states[i])
  {
    if i > 0 {
      RunKeepsInv(cfg, states, steps, i - 1);
      NextKeepsInv(cfg, states[i - 1], steps[i - 1]);
    }
  }

  /**
   The only ways to lose a lease: it expires, or the holder's own peer releases it. In particular no
   other node's release, renewal or acquisition takes it away.
   */
  lemma LeaseLossCauses(cfg: Config, w: World, step: Step, n: NodeId)
    requires 0 < cfg.leaseDuration && Enabled(cfg, w, step) && Holds(w, n)
    ensures !Holds(Next(cfg, w, step), n) <==>
              || (step.Tick? && w.key.expiresAt <= w.now + step.elapsed)
              || (step == RunScript(n) && w.peers[n].at == Request(ReleaseLease))
  {
  }

  /** The peer of `n` was granted the lease and has not been disposed since. */
  predicate Tenure(w: World, n: NodeId) {
    && n in w.peers
    && !w.peers[n].isDisposed
    && (w.peers[n].IsLeader(n) || (w.peers[n].at.Reply? && w.peers[n].at.answer == Leader(n)))
  }

  /** A leader never acquires, so a lease that is lost during a tenure is not regained in it. */
  lemma LostStaysLost(cfg: Config, w: World, step: Step, n: NodeId)
    requires Inv(w) && Enabled(cfg, w, step) && Tenure(w, n) && !Holds(w, n)
    ensures !Holds(Next(cfg, w, step), n)
  {
  }

  lemma {:induction false} LostUntilRenewal(cfg: Config, states: seq<World>, steps: seq<Step>, n: NodeId, k: nat, j: nat)
    requires IsRun(cfg, states, steps) && k <= j < |states|
    requires forall x | k <= x < j :: Tenure(states[x], n)
    requires !Holds(states[k], n)
    ensures !Holds(states[j], n)
    decreases j - k
  {
    if k < j {
      RunKeepsInv(cfg, states, steps, k);
      LostStaysLost(cfg, states[k], steps[k], n);
      LostUntilRenewal(cfg, states, steps, n, k + 1, j);
    }
  }

  /**
   Lease continuity. When the renewal of a peer reaches Redis at step `j`, it is answered "valid" exactly
   when the peer's node has held the lease in every state since any earlier state `i` of the same tenure,
   in particular since the tenure's previous success.
   */
  lemma LeaseContinuity(cfg: Config, states: seq<World>, steps: seq<Step>, n: NodeId, i: nat, j: nat)
    requires IsRun(cfg, states, steps) && i <= j < |steps|
    requires forall k | i <= k <= j :: Tenure(states[k], n)
    requires steps[j] == RunScript(n) && states[j].peers[n].at == Request(ExtendLease)
    ensures states[j + 1].peers[n].at == Reply(ExtendLease, LeaseValid(true)) <==>
              forall k | i <= k <= j :: Holds(states[k], n)
  {
    if states[j + 1].peers[n].at == Reply(ExtendLease, LeaseValid(true)) {
      forall k | i <= k <= j ensures Holds(states[k], n) {
        if !Holds(states[k], n) {
          LostUntilRenewal(cfg, states, steps, n, k, j);
        }
      }
    } else {
      assert !Holds(states[j], n);
    }
  }

  // ---------- What holds in runs that meet the timing assumption ----------

  /**
   The part of the current leader round that is not the intended wait between renewals: the latency
   of the answer, the awaited start of the actor, the lateness of the timer, the latency of the request.
   */
  function Slack(cfg: Config, w: World, n: NodeId): int
    requires n in w.peers && n in w.granted
  {
    match w.peers[n].at
    case Timer(fireAt) =>
      fireAt - cfg.RenewAfter() - w.granted[n] + if fireAt < w.now then w.now - fireAt else 0
    case Request(_) => w.now - w.granted[n] - cfg.RenewAfter()
    case _ => w.now - w.granted[n]
  }

  /** The timing assumption: no leader round has spent `renewLeaseGrace` or more outside its intended wait. */
  ghost predicate Timely(cfg: Config, w: World) {
    forall n | Tenure(w, n) && n in w.granted :: Slack(cfg, w, n) < cfg.renewLeaseGrace
  }

  /** The key still carries what the peer of `n` was granted last, and a waiting peer renews it in time. */
  predicate TimedAt(cfg: Config, w: World, n: NodeId)
    requires n in w.peers
  {
    && n in w.granted
    && w.granted[n] <= w.now
    && w.key.Entry? && w.key.node == n
    && w.granted[n] + cfg.leaseDuration <= w.key.expiresAt
    && w.peers[n].at != Reply(ExtendLease, LeaseValid(false))
    && (w.peers[n].at.Timer? ==> w.granted[n] <= w.peers[n].at.fireAt - cfg.RenewAfter())
  }

  ghost predicate TimedInv(cfg: Config, w: World) {
    forall n | Tenure(w, n) :: TimedAt(cfg, w, n)
  }

  lemma TimelyLeaderHolds(cfg: Config, w: World, n: NodeId)
    requires cfg.Valid() && TimedInv(cfg, w) && Timely(cfg, w) && Tenure(w, n)
    ensures Holds(w, n)
  {
    assert Slack(cfg, w, n) < cfg.renewLeaseGrace;
  }

  lemma ScriptKeepsTimedAt(cfg: Config, w: World, m: NodeId, n: NodeId)
    requires cfg.Valid() && m in w.peers && w.peers[m].at.Request? && WellFormed(m, w.peers[m])
    requires Holds(w, m) ==> MayHold(m, w.peers[m])
    requires Tenure(w, n) ==> TimedAt(cfg, w, n) && Holds(w, n)
    requires Tenure(ScriptNext(cfg, w, m), n)
    ensures TimedAt(cfg, ScriptNext(cfg, w, m), n)
  {
  }

  lemma NextKeepsTimedAt(cfg: Config, w: World, step: Step, n: NodeId)
    requires cfg.Valid() && Enabled(cfg, w, step) && Inv(w)
    requires Tenure(w, n) ==> TimedAt(cfg, w, n) && Holds(w, n)
    requires Tenure(Next(cfg, w, step), n)
    ensures TimedAt(cfg, Next(cfg, w, step), n)
  {
    match step {
      case RunScript(m) => ScriptKeepsTimedAt(cfg, w, m, n);
      case Tick(_) =>
      case StartPeer(_) =>
      case Deliver(_, _, _) =>
      case FinishActorStart(_, _) =>
      case FireTimer(_) =>
      case AddReference(_, _) =>
      case RemoveReference(_, _) =>
      case FinishActorStop(_) =>
      case RunStrayExtend(_) =>
    }
  }

  lemma NextKeepsTimedInv(cfg: Config, w: World, step: Step)
    requires cfg.Valid() && Enabled(cfg, w, step)
    requires Inv(w) && TimedInv(cfg, w) && Timely(cfg, w)
    ensures TimedInv(cfg, Next(cfg, w, step))
  {
    forall n | Tenure(Next(cfg, w, step), n) ensures TimedAt(cfg, Next(cfg, w, step), n) {
      if Tenure(w, n) {
        TimelyLeaderHolds(cfg, w, n);
      }
      NextKeepsTimedAt(cfg, w, step, n);
    }
  }

  lemma {:induction false} RunKeepsTimedInv(cfg: Config, states: seq<World>, steps: seq<Step>, i: nat)
    requires cfg.Valid() && IsRun(cfg, states, steps) && i < |states|
    requires forall k | 0 <= k < i :: Timely(cfg, states[k])
    ensures TimedInv(cfg, states[i])
  {
    if i > 0 {
      RunKeepsTimedInv(cfg, states, steps, i - 1);
      RunKeepsInv(cfg, states, steps, i - 1);
      NextKeepsTimedInv(cfg, states[i - 1], steps[i - 1]);
    }
  }

  /** Undisposed peers that believe to be the leader. */
  predicate ActiveLeader(w: World, n: NodeId) {
    n in w.peers && !w.peers[n].isDisposed && w.peers[n].IsLeader(n)
  }

  ghost predicate MutualExclusion(w: World) {
    && (forall n, m | ActiveLeader(w, n) && ActiveLeader(w, m) :: n == m)
    && (forall n | ActiveLeader(w, n) :: Holds(w, n))
  }

  /** In every run whose states so far are timely there is at most one active leader, and its node holds the lease. */
  lemma TimedMutualExclusion(cfg: Config, states: seq<World>, steps: seq<Step>, i: nat)
    requires cfg.Valid() && IsRun(cfg, states, steps) && i < |states|
    requires forall k | 0 <= k <= i :: Timely(cfg, states[k])
    ensures MutualExclusion(states[i])
  {
    RunKeepsTimedInv(cfg, states, steps, i);
    forall n | ActiveLeader(states[i], n) ensures Holds(states[i], n) {
      TimelyLeaderHolds(cfg, states[i], n);
    }
  }

  /** Under the timing assumption no renewal is ever refused, so no leader shuts itself down. */
  lemma TimelyRenewalsSucceed(cfg: Config, states: seq<World>, steps: seq<Step>, i: nat, n: NodeId)
    requires cfg.Valid() && IsRun(cfg, states, steps) && i < |states|
    requires forall k | 0 <= k < i :: Timely(cfg, states[k])
    ensures Tenure(states[i], n) ==> states[i].peers[n].at != Reply(ExtendLease, LeaseValid(false))
  {
    RunKeepsTimedInv(cfg, states, steps, i);
  }

  // ---------- What a round achieves ----------

  /** The states that a sequence of steps leads through, one after the other, all of them enabled. */
  ghost predicate Leads(cfg: Config, w: World, steps: seq<Step>, v: World)
    decreases |steps|
  {
    if steps == [] then v == w
    else Enabled(cfg, w, steps[0]) && Leads(cfg, Next(cfg, w, steps[0]), steps[1..], v)
  }

  lemma LeadsOne(cfg: Config, w: World, a: Step, rest: seq<Step>, v: World)
    requires Enabled(cfg, w, a) && Leads(cfg, Next(cfg, w, a), rest, v)
    ensures Leads(cfg, w, [a] + rest, v)
  {
    assert ([a] + rest)[1..] == rest;
  }

  lemma LeadsThree(cfg: Config, w: World, a: Step, b: Step, c: Step) returns (v: World)
    requires Enabled(cfg, w, a) && Enabled(cfg, Next(cfg, w, a), b)
    requires Enabled(cfg, Next(cfg, Next(cfg, w, a), b), c)
    ensures v == Next(cfg, Next(cfg, Next(cfg, w, a), b), c) && Leads(cfg, w, [a, b, c], v)
  {
    var x := Next(cfg, w, a);
    var y := Next(cfg, x, b);
    v := Next(cfg, y, c);
    LeadsOne(cfg, y, c, [], v);
    LeadsOne(cfg, x, b, [c], v);
    LeadsOne(cfg, w, a, [b, c], v);
    assert [c] + [] == [c] && [b] + [c] == [b, c] && [a] + [b, c] == [a, b, c];
  }

  /** Whenever a renewal reaches Redis while its node holds the lease, the lease lasts a full duration from then on. */
  lemma RenewalExtends(cfg: Config, states: seq<World>, steps: seq<Step>, n: NodeId, i: nat, t: int)
    requires IsRun(cfg, states, steps) && i < |steps| && steps[i] == RunScript(n)
    requires states[i].peers[n].at == Request(ExtendLease) && Holds(states[i], n)
    ensures HeldBy(states[i + 1].key, t, n) <==> t < states[i].now + cfg.leaseDuration
  {
  }

  /** A leader whose renewal timer fires while it holds the lease has it for another full duration, and sleeps on. */
  lemma RoundRenews(cfg: Config, w: World, n: NodeId, conn: ConnId) returns (v: World)
    requires 0 <= cfg.checkLeaseJitter && Inv(w) && ActiveLeader(w, n) && Holds(w, n)
    requires w.peers[n].at.Timer? && w.peers[n].at.fireAt <= w.now
    ensures Leads(cfg, w, [FireTimer(n), RunScript(n), Deliver(n, conn, 0)], v)
    ensures v.key == Entry(n, w.now + cfg.leaseDuration) && v.now == w.now
    ensures v.peers == w.peers[n := w.peers[n].(at := Timer(w.now + cfg.leaseDuration - cfg.renewLeaseGrace))]
  {
    var fire, run, deliver := FireTimer(n), RunScript(n), Deliver(n, conn, 0);
    assert Next(cfg, w, fire).peers[n].at == Request(ExtendLease);
    assert Next(cfg, Next(cfg, w, fire), run).peers[n].at == Reply(ExtendLease, LeaseValid(true));
    v := LeadsThree(cfg, w, fire, run, deliver);
  }

  /** A follower whose timer fires when the lease has run out becomes the leader and holds it. */
  lemma RoundTakesOver(cfg: Config, w: World, n: NodeId, conn: ConnId, random: int) returns (v: World)
    requires Inv(w) && n in w.peers && !w.peers[n].isDisposed && !w.peers[n].IsLeader(n) && !Live(w.key, w.now)
    requires w.peers[n].at.Timer? && w.peers[n].at.fireAt <= w.now && 0 <= random <= cfg.checkLeaseJitter
    ensures Leads(cfg, w, [FireTimer(n), RunScript(n), Deliver(n, conn, random)], v)
    ensures v.key == Entry(n, w.now + cfg.leaseDuration) && v.now == w.now
    ensures ActiveLeader(v, n) && v.peers[n].loadedActor
    ensures v.peers[n].at == Timer(w.now + cfg.leaseDuration - cfg.renewLeaseGrace)
  {
    var fire, run, deliver := FireTimer(n), RunScript(n), Deliver(n, conn, random);
    assert Next(cfg, w, fire).peers[n].at == Request(AttemptAcquire);
    assert Next(cfg, Next(cfg, w, fire), run).peers[n].at == Reply(AttemptAcquire, Leader(n));
    v := LeadsThree(cfg, w, fire, run, deliver);
  }

  /** A follower whose timer fires while another node holds the lease learns its name and changes nothing else. */
  lemma RoundFollows(cfg: Config, w: World, n: NodeId, conn: ConnId, random: int) returns (v: World)
    requires Inv(w) && n in w.peers && !w.peers[n].isDisposed && !w.peers[n].IsLeader(n)
    requires Live(w.key, w.now) && w.key.node != n
    requires w.peers[n].at.Timer? && w.peers[n].at.fireAt <= w.now && 0 <= random <= cfg.checkLeaseJitter
    ensures Leads(cfg, w, [FireTimer(n), RunScript(n), Deliver(n, conn, random)], v)
    ensures v.key == w.key && v.now == w.now
    ensures v.peers == w.peers[n := w.peers[n].(leaderNodeId := Some(w.key.node),
                                                at := Timer(w.now + cfg.checkLeaseInterval + random))]
  {
    var fire, run, deliver := FireTimer(n), RunScript(n), Deliver(n, conn, random);
    assert Next(cfg, w, fire).peers[n].at == Request(AttemptAcquire);
    assert Next(cfg, Next(cfg, w, fire), run).peers[n].at == Reply(AttemptAcquire, Leader(w.key.node));
    v := LeadsThree(cfg, w, fire, run, deliver);
  }

  /** A leader whose renewal is refused stops its actor and finishes without touching the key. */
  lemma RefusedLeaderStops(cfg: Config, w: World, n: NodeId, conn: ConnId) returns (v: World)
    requires 0 <= cfg.checkLeaseJitter && Inv(w) && n in w.peers && !Holds(w, n)
    requires w.peers[n].at == Request(ExtendLease)
    ensures Leads(cfg, w, [RunScript(n), Deliver(n, conn, 0), FinishActorStop(n)], v)
    ensures v.key == w.key && v.peers == w.peers[n := w.peers[n].(isDisposed := true, at := Finished)]
  {
    var run, deliver, stop := RunScript(n), Deliver(n, conn, 0), FinishActorStop(n);
    assert Next(cfg, w, run).peers[n].at == Reply(ExtendLease, LeaseValid(false));
    assert Next(cfg, Next(cfg, w, run), deliver).peers[n].at == ActorStop(false);
    v := LeadsThree(cfg, w, run, deliver, stop);
  }

  /** A leader that loses its last reference while it sleeps gives the lease back, so that anybody can take it at once. */
  lemma LastReferenceReleases(cfg: Config, w: World, n: NodeId, conn: ConnId) returns (v: World)
    requires Inv(w) && ActiveLeader(w, n) && Holds(w, n) && w.peers[n].at.Timer?
    requires w.peers[n].referenceConnections <= {conn}
    ensures Leads(cfg, w, [RemoveReference(n, conn), FinishActorStop(n), RunScript(n)], v)
    ensures v.key == Missing && n in v.peers && v.peers[n].isDisposed && v.peers[n].at == Reply(ReleaseLease, Released)
  {
    var remove, stop, run := RemoveReference(n, conn), FinishActorStop(n), RunScript(n);
    assert w.peers[n].referenceConnections - {conn} == {};
    assert Next(cfg, w, remove).peers[n].at == ActorStop(true);
    assert Next(cfg, Next(cfg, w, remove), stop).peers[n].at == Request(ReleaseLease);
    v := LeadsThree(cfg, w, remove, stop, run);
  }

  /** A connection that has joined a peer keeps it going, whichever other connection leaves. */
  lemma ReferenceKeepsPeer(cfg: Config, w: World, n: NodeId, conn: ConnId, other: ConnId)
    requires n in w.peers && !w.peers[n].isDisposed && !MayAcquire(w.peers[n].at) && conn != other
    ensures var joined := Next(cfg, w, AddReference(n, conn));
            && Enabled(cfg, joined, RemoveReference(n, other))
            && Next(cfg, joined, RemoveReference(n, other)) ==
                 w.(peers := w.peers[n := w.peers[n].(
                      referenceConnections := w.peers[n].referenceConnections + {conn} - {other})])
  {
    assert conn in w.peers[n].referenceConnections + {conn} - {other};
  }

  /** A new peer leads if nobody holds the lease, once its actor has started. */
  lemma StartLeads(cfg: Config, w: World, n: NodeId, conn: ConnId) returns (v: World)
    requires 0 <= cfg.checkLeaseJitter && (n in w.peers ==> w.peers[n].at.Finished?) && !Live(w.key, w.now)
    ensures Leads(cfg, w, [StartPeer(n), RunScript(n), Deliver(n, conn, 0), FinishActorStart(n, conn)], v)
    ensures v.key == Entry(n, w.now + cfg.leaseDuration)
    ensures n in v.peers && v.peers[n] ==
              Peer(Some(n), true, false, {conn}, Timer(w.now + cfg.leaseDuration - cfg.renewLeaseGrace))
  {
    var run, deliver, started := RunScript(n), Deliver(n, conn, 0), FinishActorStart(n, conn);
    var u := Next(cfg, w, StartPeer(n));
    assert Next(cfg, u, run).peers[n].at == Reply(StartAndAcquire, Leader(n));
    assert Next(cfg, Next(cfg, u, run), deliver).peers[n].at == ActorStart;
    v := LeadsThree(cfg, u, run, deliver, started);
    LeadsOne(cfg, w, StartPeer(n), [run, deliver, started], v);
    assert [StartPeer(n)] + [run, deliver, started] == [StartPeer(n), run, deliver, started];
    assert {} + {conn} == {conn};
  }

  /** A new peer follows the node that holds the lease, and leaves the key as it is. */
  lemma StartFollows(cfg: Config, w: World, n: NodeId, conn: ConnId, random: int) returns (v: World)
    requires (n in w.peers ==> w.peers[n].at.Finished?) && Live(w.key, w.now) && w.key.node != n
    requires 0 <= random <= cfg.checkLeaseJitter
    ensures Leads(cfg, w, [StartPeer(n), RunScript(n), Deliver(n, conn, random)], v)
    ensures v.key == w.key && n in v.peers && v.peers[n] ==
              Peer(Some(w.key.node), false, false, {conn}, Timer(w.now + cfg.checkLeaseInterval + random))
  {
    var start, run, deliver := StartPeer(n), RunScript(n), Deliver(n, conn, random);
    assert Next(cfg, Next(cfg, w, start), run).peers[n].at == Reply(StartAndAcquire, Leader(w.key.node));
    v := LeadsThree(cfg, w, start, run, deliver);
    assert {} + {conn} == {conn};
  }

  /** A renewal that outlives its peer still prolongs the lease, if its node holds it, and happens once. */
  lemma StrayRenewalExtends(cfg: Config, w: World, n: NodeId, t: int)
    requires n in w.strays
    ensures var v := Next(cfg, w, RunStrayExtend(n));
            && v.strays == w.strays - multiset{n} && v.peers == w.peers
            && (Holds(w, n) ==> (HeldBy(v.key, t, n) <==> t < w.now + cfg.leaseDuration))
            && (!Holds(w, n) ==> v.key == w.key)
  {
  }

  // ---------- Exactly when the active leaders exclude each other ----------

  /** The key runs out when the lease last written for its node does, and a peer's lease stays in it until then. */
  predicate ExpiryAt(w: World, n: NodeId) {
    && (w.key.Entry? && w.key.node == n ==> n in w.expiry && w.expiry[n] == w.key.expiresAt)
    && (Tenure(w, n) ==> n in w.expiry && (w.now < w.expiry[n] ==> w.key == Entry(n, w.expiry[n])))
  }

  lemma ScriptKeepsExpiryAt(cfg: Config, w: World, m: NodeId, n: NodeId)
    requires m in w.peers && w.peers[m].at.Request? && WellFormed(m, w.peers[m])
    requires ExpiryAt(w, m) && ExpiryAt(w, n)
    ensures ExpiryAt(ScriptNext(cfg, w, m), n)
  {
  }

  lemma NextKeepsExpiryAt(cfg: Config, w: World, step: Step, n: NodeId)
    requires Inv(w) && Enabled(cfg, w, step) && forall m :: ExpiryAt(w, m)
    ensures ExpiryAt(Next(cfg, w, step), n)
  {
    match step {
      case RunScript(m) => ScriptKeepsExpiryAt(cfg, w, m, n);
      case RunStrayExtend(m) => assert ExpiryAt(w, m) && ExpiryAt(w, n);
      case Tick(_) => assert ExpiryAt(w, n);
      case StartPeer(_) => assert ExpiryAt(w, n);
      case Deliver(_, _, _) => assert ExpiryAt(w, n);
      case FinishActorStart(_, _) => assert ExpiryAt(w, n);
      case FireTimer(_) => assert ExpiryAt(w, n);
      case AddReference(_, _) => assert ExpiryAt(w, n);
      case RemoveReference(_, _) => assert ExpiryAt(w, n);
      case FinishActorStop(_) => assert ExpiryAt(w, n);
    }
  }

  lemma {:induction false} RunKeepsExpiry(cfg: Config, states: seq<World>, steps: seq<Step>, i: nat)
    requires IsRun(cfg, states, steps) && i < |states|
    ensures forall n :: ExpiryAt(states[i], n)
  {
    if i > 0 {
      RunKeepsExpiry(cfg, states, steps, i - 1);
      RunKeepsInv(cfg, states, steps, i - 1);
      forall n ensures ExpiryAt(states[i], n) {
        NextKeepsExpiryAt(cfg, states[i - 1], steps[i - 1], n);
      }
    }
  }

  /**
   Without any timing assumption: in every state of every run there is at most one active leader and it holds the
   lease, if and only if no active leader has outlived the lease last written for its node.
   */
  lemma ExclusionExactly(cfg: Config, states: seq<World>, steps: seq<Step>, i: nat)
    requires IsRun(cfg, states, steps) && i < |states|
    ensures MutualExclusion(states[i]) <==>
              forall n | ActiveLeader(states[i], n) :: n in states[i].expiry && states[i].now < states[i].expiry[n]
  {
    var w := states[i];
    RunKeepsExpiry(cfg, states, steps, i);
    forall n | ActiveLeader(w, n) ensures Holds(w, n) <==> n in w.expiry && w.now < w.expiry[n] {
      assert ExpiryAt(w, n);
    }
  }

  lemma OneMoreStep(cfg: Config, states: seq<World>, steps: seq<Step>, step: Step)
    returns (states': seq<World>, steps': seq<Step>)
    requires IsRun(cfg, states, steps) && Enabled(cfg, states[|steps|], step)
    ensures IsRun(cfg, states', steps') && states'[|steps'|] == Next(cfg, states[|steps|], step)
  {
    states', steps' := states + [Next(cfg, states[|steps|], step)], steps + [step];
  }

  /**
   The assumption is needed: a leader whose renewal timer is late by more than the grace shares
   the leadership with the node that took over the expired lease.
   */
  lemma LateRenewalBreaksExclusion() returns (cfg: Config, states: seq<World>, steps: seq<Step>)
    ensures cfg.Valid() && IsRun(cfg, states, steps)
    ensures var w := states[|steps|];
            && ActiveLeader(w, "a") && ActiveLeader(w, "b")
            && w.peers["a"].at.Timer? && w.now - w.peers["a"].at.fireAt > cfg.renewLeaseGrace
  {
    cfg := Config(3000, 1000, 1000, 500);
    states, steps := OneMoreStep(cfg, [INITIAL], [], StartPeer("a"));
    states, steps := OneMoreStep(cfg, states, steps, RunScript("a"));
    assert states[|steps|].key == Entry("a", 3000);
    states, steps := OneMoreStep(cfg, states, steps, Deliver("a", "c", 0));
    states, steps := OneMoreStep(cfg, states, steps, FinishActorStart("a", "c"));
    assert states[|steps|].peers["a"].at == Timer(2000);
    states, steps := OneMoreStep(cfg, states, steps, Tick(3500));
    assert "a"[0] != "b"[0];
    states, steps := OneMoreStep(cfg, states, steps, StartPeer("b"));
    states, steps := OneMoreStep(cfg, states, steps, RunScript("b"));
    assert states[|steps|].key == Entry("b", 6500);
    states, steps := OneMoreStep(cfg, states, steps, Deliver("b", "d", 0));
  }
}
