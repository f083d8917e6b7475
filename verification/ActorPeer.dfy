/**
 One node's peer for one actor. The peer's asynchronous methods are cut at their
 `await`s: `at` records where the peer's code is suspended, and every function below is
 the code that runs from one suspension to the next.
 */
module ActorPeers {
  import opened Wrappers
  import opened LeaseScripts

  type ConnId = string

  datatype Config = Config(leaseDuration: int, renewLeaseGrace: int, checkLeaseInterval: int, checkLeaseJitter: int)
  {
    /** The configurations with which scheduling a heartbeat does not throw. */
    predicate Valid() {
      renewLeaseGrace <= leaseDuration && 0 <= checkLeaseInterval && 0 <= checkLeaseJitter
    }

    /** What a leader waits between the answer to one renewal and the next renewal. */
    function RenewAfter(): int {
      leaseDuration - renewLeaseGrace
    }

    /** The delay of the next heartbeat; `random` stands for the jitter drawn by a follower. */
    function HeartbeatTimeout(isLeader: bool, random: int): int {
      if isLeader then RenewAfter() else checkLeaseInterval + random
    }
  }

  datatype Command = StartAndAcquire | ExtendLease | AttemptAcquire | ReleaseLease

  datatype Answer = Leader(node: NodeId) | LeaseValid(valid: bool) | Released

  datatype Suspension =
    | Request(command: Command)                  // the script has not reached Redis yet
    | Reply(answered: Command, answer: Answer)   // Redis has run it, the answer is on its way
    | ActorStart                                 // `#start` awaits the actor it loads
    | Timer(fireAt: int)                         // waiting for the next heartbeat
    | ActorStop(releaseLease: bool)              // `#dispose` awaits the actor it stops
    | Finished                                   // `#dispose` has returned

  datatype Peer = Peer(leaderNodeId: Option<NodeId>, loadedActor: bool, isDisposed: bool,
                       referenceConnections: set<ConnId>, at: Suspension)
  {
    predicate IsLeader(self: NodeId) {
      leaderNodeId == Some(self)
    }
  }

  const NEW_PEER := Peer(None, false, false, {}, Request(StartAndAcquire))

  function ScheduleHeartbeat(cfg: Config, self: NodeId, p: Peer, now: int, random: int): Peer {
    p.(at := Timer(now + cfg.HeartbeatTimeout(p.IsLeader(self), random)))
  }

  /** `#start` after the driver has answered: a leader loads its actor, a follower goes to sleep. */
  function OnStartReply(cfg: Config, self: NodeId, p: Peer, leader: NodeId, conn: ConnId, now: int, random: int): Peer {
    var q := p.(leaderNodeId := Some(leader));
    if leader == self then q.(loadedActor := true, at := ActorStart)
    else ScheduleHeartbeat(cfg, self, q.(referenceConnections := q.referenceConnections + {conn}), now, random)
  }

  /** `#start` after the actor has started, and the line of `acquire` behind it. */
  function OnActorStarted(cfg: Config, self: NodeId, p: Peer, conn: ConnId, now: int): Peer {
    ScheduleHeartbeat(cfg, self, p.(referenceConnections := p.referenceConnections + {conn}), now, 0)
  }

  /** `#heartbeat`: a leader renews, a follower tries to take over. */
  function OnHeartbeat(self: NodeId, p: Peer): Peer {
    if p.isDisposed then p
    else p.(at := Request(if p.IsLeader(self) then ExtendLease else AttemptAcquire))
  }

  /** `#dispose`: the actor is stopped first, and the lease is released only by a leader. */
  function Dispose(self: NodeId, p: Peer, releaseLease: bool): Peer {
    if p.isDisposed then p
    else if p.IsLeader(self) && p.loadedActor then p.(isDisposed := true, at := ActorStop(releaseLease))
    else if p.IsLeader(self) && releaseLease then p.(isDisposed := true, at := Request(ReleaseLease))
    else p.(isDisposed := true, at := Finished)
  }

  function OnActorStopped(self: NodeId, p: Peer, releaseLease: bool): Peer {
    p.(at := if p.IsLeader(self) && releaseLease then Request(ReleaseLease) else Finished)
  }

  function OnExtendReply(cfg: Config, self: NodeId, p: Peer, valid: bool, now: int): Peer {
    if valid then ScheduleHeartbeat(cfg, self, p, now, 0) else Dispose(self, p, false)
  }

  /** `#attemptAcquireLease` after its answer; a promoted peer loads its actor without awaiting it. */
  function OnAcquireReply(cfg: Config, self: NodeId, p: Peer, newLeader: NodeId, now: int, random: int): Peer {
    var isPromoted := !p.IsLeader(self) && newLeader == self;
    var q := p.(leaderNodeId := Some(newLeader), loadedActor := p.loadedActor || isPromoted);
    ScheduleHeartbeat(cfg, self, q, now, random)
  }

  function RemoveConnectionReference(self: NodeId, p: Peer, conn: ConnId): Peer {
    var q := p.(referenceConnections := p.referenceConnections - {conn});
    if q.referenceConnections == {} then Dispose(self, q, true) else q
  }

  /**
   What holds of a peer between two suspensions: `#isLeader` and the loaded actor go together, and
   the suspension point agrees with the peer's role.
   */
  predicate WellFormed(self: NodeId, p: Peer) {
    && p.loadedActor == p.IsLeader(self)
    && match p.at
       case Request(StartAndAcquire) => !p.isDisposed && p.leaderNodeId.None?
       case Reply(StartAndAcquire, a) => !p.isDisposed && p.leaderNodeId.None? && a.Leader?
       case ActorStart => !p.isDisposed && p.IsLeader(self)
       case Timer(_) => !p.isDisposed && p.leaderNodeId.Some?
       case Request(ExtendLease) => !p.isDisposed && p.IsLeader(self)
       case Reply(ExtendLease, a) => !p.isDisposed && p.IsLeader(self) && a.LeaseValid?
       case Request(AttemptAcquire) => !p.isDisposed && p.leaderNodeId.Some? && !p.IsLeader(self)
       case Reply(AttemptAcquire, a) => !p.isDisposed && p.leaderNodeId.Some? && !p.IsLeader(self) && a.Leader?
       case ActorStop(_) => p.isDisposed && p.IsLeader(self)
       case Request(ReleaseLease) => p.isDisposed && p.IsLeader(self)
       case Reply(ReleaseLease, a) => p.isDisposed && p.IsLeader(self) && a.Released?
       case Finished => p.isDisposed
  }

  /** `ActorPeer.getLeaderActor`: its answer, or the assertion it throws. */
  datatype LeaderActor = NoActor | LoadedActor | AssertionFailed

  function GetLeaderActor(self: NodeId, p: Option<Peer>): (r: LeaderActor)
    ensures p.Some? && WellFormed(self, p.value) ==>
              !r.AssertionFailed? && (r.LoadedActor? <==> p.value.leaderNodeId == Some(self))
  {
    if p.None? || !p.value.IsLeader(self) then NoActor
    else if p.value.loadedActor then LoadedActor else AssertionFailed
  }

  /** The peer as the source has it, an object whose fields its methods update. */
  class ActorPeer {
    const nodeId: NodeId
    const cfg: Config
    var leaderNodeId: Option<NodeId>
    var loadedActor: bool
    var isDisposed: bool
    var referenceConnections: set<ConnId>
    var at: Suspension

    ghost function State(): Peer
      reads this
    {
      Peer(leaderNodeId, loadedActor, isDisposed, referenceConnections, at)
    }

    constructor (nodeId: NodeId, cfg: Config)
      ensures this.nodeId == nodeId && this.cfg == cfg && State() == NEW_PEER
      ensures WellFormed(nodeId, State())
    {
      this.nodeId := nodeId;
      this.cfg := cfg;
      leaderNodeId := None;
      loadedActor := false;
      isDisposed := false;
      referenceConnections := {};
      at := Request(StartAndAcquire);
    }

    /**
     A leader whose lease was granted now wakes one grace before that lease runs out, a follower after its check
     interval and at most the jitter more; neither in the past.
     */
    method ScheduleNextHeartbeat(now: int, random: int)
      modifies this`at
      ensures State() == ScheduleHeartbeat(cfg, nodeId, old(State()), now, random)
      ensures at.Timer? && (leaderNodeId == Some(nodeId) ==> at.fireAt + cfg.renewLeaseGrace == now + cfg.leaseDuration)
      ensures cfg.Valid() && 0 <= random <= cfg.checkLeaseJitter ==>
                now <= at.fireAt &&
                (leaderNodeId != Some(nodeId) ==>
                   now + cfg.checkLeaseInterval <= at.fireAt <= now + cfg.checkLeaseInterval + cfg.checkLeaseJitter)
      ensures leaderNodeId != Some(nodeId) ==> at.fireAt == now + cfg.checkLeaseInterval + random
      ensures !isDisposed && leaderNodeId.Some? && loadedActor == (leaderNodeId == Some(nodeId)) ==>
                WellFormed(nodeId, State())
    {
      var hbTimeout;
      if leaderNodeId == Some(nodeId) {
        hbTimeout := cfg.leaseDuration - cfg.renewLeaseGrace;
      } else {
        hbTimeout := cfg.checkLeaseInterval + random;
      }
      at := Timer(now + hbTimeout);
    }

    method Started(leader: NodeId, conn: ConnId, now: int, random: int)
      requires WellFormed(nodeId, State()) && at == Reply(StartAndAcquire, Leader(leader))
      modifies this
      ensures State() == OnStartReply(cfg, nodeId, old(State()), leader, conn, now, random)
      ensures WellFormed(nodeId, State()) && leaderNodeId == Some(leader) && !isDisposed
      ensures leader == nodeId ==> loadedActor && at == ActorStart && referenceConnections == old(referenceConnections)
      ensures leader != nodeId ==>
                !loadedActor && referenceConnections == old(referenceConnections) + {conn} &&
                at == Timer(now + cfg.checkLeaseInterval + random)
    {
      leaderNodeId := Some(leader);
      if leader == nodeId {
        loadedActor := true;
        at := ActorStart;
      } else {
        referenceConnections := referenceConnections + {conn};
        ScheduleNextHeartbeat(now, random);
      }
    }

    /** `#start` after the leader's actor has started. */
    method ActorStarted(conn: ConnId, now: int)
      requires WellFormed(nodeId, State()) && at == ActorStart
      modifies this`at, this`referenceConnections
      ensures State() == OnActorStarted(cfg, nodeId, old(State()), conn, now)
      ensures WellFormed(nodeId, State()) && referenceConnections == old(referenceConnections) + {conn}
      ensures at == Timer(now + cfg.leaseDuration - cfg.renewLeaseGrace)
    {
      ScheduleNextHeartbeat(now, 0);
      referenceConnections := referenceConnections + {conn};
    }

    /** The last line of `acquire`, for a peer that is there already. */
    method AddReference(conn: ConnId)
      requires WellFormed(nodeId, State())
      modifies this`referenceConnections
      ensures WellFormed(nodeId, State()) && referenceConnections == old(referenceConnections) + {conn}
    {
      referenceConnections := referenceConnections + {conn};
    }

    /** A leader goes to renew and a follower to take over; only a disposed peer lets the timer pass. */
    method Heartbeat()
      requires at.Timer?
      modifies this`at
      ensures isDisposed ==> at == old(at)
      ensures !isDisposed && leaderNodeId == Some(nodeId) ==> at == Request(ExtendLease)
      ensures !isDisposed && leaderNodeId != Some(nodeId) ==> at == Request(AttemptAcquire)
      ensures State() == OnHeartbeat(nodeId, old(State()))
      ensures old(WellFormed(nodeId, State())) ==> WellFormed(nodeId, State())
    {
      if isDisposed {
        return;
      }
      if leaderNodeId == Some(nodeId) {
        at := Request(ExtendLease);
      } else {
        at := Request(AttemptAcquire);
      }
    }

    method LeaseExtended(valid: bool, now: int)
      requires WellFormed(nodeId, State()) && at == Reply(ExtendLease, LeaseValid(valid))
      modifies this
      ensures State() == OnExtendReply(cfg, nodeId, old(State()), valid, now)
      ensures referenceConnections == old(referenceConnections) && leaderNodeId == old(leaderNodeId)
      ensures valid ==> !isDisposed && loadedActor && at == Timer(now + cfg.leaseDuration - cfg.renewLeaseGrace)
      ensures !valid ==> isDisposed && at == ActorStop(false)
      ensures WellFormed(nodeId, State())
    {
      if valid {
        ScheduleNextHeartbeat(now, 0);
      } else {
        DisposePeer(false);
      }
    }

    method LeaseAttempted(newLeader: NodeId, now: int, random: int)
      requires WellFormed(nodeId, State()) && at == Reply(AttemptAcquire, Leader(newLeader))
      modifies this
      ensures State() == OnAcquireReply(cfg, nodeId, old(State()), newLeader, now, random)
      ensures leaderNodeId == Some(newLeader) && loadedActor == (newLeader == nodeId) && !isDisposed
      ensures referenceConnections == old(referenceConnections)
      ensures newLeader == nodeId ==> at == Timer(now + cfg.leaseDuration - cfg.renewLeaseGrace)
      ensures newLeader != nodeId ==> at == Timer(now + cfg.checkLeaseInterval + random)
      ensures WellFormed(nodeId, State())
    {
      var isPromoted := leaderNodeId != Some(nodeId) && newLeader == nodeId;
      leaderNodeId := Some(newLeader);
      if isPromoted {
        loadedActor := true;
      }
      ScheduleNextHeartbeat(now, random);
    }

    method DisposePeer(releaseLease: bool)
      modifies this
      ensures State() == Dispose(nodeId, old(State()), releaseLease)
      ensures old(!isDisposed && loadedActor == State().IsLeader(nodeId)) ==> WellFormed(nodeId, State())
      ensures isDisposed && leaderNodeId == old(leaderNodeId) && loadedActor == old(loadedActor)
      ensures referenceConnections == old(referenceConnections) && (old(isDisposed) ==> at == old(at))
      ensures !old(isDisposed) && leaderNodeId == Some(nodeId) ==>
                at == if loadedActor then ActorStop(releaseLease)
                      else if releaseLease then Request(ReleaseLease) else Finished
      ensures !old(isDisposed) && leaderNodeId != Some(nodeId) ==> at == Finished
    {
      if isDisposed {
        return;
      }
      isDisposed := true;
      if leaderNodeId == Some(nodeId) && loadedActor {
        at := ActorStop(releaseLease);
      } else if leaderNodeId == Some(nodeId) && releaseLease {
        at := Request(ReleaseLease);
      } else {
        at := Finished;
      }
    }

    /** `#dispose` after the actor has stopped: only a disposal that asked for it goes on to release the lease. */
    method ActorStopped(releaseLease: bool)
      requires WellFormed(nodeId, State()) && at == ActorStop(releaseLease)
      modifies this`at
      ensures State() == OnActorStopped(nodeId, old(State()), releaseLease)
      ensures WellFormed(nodeId, State()) && at == if releaseLease then Request(ReleaseLease) else Finished
    {
      if leaderNodeId == Some(nodeId) && releaseLease {
        at := Request(ReleaseLease);
      } else {
        at := Finished;
      }
    }

    method RemoveReference(conn: ConnId)
      requires WellFormed(nodeId, State())
      modifies this
      ensures State() == RemoveConnectionReference(nodeId, old(State()), conn)
      ensures WellFormed(nodeId, State())
      ensures old(!isDisposed) ==> (isDisposed <==> referenceConnections == {})
      ensures referenceConnections == old(referenceConnections) - {conn} && leaderNodeId == old(leaderNodeId)
      ensures old(isDisposed) || referenceConnections != {} ==> at == old(at)
      ensures old(!isDisposed) && referenceConnections == {} ==> at == if loadedActor then ActorStop(true) else Finished
    {
      referenceConnections := referenceConnections - {conn};
      if |referenceConnections| == 0 {
        DisposePeer(true);
      }
    }
  }
}
