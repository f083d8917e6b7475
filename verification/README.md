# RivetKit, verified

A Dafny model of the stateful mechanisms of RivetKit, an actor framework: who leads an actor, what an actor keeps
and saves, how a client and an actor talk, and how actors are named. `dafny verify dfyconfig.toml` checks the project.

The code is imperative, and so is the model: each object is a class whose methods are proved to compute specification
functions on values. The same functions are the steps of transition systems, about whose runs the main theorems speak.

## The modules

| file | what it models |
|---|---|
| `LeaseScripts.dfy`, `ActorPeer.dfy`, `LeaseProtocol.dfy` | the leader lease of the coordinate topology: the Redis scripts, one node's peer, and any number of nodes together |
| `NodeMessages.dfy` | messages between nodes with acks, retries and aborts, over a network that delays, reorders and drops |
| `EventSchedule.dfy` | the actor's event queue and its alarm, over both kinds of alarm driver |
| `ConnTable.dfy`, `ConnActor.dfy` | live connections, the persisted list and the subscription index; restoring |
| `PersistSaver.dfy`, `Lock.dfy`, `Throttle.dfy` | the throttled saver, the asynchronous lock, the throttled function |
| `ClientConn.dfy`, `ServerMessages.dfy`, `ConnSystem.dfy` | the client's connection, the server's message handling, and both over FIFO sockets that come and go |
| `TokenConservation.dfy`, `Settlement.dfy`, `SubscriptionAgreement.dfy`, `Progress.dfy` | what holds in every run of that system, and what it achieves when nothing goes wrong |
| `EscapedList.dfy`, `KeyCodec.dfy`, `RedisRegistry.dfy` | escaping, the key codecs, and the Redis registry that relies on them |
| `FakeWebSocket.dfy` | the in-process WebSocket and its buffers |
| `RateLimiter.dfy` | the fixed-window rate limiter example |

## Assumptions

- Lease: a script runs atomically at one instant of the Redis clock, and requests and answers take any time. A node
  starts a new peer for an actor only when its previous one has finished disposing, and a peer is not disposed while a
  script that may acquire the lease is outstanding. Renewals that are outstanding at a disposal are modelled: they may
  still run later.
- Mutual exclusion needs time: in every leader round, answer latency, awaited actor start, timer lateness and request
  latency together stay below `renewLeaseGrace`. `LateRenewalBreaksExclusion` shows a run without it, and
  `ExclusionExactly` says without it when exclusion holds: as long as no active leader outlives its lease.
- Node and message identifiers are UUIDs, so they are not empty and not reused.
- The driver answers a leader lookup with a node, with no leader, or with no actor; the answers need not be true.
- Event identifiers are numbered in insertion order in place of random UUIDs. Alarms fire at or after their time.
- Driver writes succeed. The write lock of the saver hands over atomically to the next waiter.
- User code does not re-enter the structure that is being updated: event callbacks, listeners, hooks.
- Parsing keeps the order in which messages arrive on a socket. A client has one socket at a time.
- Calls to the Redis manager are sequential, and `randomUUID` draws an identifier without an actor.
- The rate limiter's clock does not go back.

## Where the code is not what its text says

- `onAlarm` speaks of the events that are due, but `findIndex(t <= now)` on an ordered queue yields the head or
  nothing, so an alarm runs one event; the others follow because it sets the next alarm (`OnAlarm`, `DrainRunsInOrder`).
- A restart goes back to the last saved queue, so an event can run twice and one scheduled since can be lost. Exactly
  a queue unchanged since the save restarts unnoticed (`RestartUnnoticedExactly`, `RestartRepeatsEvent`); saved events
  are never lost (`SavedEventsRun`).
- The rate limiter promises five requests per minute. A minute can contain nine allowed calls, and ten if the clock
  starts at 0 (`IntervalBound`, `NineInOneMinute`). A minute is sure to keep to five exactly if the counter is at its
  limit when it starts, or the open window does not end within it (`MinuteKeepsLimitExactly`).
- `Lock` does not exclude by itself: between a release and the resumption of the woken waiter a newcomer gets in. That
  is necessary for two callbacks to overlap but not sufficient (`NoBargeExcludes`, `BargingMayBeHarmless`). They overlap
  exactly if the woken waiter resumes while the newcomer is still running, finding the flag set
  (`ExclusionIffNoOverlap`, `BargingBreaksExclusion`).
- An error reply for action 0 rejects every action in flight, because the handler tests the identifier for truth
  (`ActionZeroRejectsOthers`). An action's error hits no other action exactly if it is not action 0 or nothing else is
  in flight (`ErrorHitsOnlyItsAction`).
- `serializeNameAndKey` escapes colons but not backslashes. Two codes collide only if a name that ends in a backslash
  is involved, and every such name has a collision (`NameAndKeyExact`, `BackslashCollides`).
- Decoding a serialized key gives the key back except for the key `[""]` (`RoundTrip`); its code is not shared with any
  other key (`SerializeKeyInjective`).
- A fake WebSocket that is closed while it connects can open afterwards (`ClosedSocketReopens`). A closed one stays
  closed exactly if its handler had opened (`StaysClosedExactly`); for a close by the server that means: exactly if it
  was open, not connecting, at that moment (`ServerCloseIsFinal`).

## Model

| member | source | states |
|---|---|---|
| `LeaseScripts.LeaseStore.ActorPeerAcquireLease` | packages/drivers/redis/src/coordinate.ts:173-190 | The caller learns who holds the lease afterwards; a lease that anybody holds is left untouched, expiry included; a free one becomes the caller's until exactly one duration later. |
| `LeaseScripts.LeaseStore.ActorPeerExtendLease` | packages/drivers/redis/src/coordinate.ts:192-206 | A renewal succeeds if and only if the caller held the lease, and then it holds it until exactly one duration later; it changes nothing for any other node. |
| `LeaseScripts.LeaseStore.ActorPeerReleaseLease` | packages/drivers/redis/src/coordinate.ts:208-220 | A release removes the lease if and only if the caller held it, and then nobody holds it at any later time; otherwise nothing changes. |
| `ActorPeers.GetLeaderActor` | packages/core/src/topologies/coordinate/actor-peer.ts:105-119 | For a well-formed peer the assertion on the loaded actor cannot fail, and an actor is returned exactly by the peer of the leading node. |
| `ActorPeers.ActorPeer.ScheduleNextHeartbeat` | packages/core/src/topologies/coordinate/actor-peer.ts:194-210 | A leader whose lease was granted now wakes exactly one grace before that lease runs out, a follower between its check interval and that plus the jitter, neither in the past; the sleeping peer is well-formed. |
| `ActorPeers.ActorPeer.Started` | packages/core/src/topologies/coordinate/actor-peer.ts:155-179 | A node that was granted the lease loads its actor and awaits it; another one records the leader, takes the reference and sleeps for its check interval; the peer stays well-formed. |
| `ActorPeers.ActorPeer.ActorStarted` | packages/core/src/topologies/coordinate/actor-peer.ts:167-179 | Once its actor has started, a leader takes the reference and sleeps until one grace before its lease, if granted now, would run out. |
| `ActorPeers.ActorPeer.AddReference` | packages/core/src/topologies/coordinate/actor-peer.ts:94-102 | Joining a peer that is there adds the reference and changes nothing else. |
| `ActorPeers.ActorPeer.Heartbeat` | packages/core/src/topologies/coordinate/actor-peer.ts:181-192 | An undisposed leader goes on to renew and an undisposed follower to acquire, whatever else; only a disposed peer lets the timer pass; well-formedness is kept. |
| `ActorPeers.ActorPeer.LeaseExtended` | packages/core/src/topologies/coordinate/actor-peer.ts:249-263 | After a valid renewal the peer sleeps for the duration less the grace, after an invalid one it stops its actor without going on to release. |
| `ActorPeers.ActorPeer.LeaseAttempted` | packages/core/src/topologies/coordinate/actor-peer.ts:268-289 | A follower that gets the lease leads with a loaded actor and sleeps as a leader; another one records the leader and sleeps as a follower; the references stay. |
| `ActorPeers.ActorPeer.DisposePeer` | packages/core/src/topologies/coordinate/actor-peer.ts:312-338 | Disposing happens once; a leader's loaded actor is stopped before anything is released, and a follower is finished at once. |
| `ActorPeers.ActorPeer.ActorStopped` | packages/core/src/topologies/coordinate/actor-peer.ts:325-335 | After its actor has stopped, a leader releases the lease exactly if the disposal asked for it. |
| `ActorPeers.ActorPeer.RemoveReference` | packages/core/src/topologies/coordinate/actor-peer.ts:291-310 | The reference goes, and an undisposed peer is disposed exactly when none is left, a leader by stopping its actor and then releasing. |
| `LeaseProtocol.RunKeepsInv` | packages/core/src/topologies/coordinate/actor-peer.ts:121-338 | In every run, without any timing assumption, all peers are well-formed and only the node of a peer that believes to lead, or is about to learn it, is in the lease key. |
| `LeaseProtocol.LeaseLossCauses` | packages/drivers/redis/src/coordinate.ts:173-220 | A held lease is lost in a step if and only if it expires in it or the holder's own release is executed: no other node's acquisition, renewal or release takes it. |
| `LeaseProtocol.LostStaysLost` | packages/core/src/topologies/coordinate/actor-peer.ts:181-192 | A peer that was granted the lease does not regain a lost one within its tenure, because leaders never acquire. |
| `LeaseProtocol.LeaseContinuity` | packages/core/src/topologies/coordinate/actor-peer.ts:249-263 | A renewal is answered "valid" if and only if the peer's node has held the lease in every state since any earlier state of the same tenure. |
| `LeaseProtocol.RunKeepsTimedInv` | packages/core/src/topologies/coordinate/actor-peer.ts:121-289 | In runs that meet the timing assumption the lease key carries every tenured peer's node, with an expiry of at least the last grant plus the lease duration. |
| `LeaseProtocol.TimedMutualExclusion` | packages/core/src/topologies/coordinate/actor-peer.ts:121-289 | If every leader round so far spent less than the renewal grace outside its intended wait, at most one undisposed peer leads, and its node holds the unexpired lease. |
| `LeaseProtocol.TimelyRenewalsSucceed` | packages/core/src/topologies/coordinate/actor-peer.ts:249-263 | Under the same assumption no renewal is refused, so no leader shuts itself down. |
| `LeaseProtocol.LateRenewalBreaksExclusion` | packages/core/src/topologies/coordinate/actor-peer.ts:181-210 | The timing assumption is needed: a concrete run in which a started leader's renewal timer is late by more than the grace ends with two active leaders. |
| `LeaseProtocol.ExclusionExactly` | packages/core/src/topologies/coordinate/actor-peer.ts:121-338 | Without any timing assumption, in every state of every run: there is at most one active leader and it holds the lease, if and only if no active leader has outlived the lease last written for its node. |
| `LeaseProtocol.RoundRenews` | packages/core/src/topologies/coordinate/actor-peer.ts:181-192 | A heartbeat, its script and its answer leave a leader that held the lease with it for another full duration, and asleep until one grace before its end. |
| `LeaseProtocol.RenewalExtends` | packages/drivers/redis/src/coordinate.ts:192-206 | In every run, whenever a renewal reaches Redis while its node holds the lease, the node holds it until exactly one duration later. |
| `LeaseProtocol.RoundTakesOver` | packages/core/src/topologies/coordinate/actor-peer.ts:268-289 | A follower whose heartbeat finds the lease expired is its holder for a full duration and an active leader with a loaded actor. |
| `LeaseProtocol.RoundFollows` | packages/core/src/topologies/coordinate/actor-peer.ts:268-289 | A follower whose heartbeat finds another holder learns its name, sleeps again, and changes nothing else. |
| `LeaseProtocol.RefusedLeaderStops` | packages/core/src/topologies/coordinate/actor-peer.ts:249-263 | A leader whose renewal is refused stops its actor and finishes, and the key stays as it is. |
| `LeaseProtocol.LastReferenceReleases` | packages/core/src/topologies/coordinate/actor-peer.ts:291-338 | A leader that loses its last reference stops its actor and then frees the lease. |
| `LeaseProtocol.ReferenceKeepsPeer` | packages/core/src/topologies/coordinate/actor-peer.ts:94-102 | A connection that has joined a peer keeps it undisposed, whichever other connection leaves. |
| `LeaseProtocol.StartLeads` | packages/core/src/topologies/coordinate/actor-peer.ts:121-179 | A new peer that finds the lease free leads with it for a full duration, once its actor has started, and holds its first reference. |
| `LeaseProtocol.StartFollows` | packages/core/src/topologies/coordinate/actor-peer.ts:121-179 | A new peer that finds another holder follows it, holds its first reference, and leaves the key alone. |
| `LeaseProtocol.StrayRenewalExtends` | packages/core/src/topologies/coordinate/actor-peer.ts:249-254 | A renewal that outlives its disposed peer prolongs the lease once, if and only if its node still holds it. |
| `NodeMessages.Node.HandleMessage` | packages/core/src/topologies/coordinate/node/mod.ts:48-92 | A message that names its sender and an identifier is acknowledged to that sender under that identifier, any other one is not; an ack that asks for an ack is refused; a payload resolves nothing. |
| `NodeMessages.Node.HandleAck` | packages/core/src/topologies/coordinate/node/mod.ts:94-102 | An ack resolves the publish that it names if that publish waits here, and removes exactly its resolver. |
| `NodeMessages.Node.BeginWait` | packages/core/src/topologies/coordinate/node/message.ts:80-103 | The message carries the data of the publish, its owner and its identifier to the leader; every node that receives it answers with one ack, and that ack, back at the sender, resolves exactly this publish. |
| `NodeMessages.Node.FinishWait` | packages/core/src/topologies/coordinate/node/message.ts:111-115 | However the wait ended, a late ack for it resolves nothing and publishes nothing, and all other waits go on. |
| `NodeMessages.RunKeepsInv` | packages/core/src/topologies/coordinate/node/message.ts:14-116 | In every run each packet on the network is explained by a publish or an ack of a received message, resolvers are exactly those of waiting attempts, and a waiting retry is neither aborted nor the last attempt. |
| `NodeMessages.AckCausality` | packages/core/src/topologies/coordinate/node/message.ts:14-116 | A publish that succeeds was started, then told of a leader by one of its own lookups, and then exactly the data given at the start was delivered to that node under its identifier, all read off the steps of the run. |
| `NodeMessages.AttemptSucceedsIfAcked` | packages/core/src/topologies/coordinate/node/message.ts:57-116 | The converse: if the looked-up node gets the message and its ack comes back, the attempt succeeds, unless the publish was aborted. |
| `NodeMessages.AbortedNeverSucceeds` | packages/core/src/topologies/coordinate/node/message.ts:88-90 | A publish that is aborted before it succeeds never does, and makes no further attempt. |
| `NodeMessages.NoResolverLeak` | packages/core/src/topologies/coordinate/node/message.ts:86-115 | A resolver is stored at a node if and only if a publish of that node has an attempt that waits for its ack. |
| `NodeMessages.AcksTriggerNothing` | packages/core/src/topologies/coordinate/node/mod.ts:60-79 | In any state, delivering an ack takes it off the network and adds nothing. |
| `NodeMessages.AttemptsBounded` | packages/core/src/topologies/coordinate/node/message.ts:31-54 | No publish makes more than six attempts. |
| `NodeMessages.FailsForReason` | packages/core/src/topologies/coordinate/node/message.ts:31-54 | A publish gives up only because it was aborted, its actor is not initialized, or its sixth attempt failed. |
| `NodeMessages.FailureIsRetried` | packages/core/src/topologies/coordinate/node/message.ts:31-54 | A failed attempt before the sixth is followed by another one, unless the publish was aborted. |
| `EventSchedule.FindLater` | packages/core/src/actor/instance.ts:283-283 | The index found is that of the first event with a later time, or -1 exactly when there is none. |
| `EventSchedule.FindDue` | packages/core/src/actor/instance.ts:307-307 | The index found is that of the first event that is due, or -1 exactly when none is. |
| `EventSchedule.Scheduler.SetFirstAlarm` | packages/core/src/actor/instance.ts:253-256 | After start the head of a non-empty queue has an outstanding alarm, and timers that were set before stay set. |
| `EventSchedule.Scheduler.ScheduleEvent` | packages/core/src/actor/instance.ts:262-297 | The queue gains exactly the new event and stays ordered, and the alarm is set exactly if the new event is due before everything that was pending. |
| `EventSchedule.Scheduler.OnAlarm` | packages/core/src/actor/instance.ts:299-320 | What is run and what is left make up the old queue; on an ordered queue the head is run if it is due and nothing otherwise; the next alarm is set for the new head exactly if something was run. |
| `EventSchedule.AlarmMeaning` | packages/core/src/drivers/memory/actor.ts:25-30 | Setting an alarm makes it outstanding; timers accumulate and the slot forgets what it held; firing takes one alarm; a restart loses timers and keeps the slot. |
| `EventSchedule.DueIsHead` | packages/core/src/actor/instance.ts:307-312 | On an ordered queue `runIndex + 1` is one exactly when the head is due, and zero otherwise. |
| `EventSchedule.AlarmRunsHead` | packages/core/src/actor/instance.ts:307-320 | A productive alarm removes exactly the head and sets the alarm for the next event; an unproductive one changes nothing. |
| `EventSchedule.InsertKeepsEvents` | packages/core/src/actor/instance.ts:282-288 | Scheduling adds the new event to the multiset of pending events and loses none. |
| `EventSchedule.InsertKeepsOrder` | packages/core/src/actor/instance.ts:282-288 | Insertion keeps the queue ordered by time, and by insertion among equal times. |
| `EventSchedule.OrderedIsUnique` | packages/core/src/actor/instance.ts:282-288 | Two ordered queues with the same events are equal, so order and contents determine the queue. |
| `EventSchedule.ScheduledCovers` | packages/core/src/actor/instance.ts:290-296 | If the head was covered by an alarm before, the head of the new queue is covered afterwards. |
| `EventSchedule.ReachableInv` | packages/core/src/actor/instance.ts:253-320 | In every reachable state, with accumulating timers or a single replaceable slot: the queue is ordered and an alarm is outstanding for its head after start; since the last restart, what was restored or scheduled is pending or was run exactly once, nothing ran early and nothing overtook an event scheduled before; and the two guarantees across restarts below. |
| `EventSchedule.SavedEventsRun` | packages/core/src/actor/instance.ts:299-320 | Across any number of restarts, an event of the last saved queue is pending or has run since that save. |
| `EventSchedule.RunsBounded` | packages/core/src/actor/instance.ts:299-320 | Over a whole history an event runs at most once more than there were restarts, hence at most once without any. |
| `EventSchedule.RestartUnnoticedExactly` | packages/core/src/actor/instance.ts:532-538 | Everything scheduled in an incarnation is pending after a restart or was run before it, exactly once, if and only if the queue had not changed since the last save. |
| `EventSchedule.RestartRepeatsEvent` | packages/core/src/actor/instance.ts:299-320 | A concrete run in which a restart before the next save runs an event a second time. |
| `EventSchedule.RestartAlarms` | packages/core/src/actor/instance.ts:253-256 | After a restart only the platform's slot is outstanding, and the start covers the head of the restored queue again. |
| `EventSchedule.DueHeadRuns` | packages/core/src/actor/instance.ts:299-320 | No due event is stranded: the alarm for a due head can fire, and firing it runs exactly the head. |
| `EventSchedule.DrainRunsInOrder` | packages/core/src/actor/instance.ts:299-320 | Once everything is due, firing the covering alarms empties the queue and runs its events in (time, insertion) order. |
| `ConnActors.ConnActor.CreateConnection` | packages/core/src/actor/instance.ts:728-763 | A connection is created if and only if its identifier is free, with the given token and no subscriptions, live and persisted; a refused creation changes nothing; the representations keep agreeing. |
| `ConnActors.ConnActor.DropSubscriber` | packages/core/src/actor/instance.ts:883-890 | A subscriber leaves the index entry of an event, and the entry disappears with its last subscriber. |
| `ConnActors.ConnActor.RemoveConnection` | packages/core/src/actor/instance.ts:619-642 | Exactly that connection leaves the live table, the persisted list and the index; removing an unknown one changes nothing; the representations keep agreeing. |
| `ConnActors.ConnActor.Subscribe` | packages/core/src/actor/instance.ts:825-853 | A live connection gains exactly the one subscription, twice is once, and the representations keep agreeing. |
| `ConnActors.ConnActor.AddLiveSubscription` | packages/core/src/actor/instance.ts:842-852 | The live set and the index gain exactly the one subscription. |
| `ConnActors.ConnActor.Unsubscribe` | packages/core/src/actor/instance.ts:855-891 | Exactly the one subscription goes, and the representations keep agreeing. |
| `ConnActors.ConnActor.Initialize` | packages/core/src/actor/instance.ts:541-556 | Restoring from the persisted list of any consistent actor rebuilds exactly that actor's table, list and index. |
| `ConnActors.ConnActor.Broadcast` | packages/core/src/actor/instance.ts:1106-1126 | A broadcast goes once to each live connection that is subscribed to the event, and to nobody else. |
| `ConnTables.CreateKeepsInv` | packages/core/src/actor/instance.ts:728-763 | Creation keeps persisted identifiers unique and equal to the live ones, `su` lists equal to the live sets without duplicates, and the index exact. |
| `ConnTables.RemoveKeepsInv` | packages/core/src/actor/instance.ts:619-642 | Removal keeps the agreement of the three representations. |
| `ConnTables.AddKeepsInv` | packages/core/src/actor/instance.ts:825-853 | A new subscription keeps the agreement of the three representations. |
| `ConnTables.RemoveSubKeepsInv` | packages/core/src/actor/instance.ts:855-891 | Ending a subscription keeps the agreement, because removing the first entry of a list without duplicates removes the event. |
| `ConnTables.RestoreRoundTrip` | packages/core/src/actor/instance.ts:541-556 | Rebuilding from the persisted list reproduces connections, subscriptions and index. |
| `ConnTables.IndexDetermined` | packages/core/src/actor/instance.ts:825-891 | An exact index without empty entries is a function of the live subscriptions: no two such indexes differ. |
| `ConnTables.RunInv` | packages/core/src/actor/instance.ts:541-891 | In every run of creations, removals, subscriptions, saves and restarts the representations agree and the stored list restores to the table that was saved. |
| `ConnTables.LivenessFollowsHistory` | packages/core/src/actor/instance.ts:619-763 | After any run exactly those connections are live that the history created and did not remove, restarts going back to the last save. |
| `ConnTables.TokenFollowsHistory` | packages/core/src/actor/instance.ts:741-749 | After any run a live connection carries the token that its creation in the history gave it, across saves and restarts. |
| `ConnTables.PersistedTokenFollowsHistory` | packages/core/src/actor/instance.ts:741-760 | So does every entry of the persisted list. |
| `ConnTables.IndexFollowsHistory` | packages/core/src/actor/instance.ts:825-891 | After any run the index names a connection under an event if and only if the history subscribed it: the index refines the filter. |
| `PersistSavers.PersistSaver.SetPersist` | packages/core/src/actor/instance.ts:447-506 | A change leaves the saver consistent: the clean flag no longer claims that storage is current, and what was captured before is exactly what is captured after. |
| `PersistSavers.PersistSaver.SaveThrottled` | packages/core/src/actor/instance.ts:392-409 | Within the interval nothing but the timer changes, which is set for exactly one interval after the last save unless it is set; outside it a save begins. From a consistent state the changes are captured or a timer is due within one interval. |
| `PersistSavers.PersistSaver.SaveInner` | packages/core/src/actor/instance.ts:412-442 | With changes the save takes a snapshot under the lock or queues at the lock, without any only its time is noted; from a consistent state all changes are captured. |
| `PersistSavers.PersistSaver.TimerFired` | packages/core/src/actor/instance.ts:400-403 | The timer captures every change made so far, and the next throttled save within the interval sets a timer for exactly one interval after this save. |
| `PersistSavers.PersistSaver.SaveStateImmediate` | packages/core/src/actor/instance.ts:1161-1167 | An immediate save captures every change made so far; without changes it does nothing at all. |
| `PersistSavers.PersistSaver.WriteCompleted` | packages/core/src/actor/instance.ts:418-434 | The snapshot taken when the lock was obtained reaches storage, and the next queued save takes the lock with the then current object. |
| `PersistSavers.RunInv` | packages/core/src/actor/instance.ts:391-442 | In every run a pending deadline never exceeds the last save time plus the interval, and with the dirty flag clear the object is in storage or being written. |
| `PersistSavers.CleanAndIdleMeansStored` | packages/core/src/actor/instance.ts:412-442 | With the dirty flag clear and no write in flight, storage equals the current object. |
| `PersistSavers.SaveLagBound` | packages/core/src/actor/instance.ts:392-409 | Every change present when the throttled saver ran at time t is captured in every state later than t plus the interval, up to timer lateness. |
| `PersistSavers.CapturedReachesStorage` | packages/core/src/actor/instance.ts:412-442 | When the outstanding writes have ended, captured changes are in storage. |
| `PersistSavers.StorageFollowsHistory` | packages/core/src/actor/instance.ts:412-442 | In every run, with the dirty flag clear and no write in flight, storage holds the content of the last change in the history. |
| `PersistSavers.ImmediateSavesAll` | packages/core/src/actor/instance.ts:1161-1167 | In every run, an immediate save and the end of the outstanding writes bring storage up to date with every change. |
| `PersistSavers.TimerSavesAll` | packages/core/src/actor/instance.ts:400-403 | So do the save timer and the end of the outstanding writes. |
| `Locks.Lock.Enter` | packages/core/src/actor/utils.ts:67-73 | A call runs at once exactly when the flag is clear, otherwise it queues; both guarantees of the lock are kept. |
| `Locks.Lock.Continue` | packages/core/src/actor/utils.ts:69-74 | A woken caller takes the flag and enters; both guarantees are kept. |
| `Locks.Lock.Release` | packages/core/src/actor/utils.ts:75-79 | A release wakes the first waiter, if any; both guarantees are kept. |
| `Locks.RunInv` | packages/core/src/actor/utils.ts:67-80 | Under every interleaving, barging included: a non-empty waiting list has an active holder or a wakeup in flight, and waiters are woken in the order of their calls, each once. |
| `Locks.WaitersAreServed` | packages/core/src/actor/utils.ts:67-80 | While somebody waits, a callback can finish or a woken caller can resume, and every such step decreases the remaining work. |
| `Locks.CallersMove` | packages/core/src/actor/utils.ts:67-80 | Each step's effect on the number of running callbacks and of woken callers is exact. |
| `Locks.ExclusionIffNoOverlap` | packages/core/src/actor/utils.ts:67-80 | At most one callback runs throughout a run if and only if no woken caller of the run resumes while a callback is running, equivalently, none finds the flag set when it resumes. |
| `Locks.NoBargeExcludes` | packages/core/src/actor/utils.ts:67-80 | Barging is necessary for an overlap: until a call finds the flag clear while a woken caller has yet to resume, at most one callback runs. |
| `Locks.BargingMayBeHarmless` | packages/core/src/actor/utils.ts:67-80 | Barging is not sufficient: a concrete run in which a call barges in and no two callbacks ever overlap. |
| `Locks.BargingBreaksExclusion` | packages/core/src/actor/utils.ts:67-80 | A concrete run in which a newcomer and a woken waiter run their callbacks at the same time. |
| `Throttles.ThrottledFunction.Apply` | packages/core/src/actor/utils.ts:19-35 | A call runs the function exactly when no delay is running, otherwise it leaves its arguments. |
| `Throttles.ThrottledFunction.TimeoutFired` | packages/core/src/actor/utils.ts:23-32 | The end of a delay runs the function with the arguments left last, or ends the throttling. |
| `Throttles.SpacedAndServed` | packages/core/src/actor/utils.ts:9-36 | In every run two executions are at least one delay apart, and the latest call has been run or its arguments wait for a timer. |
| `Throttles.LatestCallInTime` | packages/core/src/actor/utils.ts:9-36 | The arguments of the latest call are run at most one delay after it, up to timer lateness. |
| `Throttles.CallIsServed` | packages/core/src/actor/utils.ts:19-35 | In every run a call runs at once if no delay is running, and otherwise runs with its arguments when the delay ends, if it stays the latest. |
| `ClientConns.ActorConn.Send` | packages/core/src/client/actor-conn.ts:588-634 | A message goes to the open socket or into the queue, and is dropped only if it is ephemeral and cannot be sent. |
| `ClientConns.ActorConn.SendSubscription` | packages/core/src/client/actor-conn.ts:771-783 | A subscription request is on the wire at once if the socket takes it, and is never queued. |
| `ClientConns.ActorConn.StartAction` | packages/core/src/client/actor-conn.ts:142-168 | The identifier was not in flight before and is now, and its request is at the end of the wire or at the end of the queue, not both. |
| `ClientConns.ActorConn.Opened` | packages/core/src/client/actor-conn.ts:300-325 | If the socket takes everything, every event is subscribed again and then the whole queue goes out in order; if it is not open, nothing happens; otherwise the split of `FlushKeepsOrder` applies. |
| `ClientConns.ActorConn.Resubscribe` | packages/core/src/client/actor-conn.ts:312-315 | Resubscribing hands out one request per event with listeners and leaves the client as it is. |
| `ClientConns.ActorConn.Flush` | packages/core/src/client/actor-conn.ts:317-325 | Flushing hands the accepted messages to the socket and queues the others again. |
| `ClientConns.ActorConn.TakeActionInFlight` | packages/core/src/client/actor-conn.ts:466-473 | What was in flight is in flight or settled, not both, and nothing but the named action is settled. |
| `ClientConns.ActorConn.ErrorReceived` | packages/core/src/client/actor-conn.ts:352-391 | An error of an action other than 0 rejects exactly that action, if it is in flight; an error of action 0 or without an action rejects everything in flight and leaves nothing; every outcome carries the code. |
| `ClientConns.ErrorHitsOnlyItsAction` | packages/core/src/client/actor-conn.ts:356-391 | The error of an action rejects no other action if and only if it is not action 0 or nothing but action 0 is in flight. |
| `ClientConns.ActorConn.EventReceived` | packages/core/src/client/actor-conn.ts:475-495 | An event calls every listener of its name; exactly the one-time listeners are gone afterwards, with the last of them the event, and other events keep theirs. |
| `ClientConns.ActorConn.CallListeners` | packages/core/src/client/actor-conn.ts:481-489 | The loop calls every listener of the copy and keeps those that are not one-time listeners. |
| `ClientConns.ActorConn.AddEventSubscription` | packages/core/src/client/actor-conn.ts:510-526 | The listener joins those of its event with its flag; the wire grows only if the event had none; other events, the queue and the actions stay. |
| `ClientConns.ActorConn.Unsubscribe` | packages/core/src/client/actor-conn.ts:529-538 | Exactly the one listener goes, no empty listener set is left, and the wire grows by one unsubscription exactly if it was the last one and the socket takes it. |
| `ClientConns.ActorConn.Closed` | packages/core/src/client/actor-conn.ts:418-445 | A close settles nothing, and every action request sent until the next socket opens is queued behind the queue. |
| `ClientConns.SendAllSplits` | packages/core/src/client/actor-conn.ts:317-325 | Sending a list again splits it into the sent and the queued messages, both in their old order, behind what was queued before. |
| `ClientConns.FlushKeepsOrder` | packages/core/src/client/actor-conn.ts:300-325 | On an open socket the subscriptions go out before the accepted part of the queue, in order, and the refused part is the new queue, in order. |
| `ServerMessages.ServerConn.ProcessMessage` | packages/core/src/actor/protocol/message/mod.ts:86-202 | An action request gets exactly one reply with its own identifier, the output or the thrown error; a subscription request gets none and decides exactly that subscription; without a handler either gets an error without an action. |
| `TokenConservation.NextTokens` | packages/core/src/client/actor-conn.ts:142-179 | One step changes the number of tokens of an action only by its call, which adds one, and by the arrival of its reply, which takes one. |
| `TokenConservation.TokenConserved` | packages/core/src/client/actor-conn.ts:142-179 | In every run, through any number of sockets, an action in flight has exactly one token: a queued request, a request in the channel, an execution, a reply in the channel, or a loss with a closed socket. |
| `TokenConservation.TokenConservedUnbroken` | packages/core/src/client/actor-conn.ts:142-179 | On one unbroken socket the token is in the queue, the client's channel, the execution or the server's channel. |
| `TokenConservation.QueueConserved` | packages/core/src/client/actor-conn.ts:317-325 | Across any number of reconnects every accepted request was handed to a socket once or is queued once. |
| `Settlement.RunPartition` | packages/core/src/client/actor-conn.ts:153-178 | In every run each identifier below the counter is in flight or settled, not both, and no other identifier is either. |
| `Settlement.SettledOnce` | packages/core/src/client/actor-conn.ts:352-405 | An action is settled at most once: an outcome that it has at some point of a run it keeps. |
| `Settlement.StartedAtMostOnce` | packages/core/src/actor/protocol/message/mod.ts:86-121 | Over any number of reconnects the server starts the request of an action at most once. |
| `Settlement.RunGenuine` | packages/core/src/actor/protocol/message/mod.ts:96-140 | In every run requests travel as they were issued, and every response and resolved action carries an output that the server produced for its identifier. |
| `Settlement.ResolvedGenuinely` | packages/core/src/client/actor-conn.ts:392-405 | An action that resolves was started by the server exactly once, as the client issued it, and resolves with an output produced for that request. |
| `Settlement.RejectedForCause` | packages/core/src/client/actor-conn.ts:352-391 | In every run, an action is rejected with a code only if the server threw that code for this action or for action 0, or raised it for the whole connection, and that error has arrived. |
| `Settlement.ActionZeroRejectsOthers` | packages/core/src/client/actor-conn.ts:356-391 | A concrete run in which action 0 throws and action 1, still executing, is rejected with its error. |
| `Progress.ArrivedReplySettles` | packages/core/src/client/actor-conn.ts:352-405 | In every run an action in flight is settled for good by the arrival of its response, its error, the error of action 0 or an error without an action, with that output or code, and by no other message. |
| `Progress.CallResolves` | packages/core/src/actor/protocol/message/mod.ts:96-140 | From any quiet state on an open socket, a call whose action succeeds resolves with the server's output. |
| `Progress.CallRejects` | packages/core/src/actor/protocol/message/mod.ts:172-197 | From any quiet state, a call whose action throws is rejected with the code thrown. |
| `Progress.ConnectionErrorRejectsAll` | packages/core/src/client/actor-conn.ts:372-387 | From any quiet state, an error that the server raises without an action rejects every action in flight with its code. |
| `Progress.ReconnectSendsQueue` | packages/core/src/client/actor-conn.ts:300-325 | From any state without a socket, a new socket that takes everything carries a subscription for every event with a listener and then the whole queue in order. |
| `Progress.ReconnectAfterClose` | packages/core/src/client/actor-conn.ts:418-455 | The same after the loss of any socket, with every action still in flight. |
| `SubscriptionAgreement.InitAgrees` | packages/core/src/client/actor-conn.ts:300-325 | After an init message the server's subscriptions, folded over what is in transit, include every event with a listener whose own resubscription the socket took. |
| `SubscriptionAgreement.SubscriptionsAgree` | packages/core/src/client/actor-conn.ts:475-539 | The same holds in every later state on that socket, through `on`, `once`, unsubscribing, duplicate requests and reconnects, for every event but those whose own latest subscription request was lost in a failed send. |
| `Progress.BroadcastReachesListeners` | packages/core/src/actor/instance.ts:1106-1126 | Once the server has processed what the client sent, a broadcast is on its way to the client for every event with a listener, except a lost one. |
| `EscapedLists.EscapeSnoc` | packages/platforms/cloudflare-workers/src/util.ts:47-50 | The two replacement passes over a string are one pass over its characters. |
| `EscapedLists.EscapeEncodes` | packages/platforms/cloudflare-workers/src/util.ts:47-96 | The decoding loop, wherever it meets an escaped part, appends exactly that part. |
| `EscapedLists.ScanJoin` | packages/platforms/cloudflare-workers/src/util.ts:73-96 | The decoding loop splits a joined list of encodings back into its parts. |
| `EscapedLists.JoinInjective` | packages/platforms/cloudflare-workers/src/util.ts:53-53 | Two lists of parts with the same joined encoding are the same list. |
| `KeyCodec.DeserializeKey` | packages/platforms/cloudflare-workers/src/util.ts:62-104 | The loop computes the specified decoding, and decodes the code of every key but the singleton empty string to that key. |
| `KeyCodec.DeserializeKeyFromTag` | packages/core/src/drivers/rivet/util.ts:45-82 | A missing tag decodes to the empty key, and the code of every key but the singleton empty string to that key. |
| `KeyCodec.MarkerCode` | packages/platforms/cloudflare-workers/src/util.ts:34-54 | The marker "(none)" is the code of the empty key and of no other key. |
| `KeyCodec.RoundTrip` | packages/core/src/drivers/rivet/util.ts:17-82 | Decoding inverts encoding if and only if the key is not the list of one empty string. |
| `KeyCodec.SerializeKeyInjective` | packages/platforms/cloudflare-workers/src/util.ts:34-54 | Encoding is injective on all keys, including that one. |
| `KeyCodec.NameAndKeyInjective` | packages/platforms/cloudflare-workers/src/util.ts:12-26 | Names that do not end in a backslash and their keys are determined by their code. |
| `KeyCodec.BackslashCollides` | packages/platforms/cloudflare-workers/src/util.ts:12-26 | Every name that ends in a backslash shares a code with another name and key. |
| `KeyCodec.NameAndKeyExact` | packages/platforms/cloudflare-workers/src/util.ts:12-26 | The names that do not end in a backslash are a maximal set on which the code is injective: a name shares no code with another pair of such a name if and only if it is one itself. |
| `KeyCodec.PlainFormat` | packages/platforms/cloudflare-workers/src/util.ts:12-54 | Without special characters the parts are joined by a comma and follow the name and a colon; the empty key is spelled with the marker. |
| `RedisRegistry.LookupKeyInjective` | packages/drivers/redis/src/manager.ts:159-178 | The lookup key determines name and key, for all names and keys. |
| `RedisRegistry.PlainLookupKey` | packages/drivers/redis/src/manager.ts:159-169 | Without special characters the lookup key is the prefix, the name and the part, separated by colons. |
| `RedisRegistry.ActorKeysDisjoint` | packages/drivers/redis/src/keys.ts:1-14 | The four per-actor keys are injective in the identifier, and keys of different kinds differ for any two actors, whatever characters the identifiers contain. |
| `RedisRegistry.LookupKeyDisjoint` | packages/drivers/redis/src/manager.ts:159-169 | No lookup key is a per-actor key. |
| `RedisRegistry.WithActorRegisters` | packages/drivers/redis/src/manager.ts:105-116 | The creating transaction registers exactly one more pair of name and key. |
| `RedisRegistry.CreateKeepsAgree` | packages/drivers/redis/src/manager.ts:105-116 | It keeps index and metadata in agreement both ways. |
| `RedisRegistry.OtherWritesKeepAgree` | packages/drivers/redis/src/keys.ts:5-12 | Writes under lease and state keys touch no registration. |
| `RedisRegistry.RegisteredInjective` | packages/drivers/redis/src/manager.ts:72-80 | Distinct pairs never share an actor. |
| `RedisRegistry.RedisManager.GetForId` | packages/drivers/redis/src/manager.ts:49-66 | An identifier is answered with a name and key if and only if that pair is registered for it. |
| `RedisRegistry.RedisManager.GetWithKey` | packages/drivers/redis/src/manager.ts:68-81 | A pair is answered with its registered actor, with that name and key, and with nothing if there is none. |
| `RedisRegistry.RedisManager.CreateActor` | packages/drivers/redis/src/manager.ts:95-132 | A duplicate creation is refused and changes nothing; another one writes exactly the three keys and registers exactly the new pair. |
| `RedisRegistry.RedisManager.GetOrCreateWithKey` | packages/drivers/redis/src/manager.ts:83-93 | Idempotent: a registered pair is returned and nothing changes, a new one is registered, all others keep their actors. |
| `RedisRegistry.KeyspaceRefinesRegistry` | packages/drivers/redis/src/manager.ts:49-132 | Over every sequence of driver writes the flat keyspace refines a partial map from name and key to identifier. |
| `RedisRegistry.KeyspaceKeepsStateAndLease` | packages/drivers/redis/src/keys.ts:1-14 | After any run every actor's state and lease keys hold what was last written for it, whatever was created and written for others in the same flat keyspace. |
| `FakeWebSockets.FakeWebSocket.DispatchEvent` | packages/core/src/inline-client-driver/fake-websocket.ts:313-328 | An event reaches all listeners of its kind in the order of their registration and is delivered, or is buffered if there is none. |
| `FakeWebSockets.FakeWebSocket.FireEvent` | packages/core/src/inline-client-driver/fake-websocket.ts:313-328 | An event reaches its listeners behind all earlier events of its kind, or waits behind them: the order of every kind is kept. |
| `FakeWebSockets.FakeWebSocket.Handle` | packages/core/src/inline-client-driver/fake-websocket.ts:228-272 | A message comes behind all messages fired before, and on a socket that is not open behind all queued ones; the order of events is kept. |
| `FakeWebSockets.FakeWebSocket.MessageFromServer` | packages/core/src/inline-client-driver/fake-websocket.ts:228-272 | What the server sent has reached the listeners, or waits, in the order in which it was sent: the invariant of events and messages is kept. |
| `FakeWebSockets.FakeWebSocket.HandlerReady` | packages/core/src/inline-client-driver/fake-websocket.ts:184-213 | Opening fires the open event and then every queued message, in order; nothing stays queued, no listener changes, and order is kept. |
| `FakeWebSockets.FakeWebSocket.ProcessQueued` | packages/core/src/inline-client-driver/fake-websocket.ts:204-212 | The loop over the queued messages refines handling one after the other. |
| `FakeWebSockets.FakeWebSocket.AddEventListener` | packages/core/src/inline-client-driver/fake-websocket.ts:293-301 | The listener is appended to those of its kind and no other kind changes; every event fired of that kind has then been delivered, in order. |
| `FakeWebSockets.FakeWebSocket.FlushBufferedEvents` | packages/core/src/inline-client-driver/fake-websocket.ts:330-341 | The loop over the buffered events of one kind refines their dispatch in order. |
| `FakeWebSockets.FakeWebSocket.RemoveEventListener` | packages/core/src/inline-client-driver/fake-websocket.ts:303-311 | The first match of the listener goes, if there is one; the others stay in order, no other kind changes, and the order of events is kept. |
| `FakeWebSockets.FakeWebSocket.Splice` | packages/core/src/inline-client-driver/fake-websocket.ts:306-309 | The search and the splice take out the first match and nothing else. |
| `FakeWebSockets.ListenersFollowHistory` | packages/core/src/inline-client-driver/fake-websocket.ts:293-311 | After any run the listeners of a kind are those added, in order, less the first match of each removal. |
| `FakeWebSockets.FakeWebSocket.StartClosing` | packages/core/src/inline-client-driver/fake-websocket.ts:142-149 | A connecting or open socket goes to closing with its handler awaited; a closing or closed one is left as it is; order is kept. |
| `FakeWebSockets.FakeWebSocket.FinishClosing` | packages/core/src/inline-client-driver/fake-websocket.ts:157-172 | The socket is closed and exactly the close event is fired; its queued messages still wait, and order is kept. |
| `FakeWebSockets.FakeWebSocket.ClosedByServer` | packages/core/src/inline-client-driver/fake-websocket.ts:274-291 | The socket is closed, and the close event is fired exactly if it was not closed before; order is kept. |
| `FakeWebSockets.AddKeeps` | packages/core/src/inline-client-driver/fake-websocket.ts:293-341 | A new listener completes the delivery of its kind and disturbs no other kind. |
| `FakeWebSockets.RunKeepsOrder` | packages/core/src/inline-client-driver/fake-websocket.ts:178-341 | In every run, of each kind, the delivered and then the buffered events are the fired ones in order, and fired and queued messages are the received ones in order. |
| `FakeWebSockets.OpenSocketIsUpToDate` | packages/core/src/inline-client-driver/fake-websocket.ts:228-341 | An open socket with a message listener has delivered exactly the messages that the server sent in the history, in order. |
| `FakeWebSockets.StateTellsHandler` | packages/core/src/inline-client-driver/fake-websocket.ts:178-191 | In every run a connecting socket's handler has not opened and an open socket's handler has. |
| `FakeWebSockets.StaysClosedExactly` | packages/core/src/inline-client-driver/fake-websocket.ts:178-191 | A closed socket stays closed in every continuation of its run if and only if its handler had opened before. |
| `FakeWebSockets.ServerCloseIsFinal` | packages/core/src/inline-client-driver/fake-websocket.ts:274-291 | A close by the server is final if and only if the socket was open, not connecting, when it came. |
| `FakeWebSockets.ClientCloseIsFinal` | packages/core/src/inline-client-driver/fake-websocket.ts:142-173 | So is a close by the client whose handler closes before it opens. |
| `FakeWebSockets.ClosedSocketReopens` | packages/core/src/inline-client-driver/fake-websocket.ts:184-191 | A concrete run in which a socket closed while it connects is open afterwards. |
| `RateLimiting.CountBounded` | examples/snippets/rate/actor-json.ts:12-34 | The counter never exceeds five. |
| `RateLimiting.IntervalBound` | examples/snippets/rate/actor-json.ts:12-34 | Any interval of one minute contains at most nine allowed calls in any run, ten if the clock showed 0 at the first of them. |
| `RateLimiting.NineInOneMinute` | examples/snippets/rate/actor-json.ts:12-34 | The bound of nine is met by a concrete run. |
| `RateLimiting.MinuteKeepsLimitExactly` | examples/snippets/rate/actor-json.ts:12-34 | Whatever calls follow, the minute from an instant on allows no more than five if and only if, before it, the counter is at its limit or the open window does not end within that minute. |
| `RateLimiting.RoundToSeconds` | examples/snippets/rate/actor-json.ts:31-31 | Rounding is to the nearest second, halves upwards. |
| `RateLimiting.RateLimiter.Check` | examples/snippets/rate/actor-json.ts:14-32 | A call is allowed exactly if the window is over or fewer than five calls were counted; a window that is over starts anew for 60000 ms; what remains is five less the count, and the reset lies 0 to 60 seconds ahead. |

## Left out

- Routers, authentication, headers and OpenAPI: request plumbing around the mechanisms above.
- Serialization (CBOR, JSON, schemas, message size limits) and the change proxy: values stand for their encodings, and a mutation through the proxy is one step that sets the dirty flag.
- Strings are sequences of Unicode characters rather than UTF-16 code units; all characters the code compares with are ASCII.
- User hooks, actions and their timeouts: opaque atomic steps.
- The SSE transport and its HTTP requests, which the code does not order.
- `dispose()` of the client connection, abort signals of actions, and error handlers registered by the user.
- An error that arrives before the init message makes the client open a second socket beside the first; the model has one socket at a time.
- A throwing `_sendMessage` on the server, which would add an error reply to the output.
- `ClientConns.ActorConn.Opened`: the order in which the client's map yields its event names is an argument, any enumeration of the events.
- The object identity of connections and of persisted entries, and their aliasing: `ConnTables` and `ConnActors` model them on values, and a message always names a live connection, so messages handled through a connection object that was removed before are not captured.
- Connection fields that no modelled operation reads: driver, driver state, parameters, state, authentication data.
- Writes to the raw `__persist` object of a freshly created connection, which do not set the dirty flag: the saver's lemmas speak of changes made through `#persist`.
- Failed driver writes, saving after actions run by an alarm, and when a non-immediate `saveState` resolves: the code guarantees nothing there.
- Executing the action of an event that an alarm ran, and the errors it may throw.
- Timers that fire early, and delays beyond the range of `setTimeout`.
- An actor that does not exist in `#start`, missing definitions, and errors thrown by Redis: they end the peer's code.
- Interleavings in which a peer is disposed while it acquires, or two peers of one node overlap: they break mutual exclusion.
- What nodes do with the payload of a delivered message (opening, closing and messaging relayed connections), beyond the connection operations of the actor.
- Concurrent `createActor` and `getOrCreateWithKey`, a race that the code names.
- Inspecting all actors (`getAllActors`), the file-system driver, the Rivet HTTP driver and its metadata cache.
- `send` of the fake WebSocket, handler errors, and error events.
- React and framework bindings, the other clients, documentation and the other examples.
