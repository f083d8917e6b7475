/**
 The lease key of one actor in Redis, and the three Lua scripts that the
 coordinate driver runs on it. Each script runs atomically at one instant `now`
 of the Redis clock.
 */
module LeaseScripts {
  type NodeId = string

  /** The value of the lease key: absent, or a node identifier with the instant at which Redis drops it. */
  datatype LeaseKey = Missing | Entry(node: NodeId, expiresAt: int)

  /** GET answers a value only while the entry has not expired. */
  predicate Live(key: LeaseKey, now: int) {
    key.Entry? && now < key.expiresAt
  }

  predicate HeldBy(key: LeaseKey, now: int, node: NodeId) {
    Live(key, now) && key.node == node
  }

  /** actorPeerAcquireLease: an existing value wins, otherwise `node` is written with an expiry. */
  function Acquire(key: LeaseKey, now: int, node: NodeId, duration: int): (LeaseKey, NodeId) {
    if Live(key, now) then (key, key.node) else (Entry(node, now + duration), node)
  }

  /** actorPeerExtendLease: refreshes the expiry, only when the value is already `node`. */
  function Extend(key: LeaseKey, now: int, node: NodeId, duration: int): (LeaseKey, bool) {
    if HeldBy(key, now, node) then (Entry(node, now + duration), true) else (key, false)
  }

  /** actorPeerReleaseLease: deletes the entry, only when the value is `node`. */
  function Release(key: LeaseKey, now: int, node: NodeId): (LeaseKey, bool) {
    if HeldBy(key, now, node) then (Missing, true) else (key, false)
  }

  /**
   The key inside Redis. The scripts update it in place. What they promise is stated in terms of
   who holds the lease, before and after, rather than of the script text.
   */
  class LeaseStore {
    var key: LeaseKey

    constructor ()
      ensures key == Missing
    {
      key := Missing;
    }

    method ActorPeerAcquireLease(node: NodeId, duration: int, now: int) returns (holder: NodeId)
      modifies this
      ensures (key, holder) == Acquire(old(key), now, node, duration)
      ensures 0 < duration ==> HeldBy(key, now, holder)
      ensures forall m :: old(HeldBy(key, now, m)) ==> holder == m && key == old(key)
      ensures !old(Live(key, now)) ==>
                holder == node && forall t :: HeldBy(key, t, node) <==> t < now + duration
    {
      if key.Entry? && now < key.expiresAt {
        return key.node;
      }
      key := Entry(node, now + duration);
      return node;
    }

    method ActorPeerExtendLease(node: NodeId, duration: int, now: int) returns (valid: bool)
      modifies this
      ensures (key, valid) == Extend(old(key), now, node, duration)
      ensures valid <==> old(HeldBy(key, now, node))
      ensures valid ==> forall t :: HeldBy(key, t, node) <==> t < now + duration
      ensures !valid ==> key == old(key)
      ensures forall m :: m != node ==> (HeldBy(key, now, m) <==> old(HeldBy(key, now, m)))
    {
      if !(key.Entry? && now < key.expiresAt && key.node == node) {
        return false;
      }
      key := Entry(node, now + duration);
      return true;
    }

    method ActorPeerReleaseLease(node: NodeId, now: int) returns (removed: bool)
      modifies this
      ensures (key, removed) == Release(old(key), now, node)
      ensures removed <==> old(HeldBy(key, now, node))
      ensures removed ==> forall t, m :: !HeldBy(key, t, m)
      ensures !removed ==> key == old(key) && !HeldBy(key, now, node)
      ensures forall m :: m != node ==> (HeldBy(key, now, m) <==> old(HeldBy(key, now, m)))
    {
      if key.Entry? && now < key.expiresAt && key.node == node {
        key := Missing;
        return true;
      }
      return false;
    }
  }
}
