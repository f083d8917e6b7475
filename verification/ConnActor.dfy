/** The connection part of the actor instance, as an object whose methods update its fields in place. */
module ConnActors {
  import opened ConnTables

  class ConnActor {
    var connections: map<ConnId, Conn>
    var c: seq<PersistedConn>
    var subscriptionIndex: Index

    ghost function State(): Table
      reads this
    {
      Table(connections, c, subscriptionIndex)
    }

    ghost predicate Valid()
      reads this
    {
      Inv(State())
    }

    constructor ()
      ensures State() == EMPTY
    {
      connections := map[];
      c := [];
      subscriptionIndex := map[];
    }

    method CreateConnection(id: ConnId, token: string) returns (ok: bool)
      modifies this
      ensures ok <==> CreateConn(old(State()), id, token).Some?
      ensures ok ==> State() == CreateConn(old(State()), id, token).value
      ensures !ok ==> State() == old(State())
      ensures ok <==> id !in old(connections)
      ensures ok ==> connections == old(connections)[id := Conn(token, {})] && subscriptionIndex == old(subscriptionIndex)
      ensures ok ==> c == old(c) + [PersistedConn(id, token, [])]
      ensures old(Valid()) ==> Valid()
    {
      ghost var t := State();
      if id in connections {
        return false;
      }
      connections := connections[id := Conn(token, {})];
      c := c + [PersistedConn(id, token, [])];
      ok := true;
      StaysInv(t, Step.Create(id, token));
    }

    method DropSubscriber(event: string, id: ConnId)
      modifies this`subscriptionIndex
      ensures subscriptionIndex == RemoveFromIndex(old(subscriptionIndex), {event}, id)
    {
      if event in subscriptionIndex {
        var subscribers := subscriptionIndex[event] - {id};
        if |subscribers| == 0 {
          subscriptionIndex := subscriptionIndex - {event};
        } else {
          subscriptionIndex := subscriptionIndex[event := subscribers];
        }
      }
    }

    method RemoveConnection(id: ConnId)
      modifies this
      ensures State() == RemoveConn(old(State()), id)
      ensures connections == old(connections) - {id} && (id !in old(connections) ==> State() == old(State()))
      ensures old(Valid()) ==> Valid()
    {
      ghost var t := State();
      StaysInv(t, Step.Remove(id));
      if id !in connections {
        return;
      }
      var conn := connections[id];
      var connIdx := FindConn(c, id);
      if connIdx.Some? {
        c := c[..connIdx.value] + c[connIdx.value + 1..];
      }
      connections := connections - {id};
      var todo := conn.subscriptions;
      while todo != {}
        invariant todo <= conn.subscriptions
        invariant connections == t.connections - {id} && c == WithoutConn(t.c, id)
        invariant subscriptionIndex == RemoveFromIndex(t.index, conn.subscriptions - todo, id)
        decreases todo
      {
        var eventName :| eventName in todo;
        todo := todo - {eventName};
        DropSubscriber(eventName, id);
      }
    }

    method Subscribe(event: string, id: ConnId)
      modifies this
      ensures State() == NextTable(old(State()), Step.Subscribe(id, event))
      ensures connections.Keys == old(connections).Keys
      ensures forall i, e :: State().Subscribed(i, e) <==>
                old(State().Subscribed(i, e)) || (i == id && e == event && id in old(connections))
      ensures old(Valid()) ==> Valid()
    {
      ghost var t := State();
      StaysInv(t, Step.Subscribe(id, event));
      if id !in connections || event in connections[id].subscriptions {
        return;
      }
      c := PushSu(c, id, event);
      AddLiveSubscription(event, id);
    }

    method AddLiveSubscription(event: string, id: ConnId)
      requires id in connections
      modifies this`connections, this`subscriptionIndex
      ensures connections == old(connections)[id :=
                old(connections)[id].(subscriptions := old(connections)[id].subscriptions + {event})]
      ensures subscriptionIndex == AddToIndex(old(subscriptionIndex), event, id)
    {
      connections := connections[id := connections[id].(subscriptions := connections[id].subscriptions + {event})];
      if event !in subscriptionIndex {
        subscriptionIndex := subscriptionIndex[event := {}];
      }
      subscriptionIndex := subscriptionIndex[event := subscriptionIndex[event] + {id}];
    }

    method Unsubscribe(event: string, id: ConnId)
      modifies this
      ensures State() == NextTable(old(State()), Step.Unsubscribe(id, event))
      ensures connections.Keys == old(connections).Keys
      ensures forall i, e :: State().Subscribed(i, e) <==> old(State().Subscribed(i, e)) && !(i == id && e == event)
      ensures old(Valid()) ==> Valid()
    {
      ghost var t := State();
      StaysInv(t, Step.Unsubscribe(id, event));
      if id !in connections || event !in connections[id].subscriptions {
        return;
      }
      connections := connections[id := connections[id].(subscriptions := connections[id].subscriptions - {event})];
      c := SpliceSu(c, id, event);
      DropSubscriber(event, id);
    }

    /** The restoring part of `#initialize`. */
    method Initialize(persisted: seq<PersistedConn>)
      requires connections == map[] && subscriptionIndex == map[]
      modifies this
      ensures State() == Restore(persisted)
      ensures forall t :: Inv(t) && t.c == persisted ==> State() == t
    {
      c := persisted;
      ghost var base := Table(map[], c, map[]);
      for i := 0 to |persisted|
        invariant c == persisted && State() == RestoreConns(base, persisted[..i])
      {
        var connPersist := persisted[i];
        assert persisted[..i + 1][..i] == persisted[..i];
        connections := connections[connPersist.i := Conn(connPersist.t, {})];
        ghost var t := State();
        for j := 0 to |connPersist.su|
          invariant c == persisted && connPersist.i in connections
          invariant State() == RestoreSubscriptions(t, connPersist.i, connPersist.su[..j])
        {
          assert connPersist.su[..j + 1][..j] == connPersist.su[..j];
          if connPersist.su[j] !in connections[connPersist.i].subscriptions {
            AddLiveSubscription(connPersist.su[j], connPersist.i);
          }
        }
        assert connPersist.su[..|connPersist.su|] == connPersist.su;
      }
      assert persisted[..|persisted|] == persisted;
      forall t | Inv(t) && t.c == persisted ensures State() == t {
        RestoreRoundTrip(t);
      }
    }

    /** `_broadcast`: one message to each subscribed live connection, and to nobody else. */
    method Broadcast(name: string) returns (sent: seq<ConnId>)
      requires Valid()
      ensures NoDuplicates(sent)
      ensures forall id :: id in sent <==> id in connections && name in connections[id].subscriptions
    {
      sent := [];
      if name !in subscriptionIndex {
        forall id ensures !State().Subscribed(id, name) {
          assert State().Indexed(id, name) <==> State().Subscribed(id, name);
        }
        assert forall id :: State().Subscribed(id, name) <==> id in connections && name in connections[id].subscriptions;
        return;
      }
      var todo := subscriptionIndex[name];
      while todo != {}
        invariant todo <= subscriptionIndex[name]
        invariant NoDuplicates(sent)
        invariant forall id :: id in sent <==> id in subscriptionIndex[name] && id !in todo
        decreases todo
      {
        var connection :| connection in todo;
        todo := todo - {connection};
        sent := sent + [connection];
      }
      forall id ensures id in sent <==> State().Subscribed(id, name) {
        assert State().Indexed(id, name) <==> State().Subscribed(id, name);
      }
    }
  }
}
