/**
 The connections of an actor instance in their three redundant representations: the table of live
 connections with their subscription sets, the persisted connection list, and the inverted subscription index.
 */
module ConnTables {
  import opened Wrappers

  type ConnId = string

  datatype Conn = Conn(token: string, subscriptions: set<string>)

  datatype PersistedConn = PersistedConn(i: ConnId, t: string, su: seq<string>)

  type Index = map<string, set<ConnId>>

  datatype Table = Table(connections: map<ConnId, Conn>, c: seq<PersistedConn>, index: Index)
  {
    predicate Subscribed(id: ConnId, event: string) {
      id in connections && event in connections[id].subscriptions
    }

    predicate Indexed(id: ConnId, event: string) {
      event in index && id in index[event]
    }
  }

  const EMPTY := Table(map[], [], map[])

  /** `findIndex((c) => c.i === id)` */
  function FindConn(c: seq<PersistedConn>, id: ConnId): (r: Option<nat>)
    ensures r.Some? ==> r.value < |c| && c[r.value].i == id && forall k | 0 <= k < r.value :: c[k].i != id
    ensures r.None? ==> forall k | 0 <= k < |c| :: c[k].i != id
  {
    FindConnFrom(c, id, 0)
  }

  function FindConnFrom(c: seq<PersistedConn>, id: ConnId, from: nat): (r: Option<nat>)
    requires from <= |c| && forall k | 0 <= k < from :: c[k].i != id
    ensures r.Some? ==> r.value < |c| && c[r.value].i == id && forall k | 0 <= k < r.value :: c[k].i != id
    ensures r.None? ==> forall k | 0 <= k < |c| :: c[k].i != id
    decreases |c| - from
  {
    if from == |c| then None else if c[from].i == id then Some(from) else FindConnFrom(c, id, from + 1)
  }

  /** `findIndex((s) => s.n === event)` followed by `splice(subIdx, 1)` */
  function RemoveFirst(su: seq<string>, event: string): seq<string> {
    if su == [] then [] else if su[0] == event then su[1..] else [su[0]] + RemoveFirst(su[1..], event)
  }

  /** `connection.__persist.su.push(event)` */
  function PushSu(c: seq<PersistedConn>, id: ConnId, event: string): seq<PersistedConn> {
    var k := FindConn(c, id);
    if k.None? then c else c[k.value := c[k.value].(su := c[k.value].su + [event])]
  }

  function SpliceSu(c: seq<PersistedConn>, id: ConnId, event: string): seq<PersistedConn> {
    var k := FindConn(c, id);
    if k.None? then c else c[k.value := c[k.value].(su := RemoveFirst(c[k.value].su, event))]
  }

  function WithoutConn(c: seq<PersistedConn>, id: ConnId): seq<PersistedConn> {
    var k := FindConn(c, id);
    if k.None? then c else c[..k.value] + c[k.value + 1..]
  }

  function AddToIndex(index: Index, event: string, id: ConnId): Index {
    index[event := (if event in index then index[event] else {}) + {id}]
  }

  /** The index without `id` under the given events; an event left without subscribers is dropped. */
  function RemoveFromIndex(index: Index, events: set<string>, id: ConnId): Index {
    map e | e in index && !(e in events && index[e] - {id} == {}) ::
      if e in events then index[e] - {id} else index[e]
  }

  /** `createConn`; None is the error for an identifier that is in use. */
  function CreateConn(t: Table, id: ConnId, token: string): Option<Table> {
    if id in t.connections then None
    else Some(t.(connections := t.connections[id := Conn(token, {})], c := t.c + [PersistedConn(id, token, [])]))
  }

  function RemoveConn(t: Table, id: ConnId): Table {
    if id !in t.connections then t
    else
      Table(t.connections - {id}, WithoutConn(t.c, id),
            RemoveFromIndex(t.index, t.connections[id].subscriptions, id))
  }

  function AddSubscription(t: Table, event: string, id: ConnId, fromPersist: bool): Table
    requires id in t.connections
  {
    var conn := t.connections[id];
    if event in conn.subscriptions then t
    else
      Table(t.connections[id := conn.(subscriptions := conn.subscriptions + {event})],
            if fromPersist then t.c else PushSu(t.c, id, event),
            AddToIndex(t.index, event, id))
  }

  function RemoveSubscription(t: Table, event: string, id: ConnId): Table
    requires id in t.connections
  {
    var conn := t.connections[id];
    if event !in conn.subscriptions then t
    else
      Table(t.connections[id := conn.(subscriptions := conn.subscriptions - {event})],
            SpliceSu(t.c, id, event),
            RemoveFromIndex(t.index, {event}, id))
  }

  /** The loops of `#initialize` over the persisted connections and their subscriptions. */
  function RestoreSubscriptions(t: Table, id: ConnId, su: seq<string>): (r: Table)
    requires id in t.connections
    ensures id in r.connections
    decreases |su|
  {
    if su == [] then t
    else
      var last := |su| - 1;
      AddSubscription(RestoreSubscriptions(t, id, su[..last]), su[last], id, true)
  }

  function RestoreConns(t: Table, c: seq<PersistedConn>): Table
    decreases |c|
  {
    if c == [] then t
    else
      var last := c[|c| - 1];
      var s := RestoreConns(t, c[..|c| - 1]);
      RestoreSubscriptions(s.(connections := s.connections[last.i := Conn(last.t, {})]), last.i, last.su)
  }

  function Restore(c: seq<PersistedConn>): Table {
    RestoreConns(Table(map[], c, map[]), c)
  }

  // ---------- The agreement of the three representations ----------

  ghost predicate NoDuplicates(su: seq<string>) {
    forall i, j | 0 <= i < j < |su| :: su[i] != su[j]
  }

  /** The persisted identifiers are unique and are exactly the identifiers of the live connections. */
  ghost predicate IdsAgree(t: Table) {
    && (forall i, j | 0 <= i < j < |t.c| :: t.c[i].i != t.c[j].i)
    && (forall k | 0 <= k < |t.c| :: t.c[k].i in t.connections)
    && (forall id | id in t.connections :: FindConn(t.c, id).Some?)
  }

  /** A persisted connection lists its live connection's subscriptions, each of them once. */
  ghost predicate EntryAgrees(t: Table, p: PersistedConn) {
    && p.i in t.connections
    && t.connections[p.i].token == p.t
    && NoDuplicates(p.su)
    && (forall e :: e in p.su <==> e in t.connections[p.i].subscriptions)
  }

  /** The index names exactly the live subscriptions and keeps no empty entry. */
  ghost predicate IndexExact(t: Table) {
    && (forall e | e in t.index :: t.index[e] != {})
    && (forall id, e :: t.Indexed(id, e) <==> t.Subscribed(id, e))
  }

  ghost predicate Inv(t: Table) {
    && IdsAgree(t)
    && (forall k | 0 <= k < |t.c| :: EntryAgrees(t, t.c[k]))
    && IndexExact(t)
  }

  lemma {:induction false} RemoveFirstDrops(su: seq<string>, event: string)
    requires NoDuplicates(su)
    ensures NoDuplicates(RemoveFirst(su, event))
    ensures forall e :: e in RemoveFirst(su, event) <==> e in su && e != event
  {
    if su != [] {
      assert su == [su[0]] + su[1..];
      forall k | 0 <= k < |su| - 1 ensures su[1..][k] != su[0] {
        assert su[1..][k] == su[k + 1];
      }
      RemoveFirstDrops(su[1..], event);
      if su[0] != event {
        var rest := RemoveFirst(su[1..], event);
        var r := [su[0]] + rest;
        forall i, j | 0 <= i < j < |r| ensures r[i] != r[j] {
          assert r[j] == rest[j - 1] && r[j] in su[1..];
          assert 0 < i ==> r[i] == rest[i - 1];
        }
      }
    }
  }

  lemma CreateKeepsIds(t: Table, id: ConnId, token: string)
    requires IdsAgree(t) && id !in t.connections
    ensures IdsAgree(CreateConn(t, id, token).value)
  {
    var r := CreateConn(t, id, token).value;
    assert r.c[|t.c|].i == id;
    forall i | i in r.connections ensures FindConn(r.c, i).Some? {
      if i != id {
        assert r.c[FindConn(t.c, i).value].i == i;
      }
    }
  }

  lemma CreateKeepsIndex(t: Table, id: ConnId, token: string)
    requires IndexExact(t) && id !in t.connections
    ensures IndexExact(CreateConn(t, id, token).value)
    ensures forall i, e :: CreateConn(t, id, token).value.Subscribed(i, e) <==> t.Subscribed(i, e)
  {
    var r := CreateConn(t, id, token).value;
    forall i, e ensures r.Indexed(i, e) <==> r.Subscribed(i, e) {
      assert t.Indexed(i, e) <==> t.Subscribed(i, e);
    }
  }

  lemma CreateKeepsInv(t: Table, id: ConnId, token: string)
    requires Inv(t) && id !in t.connections
    ensures Inv(CreateConn(t, id, token).value)
  {
    var r := CreateConn(t, id, token).value;
    CreateKeepsIds(t, id, token);
    CreateKeepsIndex(t, id, token);
    forall k | 0 <= k < |r.c| ensures EntryAgrees(r, r.c[k]) {
      assert k < |t.c| ==> EntryAgrees(t, t.c[k]);
    }
  }

  lemma RemovedFromIndex(t: Table, r: Table, events: set<string>, id: ConnId)
    requires IndexExact(t) && r.index == RemoveFromIndex(t.index, events, id)
    ensures forall e | e in r.index :: r.index[e] != {}
    ensures forall i, e :: r.Indexed(i, e) <==> t.Indexed(i, e) && !(i == id && e in events)
  {
    forall i, e ensures r.Indexed(i, e) <==> t.Indexed(i, e) && !(i == id && e in events) {
      if t.Indexed(i, e) && i != id {
        assert i in t.index[e] - {id};
      }
    }
  }

  lemma RemoveKeepsIndex(t: Table, id: ConnId)
    requires IndexExact(t)
    ensures IndexExact(RemoveConn(t, id))
    ensures forall i, e :: RemoveConn(t, id).Subscribed(i, e) <==> i != id && t.Subscribed(i, e)
  {
    if id in t.connections {
      var r := RemoveConn(t, id);
      RemovedFromIndex(t, r, t.connections[id].subscriptions, id);
      forall i, e ensures r.Indexed(i, e) <==> r.Subscribed(i, e) {
        assert t.Indexed(i, e) <==> t.Subscribed(i, e);
      }
    }
  }

  lemma WithoutConnEntries(t: Table, id: ConnId)
    requires IdsAgree(t) && id in t.connections
    ensures var x := FindConn(t.c, id).value;
            var r := WithoutConn(t.c, id);
            && |r| == |t.c| - 1
            && (forall k | 0 <= k < |r| :: r[k] == t.c[if k < x then k else k + 1] && r[k].i != id)
            && (forall i, j | 0 <= i < j < |r| :: r[i].i != r[j].i)
  {
    var x := FindConn(t.c, id).value;
    var r := WithoutConn(t.c, id);
    forall k | 0 <= k < |r| ensures r[k] == t.c[if k < x then k else k + 1] {
    }
  }

  lemma OthersStayFound(t: Table, id: ConnId, i: ConnId)
    requires IdsAgree(t) && id in t.connections && i in t.connections && i != id
    ensures FindConn(WithoutConn(t.c, id), i).Some?
  {
    WithoutConnEntries(t, id);
    var x, y := FindConn(t.c, id).value, FindConn(t.c, i).value;
    assert WithoutConn(t.c, id)[if y < x then y else y - 1].i == i;
  }

  lemma RemoveKeepsIds(t: Table, id: ConnId)
    requires IdsAgree(t) && id in t.connections
    ensures IdsAgree(RemoveConn(t, id))
  {
    WithoutConnEntries(t, id);
    forall i | i in RemoveConn(t, id).connections ensures FindConn(WithoutConn(t.c, id), i).Some? {
      OthersStayFound(t, id, i);
    }
  }

  /** Removing a live connection keeps the agreement of the three representations. */
  lemma RemoveKeepsInv(t: Table, id: ConnId)
    requires Inv(t)
    ensures Inv(RemoveConn(t, id))
  {
    RemoveKeepsIndex(t, id);
    if id in t.connections {
      RemoveKeepsIds(t, id);
      WithoutConnEntries(t, id);
      var r := RemoveConn(t, id);
      var x := FindConn(t.c, id).value;
      forall k | 0 <= k < |r.c| ensures EntryAgrees(r, r.c[k]) {
        assert EntryAgrees(t, t.c[if k < x then k else k + 1]);
      }
    }
  }

  lemma AddKeepsIndex(t: Table, event: string, id: ConnId, fromPersist: bool)
    requires IndexExact(t) && id in t.connections
    ensures IndexExact(AddSubscription(t, event, id, fromPersist))
    ensures forall i, e :: AddSubscription(t, event, id, fromPersist).Subscribed(i, e) <==>
                             t.Subscribed(i, e) || (i == id && e == event)
  {
    var r := AddSubscription(t, event, id, fromPersist);
    forall i, e ensures r.Indexed(i, e) <==> r.Subscribed(i, e) {
      assert t.Indexed(i, e) <==> t.Subscribed(i, e);
    }
  }

  lemma PushedOnce(su: seq<string>, event: string)
    requires NoDuplicates(su) && event !in su
    ensures NoDuplicates(su + [event])
    ensures forall e :: e in su + [event] <==> e in su || e == event
  {
  }

  lemma AddKeepsEntry(t: Table, event: string, id: ConnId, k: nat)
    requires Inv(t) && id in t.connections && event !in t.connections[id].subscriptions && k < |t.c|
    ensures EntryAgrees(AddSubscription(t, event, id, false), AddSubscription(t, event, id, false).c[k])
  {
    assert EntryAgrees(t, t.c[k]);
    if k == FindConn(t.c, id).value {
      PushedOnce(t.c[k].su, event);
    } else {
      assert t.c[k].i != id;
    }
  }

  lemma AddKeepsInv(t: Table, event: string, id: ConnId)
    requires Inv(t) && id in t.connections
    ensures Inv(AddSubscription(t, event, id, false))
  {
    AddKeepsIndex(t, event, id, false);
    if event !in t.connections[id].subscriptions {
      var r := AddSubscription(t, event, id, false);
      EntriesKept(t, r, id);
      forall k | 0 <= k < |r.c| ensures EntryAgrees(r, r.c[k]) {
        AddKeepsEntry(t, event, id, k);
      }
    }
  }

  lemma RemoveSubKeepsIndex(t: Table, event: string, id: ConnId)
    requires IndexExact(t) && id in t.connections
    ensures IndexExact(RemoveSubscription(t, event, id))
    ensures forall i, e :: RemoveSubscription(t, event, id).Subscribed(i, e) <==>
                             t.Subscribed(i, e) && !(i == id && e == event)
  {
    var r := RemoveSubscription(t, event, id);
    if event in t.connections[id].subscriptions {
      RemovedFromIndex(t, r, {event}, id);
      forall i, e ensures r.Indexed(i, e) <==> r.Subscribed(i, e) {
        assert t.Indexed(i, e) <==> t.Subscribed(i, e);
      }
    }
  }

  lemma RemoveSubKeepsInv(t: Table, event: string, id: ConnId)
    requires Inv(t) && id in t.connections
    ensures Inv(RemoveSubscription(t, event, id))
  {
    RemoveSubKeepsIndex(t, event, id);
    var r := RemoveSubscription(t, event, id);
    EntriesKept(t, r, id);
    var x := FindConn(t.c, id).value;
    assert EntryAgrees(t, t.c[x]);
    RemoveFirstDrops(t.c[x].su, event);
    forall k | 0 <= k < |r.c| ensures EntryAgrees(r, r.c[k]) {
      assert EntryAgrees(t, t.c[k]);
    }
  }

  /** Changing one entry's `su` list in place keeps the identifiers and the other entries. */
  lemma EntriesKept(t: Table, r: Table, id: ConnId)
    requires IdsAgree(t) && id in t.connections
    requires r.connections.Keys == t.connections.Keys
    requires |r.c| == |t.c| && forall k | 0 <= k < |t.c| :: r.c[k].i == t.c[k].i
    ensures IdsAgree(r)
    ensures forall k | 0 <= k < |t.c| && k != FindConn(t.c, id).value :: t.c[k].i != id
  {
    forall i | i in r.connections ensures FindConn(r.c, i).Some? {
      assert r.c[FindConn(t.c, i).value].i == i;
    }
  }

  // ---------- Restoring ----------

  lemma {:induction false} SubscriptionsRestored(t: Table, id: ConnId, su: seq<string>)
    requires IndexExact(t) && id in t.connections
    ensures var r := RestoreSubscriptions(t, id, su);
            && IndexExact(r) && r.c == t.c
            && r.connections == t.connections[id := Conn(t.connections[id].token, r.connections[id].subscriptions)]
            && (forall e :: e in r.connections[id].subscriptions <==> e in t.connections[id].subscriptions || e in su)
    decreases |su|
  {
    if su != [] {
      var last := |su| - 1;
      SubscriptionsRestored(t, id, su[..last]);
      var s := RestoreSubscriptions(t, id, su[..last]);
      AddKeepsIndex(s, su[last], id, true);
      assert su == su[..last] + [su[last]];
    }
  }

  lemma {:induction false} ConnsRestored(t: Table, c: seq<PersistedConn>)
    requires forall i, j | 0 <= i < j < |c| :: c[i].i != c[j].i
    requires t.connections == map[] && t.index == map[]
    ensures var r := RestoreConns(t, c);
            && IndexExact(r) && r.c == t.c
            && (forall id | id in r.connections :: FindConn(c, id).Some?)
            && (forall k | 0 <= k < |c| ::
                  && c[k].i in r.connections && r.connections[c[k].i].token == c[k].t
                  && (forall e :: e in r.connections[c[k].i].subscriptions <==> e in c[k].su))
    decreases |c|
  {
    if c != [] {
      var last := c[|c| - 1];
      var front := c[..|c| - 1];
      ConnsRestored(t, front);
      var s := RestoreConns(t, front);
      assert last.i !in s.connections;
      var s' := s.(connections := s.connections[last.i := Conn(last.t, {})]);
      forall i, e ensures s'.Indexed(i, e) <==> s'.Subscribed(i, e) {
        assert s.Indexed(i, e) <==> s.Subscribed(i, e);
      }
      SubscriptionsRestored(s', last.i, last.su);
      var r := RestoreConns(t, c);
      forall id | id in r.connections ensures FindConn(c, id).Some? {
        if id != last.i {
          assert c[FindConn(front, id).value].i == id;
        }
      }
      forall k | 0 <= k < |c| ensures c[k].i in r.connections && r.connections[c[k].i].token == c[k].t
        && (forall e :: e in r.connections[c[k].i].subscriptions <==> e in c[k].su) {
        assert k < |c| - 1 ==> front[k] == c[k];
      }
    }
  }

  lemma IndexDetermined(s: Table, t: Table)
    requires IndexExact(s) && IndexExact(t) && s.connections == t.connections
    ensures s.index == t.index
  {
    forall e | e in s.index ensures e in t.index {
      var id :| id in s.index[e];
      assert s.Indexed(id, e) && t.Indexed(id, e);
    }
    forall e | e in t.index ensures e in s.index {
      var id :| id in t.index[e];
      assert t.Indexed(id, e) && s.Indexed(id, e);
    }
    forall e | e in s.index ensures s.index[e] == t.index[e] {
      forall id ensures id in s.index[e] <==> id in t.index[e] {
        assert s.Indexed(id, e) <==> t.Indexed(id, e);
      }
    }
  }

  /** Rebuilding an actor from its persisted connections reproduces connections, subscriptions and index. */
  lemma RestoreRoundTrip(t: Table)
    requires Inv(t)
    ensures Restore(t.c) == t
  {
    var r := Restore(t.c);
    ConnsRestored(Table(map[], t.c, map[]), t.c);
    forall id ensures id in r.connections <==> id in t.connections {
      if id in r.connections {
        assert t.c[FindConn(t.c, id).value].i in t.connections;
      }
      if id in t.connections {
        assert t.c[FindConn(t.c, id).value].i in r.connections;
      }
    }
    forall id | id in t.connections ensures r.connections[id] == t.connections[id] {
      var k := FindConn(t.c, id).value;
      assert EntryAgrees(t, t.c[k]);
      assert r.connections[id].subscriptions == t.connections[id].subscriptions;
    }
    assert r.connections == t.connections;
    IndexDetermined(r, t);
  }

  // ---------- Runs ----------

  /** `saved` is a persisted connection list in storage, `savedTable` the table at the time of that save. */
  datatype World = World(table: Table, saved: seq<PersistedConn>, savedTable: Table)

  datatype Step =
    | Create(id: ConnId, token: string)
    | Remove(id: ConnId)
    | Subscribe(id: ConnId, event: string)
    | Unsubscribe(id: ConnId, event: string)
    | Save
    | Restart

  /** A message for a connection identifier that is not live is dropped with a warning. */
  function NextTable(t: Table, step: Step): Table {
    match step
    case Create(id, token) => if CreateConn(t, id, token).Some? then CreateConn(t, id, token).value else t
    case Remove(id) => RemoveConn(t, id)
    case Subscribe(id, event) => if id in t.connections then AddSubscription(t, event, id, false) else t
    case Unsubscribe(id, event) => if id in t.connections then RemoveSubscription(t, event, id) else t
    case _ => t
  }

  function Next(w: World, step: Step): World {
    match step
    case Save => w.(saved := w.table.c, savedTable := w.table)
    case Restart => w.(table := Restore(w.saved))
    case _ => w.(table := NextTable(w.table, step))
  }

  function Run(steps: seq<Step>): World {
    if steps == [] then World(EMPTY, [], EMPTY)
    else Next(Run(steps[..|steps| - 1]), steps[|steps| - 1])
  }

  /** The part of a history before its last save, which is what a restart goes back to. */
  function SavedPart(steps: seq<Step>): (r: seq<Step>)
    ensures |r| <= |steps| && (steps != [] ==> |r| < |steps|)
  {
    if steps == [] then []
    else if steps[|steps| - 1].Save? then steps[..|steps| - 1]
    else SavedPart(steps[..|steps| - 1])
  }

  /** What a history of steps alone, without any of the representations, says about liveness and subscriptions. */
  predicate LiveBy(steps: seq<Step>, id: ConnId)
    decreases |steps|
  {
    if steps == [] then false
    else
      var before := steps[..|steps| - 1];
      match steps[|steps| - 1]
      case Create(i, _) => i == id || LiveBy(before, id)
      case Remove(i) => i != id && LiveBy(before, id)
      case Restart => LiveBy(SavedPart(before), id)
      case _ => LiveBy(before, id)
  }

  predicate SubscribedBy(steps: seq<Step>, id: ConnId, event: string)
    decreases |steps|
  {
    if steps == [] then false
    else
      var before := steps[..|steps| - 1];
      match steps[|steps| - 1]
      case Remove(i) => i != id && SubscribedBy(before, id, event)
      case Subscribe(i, e) => SubscribedBy(before, id, event) || (i == id && e == event && LiveBy(before, id))
      case Unsubscribe(i, e) => !(i == id && e == event) && SubscribedBy(before, id, event)
      case Restart => SubscribedBy(SavedPart(before), id, event)
      case _ => SubscribedBy(before, id, event)
  }

  /** The token that the history gave a connection when it created it. */
  function TokenBy(steps: seq<Step>, id: ConnId): Option<string>
    decreases |steps|
  {
    if steps == [] then None
    else
      var before := steps[..|steps| - 1];
      match steps[|steps| - 1]
      case Create(i, token) => if i == id && !LiveBy(before, id) then Some(token) else TokenBy(before, id)
      case Remove(i) => if i == id then None else TokenBy(before, id)
      case Restart => TokenBy(SavedPart(before), id)
      case _ => TokenBy(before, id)
  }

  function TokenOf(t: Table, id: ConnId): Option<string> {
    if id in t.connections then Some(t.connections[id].token) else None
  }

  lemma NextTableKeepsInv(t: Table, step: Step)
    requires Inv(t)
    ensures Inv(NextTable(t, step))
  {
    match step {
      case Create(id, token) => if id !in t.connections { CreateKeepsInv(t, id, token); }
      case Remove(id) => RemoveKeepsInv(t, id);
      case Subscribe(id, event) => if id in t.connections { AddKeepsInv(t, event, id); }
      case Unsubscribe(id, event) => if id in t.connections { RemoveSubKeepsInv(t, event, id); }
      case _ =>
    }
  }

  lemma StaysInv(t: Table, step: Step)
    ensures Inv(t) ==> Inv(NextTable(t, step))
  {
    if Inv(t) {
      NextTableKeepsInv(t, step);
    }
  }

  ghost predicate WorldInv(w: World) {
    Inv(w.table) && Inv(w.savedTable) && Restore(w.saved) == w.savedTable
  }

  lemma NextKeepsInv(w: World, step: Step)
    requires WorldInv(w)
    ensures WorldInv(Next(w, step))
  {
    match step {
      case Save => RestoreRoundTrip(w.table);
      case Restart =>
      case Create(_, _) => NextTableKeepsInv(w.table, step);
      case Remove(_) => NextTableKeepsInv(w.table, step);
      case Subscribe(_, _) => NextTableKeepsInv(w.table, step);
      case Unsubscribe(_, _) => NextTableKeepsInv(w.table, step);
    }
  }

  lemma EmptyInv()
    ensures WorldInv(World(EMPTY, [], EMPTY))
  {
    assert Inv(EMPTY);
    RestoreRoundTrip(EMPTY);
  }

  /** In every run the representations agree, and a restart reproduces the table that was saved. */
  lemma {:induction false} RunInv(steps: seq<Step>)
    ensures Inv(Run(steps).table) && Inv(Run(steps).savedTable)
    ensures Restore(Run(steps).saved) == Run(steps).savedTable
    decreases |steps|
  {
    if steps == [] {
      EmptyInv();
    } else {
      RunInv(steps[..|steps| - 1]);
      NextKeepsInv(Run(steps[..|steps| - 1]), steps[|steps| - 1]);
    }
  }

  lemma {:induction false} SavedTableIsPast(steps: seq<Step>)
    ensures Run(steps).savedTable == Run(SavedPart(steps)).table
  {
    if steps != [] && !steps[|steps| - 1].Save? {
      SavedTableIsPast(steps[..|steps| - 1]);
    }
  }

  /** After any run the live connections are those that the history created and has not removed. */
  lemma {:induction false} LivenessFollowsHistory(steps: seq<Step>, id: ConnId)
    ensures id in Run(steps).table.connections <==> LiveBy(steps, id)
    decreases |steps|
  {
    if steps != [] {
      var before := steps[..|steps| - 1];
      LivenessFollowsHistory(before, id);
      if steps[|steps| - 1].Restart? {
        RunInv(before);
        SavedTableIsPast(before);
        LivenessFollowsHistory(SavedPart(before), id);
      }
    }
  }

  lemma NextFollowsTokens(t: Table, step: Step, id: ConnId)
    ensures TokenOf(NextTable(t, step), id) ==
              match step
              case Create(i, token) => if i == id && id !in t.connections then Some(token) else TokenOf(t, id)
              case Remove(i) => if i == id then None else TokenOf(t, id)
              case _ => TokenOf(t, id)
  {
  }

  /** After any run a live connection carries the token of its creation, across saves and restarts. */
  lemma {:induction false} TokenFollowsHistory(steps: seq<Step>, id: ConnId)
    ensures TokenOf(Run(steps).table, id) == TokenBy(steps, id)
    decreases |steps|
  {
    if steps != [] {
      var before := steps[..|steps| - 1];
      if steps[|steps| - 1].Restart? {
        RunInv(before);
        SavedTableIsPast(before);
        TokenFollowsHistory(SavedPart(before), id);
      } else {
        TokenFollowsHistory(before, id);
        LivenessFollowsHistory(before, id);
        NextFollowsTokens(Run(before).table, steps[|steps| - 1], id);
      }
    }
  }

  /** And so does its entry in the persisted list, of which there is exactly one. */
  lemma PersistedTokenFollowsHistory(steps: seq<Step>, k: nat)
    requires k < |Run(steps).table.c|
    ensures TokenBy(steps, Run(steps).table.c[k].i) == Some(Run(steps).table.c[k].t)
  {
    var t := Run(steps).table;
    RunInv(steps);
    TokenFollowsHistory(steps, t.c[k].i);
    assert EntryAgrees(t, t.c[k]);
  }

  /**
   The index refines the filter: after any run it names a connection under an event exactly when
   the history subscribed it.
   */
  lemma {:induction false} IndexFollowsHistory(steps: seq<Step>, id: ConnId, event: string)
    ensures Run(steps).table.Indexed(id, event) <==> SubscribedBy(steps, id, event)
    decreases |steps|
  {
    if steps == [] {
      assert !EMPTY.Indexed(id, event);
    } else {
      var before := steps[..|steps| - 1];
      var last := steps[|steps| - 1];
      RunInv(before);
      if last.Restart? {
        SavedTableIsPast(before);
        IndexFollowsHistory(SavedPart(before), id, event);
      } else {
        IndexFollowsHistory(before, id, event);
        LivenessFollowsHistory(before, id);
        NextFollowsHistory(Run(before).table, last, id, event);
      }
    }
  }

  /** One step changes the index exactly as it changes the subscriptions. */
  lemma NextFollowsHistory(t: Table, step: Step, id: ConnId, event: string)
    requires Inv(t)
    ensures NextTable(t, step).Indexed(id, event) <==>
              match step
              case Remove(i) => i != id && t.Indexed(id, event)
              case Subscribe(i, e) => t.Indexed(id, event) || (i == id && e == event && id in t.connections)
              case Unsubscribe(i, e) => !(i == id && e == event) && t.Indexed(id, event)
              case _ => t.Indexed(id, event)
  {
    assert t.Indexed(id, event) <==> t.Subscribed(id, event);
    NextTableKeepsInv(t, step);
    assert NextTable(t, step).Indexed(id, event) <==> NextTable(t, step).Subscribed(id, event);
    match step {
      case Create(i, token) => if i !in t.connections { CreateKeepsIndex(t, i, token); }
      case Remove(i) => RemoveKeepsIndex(t, i);
      case Subscribe(i, e) => if i in t.connections { AddKeepsIndex(t, e, i, false); }
      case Unsubscribe(i, e) => if i in t.connections { RemoveSubKeepsIndex(t, e, i); }
      case _ =>
    }
  }
}
