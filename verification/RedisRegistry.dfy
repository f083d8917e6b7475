/**
 The Redis manager driver: actors are registered in one flat keyspace, under a lookup key made of
 their name and key, next to the per-actor keys. Calls are sequential. Metadata values stand for their JSON text.
 */
module RedisRegistry {
  import opened Wrappers
  import opened EscapedLists

  datatype Value = Text(text: string) | Metadata(name: string, key: seq<string>)

  type Keyspace = map<string, Value>

  const DELIMITER := ':'

  // ---------- The key layout ----------

  function InitializedKey(actorId: string): string { "actor:" + actorId + ":initialized" }
  function LeaseNodeKey(actorId: string): string { "actor:" + actorId + ":lease:node" }
  function MetadataKey(actorId: string): string { "actor:" + actorId + ":metadata" }
  function PersistedDataKey(actorId: string): string { "actor:" + actorId + ":persisted_data" }

  function EscapeAll(parts: seq<string>): (r: seq<string>)
    ensures |r| == |parts| && forall k | 0 <= k < |parts| :: r[k] == Escape(parts[k], DELIMITER)
  {
    seq(|parts|, k requires 0 <= k < |parts| => Escape(parts[k], DELIMITER))
  }

  /** `#generateActorKeyRedisKey` */
  function LookupKey(name: string, key: seq<string>): string {
    "actor_by_key:" + Escape(name, DELIMITER) +
    if |key| > 0 then ":" + Join(EscapeAll(key), DELIMITER) else ""
  }

  lemma {:induction false} JoinCons(head: string, tail: seq<string>)
    requires tail != []
    ensures Join([head] + tail, DELIMITER) == head + [DELIMITER] + Join(tail, DELIMITER)
  {
    var all := [head] + tail;
    var n := |tail| - 1;
    assert all[..n + 1] == [head] + tail[..n] && all[n + 1] == tail[n];
    if n == 0 {
      assert all[..1] == [head];
    } else {
      JoinCons(head, tail[..n]);
      assert Join(tail, DELIMITER) == Join(tail[..n], DELIMITER) + [DELIMITER] + tail[n];
    }
  }

  /** A lookup key joins the escaped name and the escaped parts of the key as one list. */
  lemma LookupKeyIsJoin(name: string, key: seq<string>)
    ensures LookupKey(name, key) == "actor_by_key:" + Join(EscapeAll([name] + key), DELIMITER)
  {
    var escaped := EscapeAll([name] + key);
    if |key| == 0 {
      assert escaped == [Escape(name, DELIMITER)];
    } else {
      assert escaped == [Escape(name, DELIMITER)] + EscapeAll(key);
      JoinCons(Escape(name, DELIMITER), EscapeAll(key));
    }
  }

  lemma LookupKeyInjective(name: string, key: seq<string>, name': string, key': seq<string>)
    requires LookupKey(name, key) == LookupKey(name', key')
    ensures name == name' && key == key'
  {
    LookupKeyIsJoin(name, key);
    LookupKeyIsJoin(name', key');
    var prefix := "actor_by_key:";
    var parts, parts' := [name] + key, [name'] + key';
    var code, code' := Join(EscapeAll(parts), DELIMITER), Join(EscapeAll(parts'), DELIMITER);
    assert code == (prefix + code)[|prefix|..] == (prefix + code')[|prefix|..] == code';
    forall k | 0 <= k < |parts| ensures Encodes(EscapeAll(parts)[k], parts[k], DELIMITER) {
      EscapeEncodes(parts[k], DELIMITER);
    }
    forall k | 0 <= k < |parts'| ensures Encodes(EscapeAll(parts')[k], parts'[k], DELIMITER) {
      EscapeEncodes(parts'[k], DELIMITER);
    }
    JoinInjective(EscapeAll(parts), parts, EscapeAll(parts'), parts', DELIMITER);
    assert name == parts[0] && key == parts[1..];
  }

  /** A name and a key part without special characters stand in the lookup key as they are. */
  lemma PlainLookupKey(name: string, part: string)
    requires BACKSLASH !in name && ':' !in name && BACKSLASH !in part && ':' !in part
    ensures LookupKey(name, [part]) == "actor_by_key:" + name + ":" + part
    ensures LookupKey(name, []) == "actor_by_key:" + name
  {
    NothingToEscape(name, DELIMITER);
    NothingToEscape(part, DELIMITER);
    assert EscapeAll([part]) == [part];
  }

  /** Two per-actor keys are equal only for the same actor and the same kind of key. */
  lemma SameSuffix(id: string, suffix: string, id': string)
    requires "actor:" + id + suffix == "actor:" + id' + suffix
    ensures id == id'
  {
    var k := "actor:" + id + suffix;
    assert |id| == |id'|;
    assert id == k[6..6 + |id|] == id';
  }

  /** Strings whose suffixes differ at a place counted from the end are different. */
  lemma EndsDiffer(front: string, suffix: string, front': string, suffix': string, back: nat)
    requires 1 <= back <= |suffix| && back <= |suffix'|
    requires suffix[|suffix| - back] != suffix'[|suffix'| - back]
    ensures front + suffix != front' + suffix'
  {
    var a, b := front + suffix, front' + suffix';
    assert a[|a| - back] == suffix[|suffix| - back];
    assert b[|b| - back] == suffix'[|suffix'| - back];
  }

  /** The four per-actor keys of any two actors are different keys, except for the same key of the same actor. */
  lemma ActorKeysDisjoint(id: string, id': string)
    ensures MetadataKey(id) == MetadataKey(id') ==> id == id'
    ensures InitializedKey(id) == InitializedKey(id') ==> id == id'
    ensures LeaseNodeKey(id) == LeaseNodeKey(id') ==> id == id'
    ensures PersistedDataKey(id) == PersistedDataKey(id') ==> id == id'
    ensures MetadataKey(id) !in {InitializedKey(id'), LeaseNodeKey(id'), PersistedDataKey(id')}
    ensures InitializedKey(id) !in {LeaseNodeKey(id'), PersistedDataKey(id')}
    ensures LeaseNodeKey(id) != PersistedDataKey(id')
  {
    if MetadataKey(id) == MetadataKey(id') {
      SameSuffix(id, ":metadata", id');
    }
    if InitializedKey(id) == InitializedKey(id') {
      SameSuffix(id, ":initialized", id');
    }
    if LeaseNodeKey(id) == LeaseNodeKey(id') {
      SameSuffix(id, ":lease:node", id');
    }
    if PersistedDataKey(id) == PersistedDataKey(id') {
      SameSuffix(id, ":persisted_data", id');
    }
    var a, b := "actor:" + id, "actor:" + id';
    EndsDiffer(a, ":metadata", b, ":initialized", 1);
    EndsDiffer(a, ":metadata", b, ":lease:node", 1);
    EndsDiffer(a, ":metadata", b, ":persisted_data", 5);
    EndsDiffer(a, ":initialized", b, ":lease:node", 1);
    EndsDiffer(a, ":initialized", b, ":persisted_data", 1);
    EndsDiffer(a, ":lease:node", b, ":persisted_data", 1);
  }

  /** No lookup key is a per-actor key: they part at the sixth character. */
  lemma LookupKeyDisjoint(id: string, name: string, key: seq<string>)
    ensures LookupKey(name, key) !in
              {MetadataKey(id), InitializedKey(id), LeaseNodeKey(id), PersistedDataKey(id)}
  {
    assert LookupKey(name, key)[5] == '_';
    assert MetadataKey(id)[5] == InitializedKey(id)[5] == LeaseNodeKey(id)[5] == PersistedDataKey(id)[5] == ':';
  }

  // ---------- The registry the keyspace stands for ----------

  datatype ActorOutput = ActorOutput(actorId: string, name: string, key: seq<string>)

  /** Which actor a keyspace registers for a name and key. */
  function Registered(redis: Keyspace, name: string, key: seq<string>): Option<string> {
    var k := LookupKey(name, key);
    if k in redis && redis[k].Text? && redis[k].text != "" then Some(redis[k].text) else None
  }

  /**
   Index and metadata agree both ways: what a lookup key names has metadata with that name and key, and
   what has metadata is found under the lookup key of its name and key.
   */
  ghost predicate Agree(redis: Keyspace) {
    && (forall name, key | LookupKey(name, key) in redis ::
          Registered(redis, name, key).Some? && Describes(redis, Registered(redis, name, key).value, name, key))
    && (forall id | MetadataKey(id) in redis ::
          redis[MetadataKey(id)].Metadata? &&
          Registered(redis, redis[MetadataKey(id)].name, redis[MetadataKey(id)].key) == Some(id))
  }

  predicate Describes(redis: Keyspace, id: string, name: string, key: seq<string>) {
    && MetadataKey(id) in redis && redis[MetadataKey(id)] == Metadata(name, key)
    && InitializedKey(id) in redis && redis[InitializedKey(id)] == Text("1")
  }

  /** The identifier that `randomUUID` draws: not empty, and with no actor of that identifier in the keyspace. */
  predicate Fresh(redis: Keyspace, id: string) {
    id != "" && MetadataKey(id) !in redis
  }

  function WithActor(redis: Keyspace, id: string, name: string, key: seq<string>): Keyspace {
    redis[InitializedKey(id) := Text("1")][MetadataKey(id) := Metadata(name, key)][LookupKey(name, key) := Text(id)]
  }

  /** Creating an actor registers exactly one more pair. */
  lemma WithActorRegisters(redis: Keyspace, id: string, name: string, key: seq<string>, n: string, k: seq<string>)
    requires id != ""
    ensures Registered(WithActor(redis, id, name, key), n, k) ==
              if n == name && k == key then Some(id) else Registered(redis, n, k)
  {
    LookupKeyDisjoint(id, n, k);
    if LookupKey(n, k) == LookupKey(name, key) {
      LookupKeyInjective(n, k, name, key);
    }
  }

  lemma WithActorDescribes(redis: Keyspace, id: string, name: string, key: seq<string>,
                           i: string, n: string, k: seq<string>)
    requires Fresh(redis, id)
    ensures i == id ==> Describes(WithActor(redis, id, name, key), i, name, key)
    ensures i != id && Describes(redis, i, n, k) ==> Describes(WithActor(redis, id, name, key), i, n, k)
  {
    ActorKeysDisjoint(i, id);
    ActorKeysDisjoint(id, i);
    LookupKeyDisjoint(i, name, key);
  }

  lemma CreateKeepsAgree(redis: Keyspace, id: string, name: string, key: seq<string>)
    requires Agree(redis) && Fresh(redis, id) && Registered(redis, name, key).None?
    ensures Agree(WithActor(redis, id, name, key))
  {
    var r := WithActor(redis, id, name, key);
    forall n, k | LookupKey(n, k) in r
      ensures Registered(r, n, k).Some? && Describes(r, Registered(r, n, k).value, n, k)
    {
      WithActorRegisters(redis, id, name, key, n, k);
      LookupKeyDisjoint(id, n, k);
      if n == name && k == key {
        WithActorDescribes(redis, id, name, key, id, n, k);
      } else {
        if LookupKey(n, k) == LookupKey(name, key) {
          LookupKeyInjective(n, k, name, key);
        }
        WithActorDescribes(redis, id, name, key, Registered(redis, n, k).value, n, k);
      }
    }
    forall i | MetadataKey(i) in r
      ensures r[MetadataKey(i)].Metadata? && Registered(r, r[MetadataKey(i)].name, r[MetadataKey(i)].key) == Some(i)
    {
      ActorKeysDisjoint(i, id);
      LookupKeyDisjoint(i, name, key);
      if i == id {
        WithActorRegisters(redis, id, name, key, name, key);
      } else {
        var m := redis[MetadataKey(i)];
        assert r[MetadataKey(i)] == m;
        WithActorRegisters(redis, id, name, key, m.name, m.key);
      }
    }
  }

  /** The other drivers share the keyspace, but only under lease and state keys, which touch no registration. */
  lemma OtherWritesKeepAgree(redis: Keyspace, r: Keyspace, id: string)
    requires Agree(redis)
    requires forall k | k != LeaseNodeKey(id) && k != PersistedDataKey(id) ::
               (k in r <==> k in redis) && (k in r ==> r[k] == redis[k])
    ensures Agree(r)
    ensures forall name, key :: Registered(r, name, key) == Registered(redis, name, key)
  {
    forall name, key ensures Registered(r, name, key) == Registered(redis, name, key)
      && (LookupKey(name, key) in r <==> LookupKey(name, key) in redis)
    {
      LookupKeyDisjoint(id, name, key);
    }
    forall i ensures (MetadataKey(i) in r <==> MetadataKey(i) in redis)
      && (MetadataKey(i) in r ==> r[MetadataKey(i)] == redis[MetadataKey(i)])
      && (InitializedKey(i) in r <==> InitializedKey(i) in redis)
      && (InitializedKey(i) in r ==> r[InitializedKey(i)] == redis[InitializedKey(i)])
    {
      ActorKeysDisjoint(i, id);
    }
  }

  /** Distinct pairs never share an actor. */
  lemma RegisteredInjective(redis: Keyspace, name: string, key: seq<string>, name': string, key': seq<string>)
    requires Agree(redis) && Registered(redis, name, key).Some?
    requires Registered(redis, name, key) == Registered(redis, name', key')
    ensures name == name' && key == key'
  {
    var id := Registered(redis, name, key).value;
    assert Describes(redis, id, name, key) && Describes(redis, id, name', key');
  }

  // ---------- The driver ----------

  datatype CreateResult = Created(actor: ActorOutput) | ActorAlreadyExists(name: string, key: seq<string>)

  class RedisManager {
    var redis: Keyspace

    constructor ()
      ensures redis == map[] && Agree(redis)
    {
      redis := map[];
    }

    method GetForId(actorId: string) returns (r: Option<ActorOutput>)
      requires Agree(redis)
      ensures forall name, key ::
                r == Some(ActorOutput(actorId, name, key)) <==> Registered(redis, name, key) == Some(actorId)
      ensures r.Some? ==> r.value.actorId == actorId
    {
      forall name, key | Registered(redis, name, key) == Some(actorId)
        ensures MetadataKey(actorId) in redis && redis[MetadataKey(actorId)] == Metadata(name, key)
      {
        assert Describes(redis, actorId, name, key);
      }
      if MetadataKey(actorId) !in redis {
        return None;
      }
      var metadata := redis[MetadataKey(actorId)];
      return Some(ActorOutput(actorId, metadata.name, metadata.key));
    }

    method GetWithKey(name: string, key: seq<string>) returns (r: Option<ActorOutput>)
      requires Agree(redis)
      ensures r == if Registered(redis, name, key).Some?
                   then Some(ActorOutput(Registered(redis, name, key).value, name, key)) else None
    {
      var lookupKey := LookupKey(name, key);
      if lookupKey !in redis {
        return None;
      }
      assert Registered(redis, name, key).Some?;
      r := GetForId(redis[lookupKey].text);
    }

    method CreateActor(name: string, key: seq<string>, uuid: string) returns (r: CreateResult)
      requires Agree(redis) && Fresh(redis, uuid)
      modifies this
      ensures Agree(redis)
      ensures r == if old(Registered(redis, name, key)).Some? then ActorAlreadyExists(name, key)
                   else Created(ActorOutput(uuid, name, key))
      ensures r.ActorAlreadyExists? ==> redis == old(redis)
      ensures r.Created? ==>
                redis == old(redis)["actor:" + uuid + ":initialized" := Text("1")]
                                   ["actor:" + uuid + ":metadata" := Metadata(name, key)]
                                   [LookupKey(name, key) := Text(uuid)]
      ensures r.Created? ==> forall n, k ::
                Registered(redis, n, k) == if n == name && k == key then Some(uuid) else old(Registered(redis, n, k))
    {
      var existingActor := GetWithKey(name, key);
      if existingActor.Some? {
        return ActorAlreadyExists(name, key);
      }
      CreateKeepsAgree(redis, uuid, name, key);
      forall n, k ensures Registered(WithActor(redis, uuid, name, key), n, k) ==
        if n == name && k == key then Some(uuid) else Registered(redis, n, k)
      {
        WithActorRegisters(redis, uuid, name, key, n, k);
      }
      redis := redis[InitializedKey(uuid) := Text("1")];
      redis := redis[MetadataKey(uuid) := Metadata(name, key)];
      redis := redis[LookupKey(name, key) := Text(uuid)];
      return Created(ActorOutput(uuid, name, key));
    }

    /** Idempotent: a registered pair is returned and nothing changes, so a second call repeats the first answer. */
    method GetOrCreateWithKey(name: string, key: seq<string>, uuid: string) returns (r: ActorOutput)
      requires Agree(redis) && Fresh(redis, uuid)
      modifies this
      ensures Agree(redis)
      ensures Registered(redis, name, key) == Some(r.actorId) && r.name == name && r.key == key
      ensures old(Registered(redis, name, key)).Some? ==>
                redis == old(redis) && old(Registered(redis, name, key)) == Some(r.actorId)
      ensures old(Registered(redis, name, key)).None? ==> r.actorId == uuid
      ensures forall n, k :: n != name || k != key ==> Registered(redis, n, k) == old(Registered(redis, n, k))
    {
      var getOutput := GetWithKey(name, key);
      if getOutput.Some? {
        return getOutput.value;
      }
      var created := CreateActor(name, key, uuid);
      return created.actor;
    }
  }

  // ---------- Runs ----------

  datatype Step =
    | Create(name: string, key: seq<string>, uuid: string)
    | WriteState(id: string, data: string)
    | WriteLease(id: string, node: string)
    | DropLease(id: string)

  predicate Enabled(redis: Keyspace, step: Step) {
    step.Create? ==> Fresh(redis, step.uuid)
  }

  function Next(redis: Keyspace, step: Step): Keyspace {
    match step
    case Create(name, key, uuid) =>
      if Registered(redis, name, key).Some? then redis else WithActor(redis, uuid, name, key)
    case WriteState(id, data) => redis[PersistedDataKey(id) := Text(data)]
    case WriteLease(id, node) => redis[LeaseNodeKey(id) := Text(node)]
    case DropLease(id) => redis - {LeaseNodeKey(id)}
  }

  /** The map that the keyspace refines: a creation adds its pair unless it is there, nothing else changes it. */
  function RegistryAfter(steps: seq<Step>): map<(string, seq<string>), string> {
    if steps == [] then map[]
    else
      var before := RegistryAfter(steps[..|steps| - 1]);
      match steps[|steps| - 1]
      case Create(name, key, uuid) => if (name, key) in before then before else before[(name, key) := uuid]
      case _ => before
  }

  ghost predicate IsRun(states: seq<Keyspace>, steps: seq<Step>) {
    && |states| == |steps| + 1
    && states[0] == map[]
    && forall i | 0 <= i < |steps| :: Enabled(states[i], steps[i]) && states[i + 1] == Next(states[i], steps[i])
  }

  lemma NextKeepsAgree(redis: Keyspace, step: Step)
    requires Agree(redis) && Enabled(redis, step)
    ensures Agree(Next(redis, step))
    ensures forall n, k :: Registered(Next(redis, step), n, k) ==
              if step.Create? && n == step.name && k == step.key && Registered(redis, n, k).None?
              then Some(step.uuid) else Registered(redis, n, k)
  {
    match step {
      case Create(name, key, uuid) =>
        if Registered(redis, name, key).None? {
          CreateKeepsAgree(redis, uuid, name, key);
          forall n, k ensures Registered(Next(redis, step), n, k) ==
            if n == name && k == key then Some(uuid) else Registered(redis, n, k)
          {
            WithActorRegisters(redis, uuid, name, key, n, k);
          }
        }
      case WriteState(id, _) => OtherWritesKeepAgree(redis, Next(redis, step), id);
      case WriteLease(id, _) => OtherWritesKeepAgree(redis, Next(redis, step), id);
      case DropLease(id) => OtherWritesKeepAgree(redis, Next(redis, step), id);
    }
  }

  /** After any run the flat keyspace answers every lookup as the map from pairs to identifiers does. */
  lemma {:induction false} KeyspaceRefinesRegistry(states: seq<Keyspace>, steps: seq<Step>)
    requires IsRun(states, steps)
    ensures Agree(states[|steps|])
    ensures forall n, k :: Registered(states[|steps|], n, k) ==
              if (n, k) in RegistryAfter(steps) then Some(RegistryAfter(steps)[(n, k)]) else None
    decreases |steps|
  {
    if steps != [] {
      var n := |steps| - 1;
      KeyspaceRefinesRegistry(states[..n + 1], steps[..n]);
      NextKeepsAgree(states[n], steps[n]);
    }
  }

  // ---------- State and leases beside the registry ----------

  function TextAt(redis: Keyspace, k: string): Option<string> {
    if k in redis && redis[k].Text? then Some(redis[k].text) else None
  }

  /** The state last written for an actor, and the node last written into its lease and not dropped since. */
  function StateBy(steps: seq<Step>, id: string): Option<string> {
    if steps == [] then None
    else
      match steps[|steps| - 1]
      case WriteState(i, data) => if i == id then Some(data) else StateBy(steps[..|steps| - 1], id)
      case _ => StateBy(steps[..|steps| - 1], id)
  }

  function LeaseBy(steps: seq<Step>, id: string): Option<string> {
    if steps == [] then None
    else
      match steps[|steps| - 1]
      case WriteLease(i, node) => if i == id then Some(node) else LeaseBy(steps[..|steps| - 1], id)
      case DropLease(i) => if i == id then None else LeaseBy(steps[..|steps| - 1], id)
      case _ => LeaseBy(steps[..|steps| - 1], id)
  }

  lemma NextStores(redis: Keyspace, step: Step, id: string)
    ensures TextAt(Next(redis, step), PersistedDataKey(id)) ==
              if step.WriteState? && step.id == id then Some(step.data) else TextAt(redis, PersistedDataKey(id))
    ensures TextAt(Next(redis, step), LeaseNodeKey(id)) ==
              if step.WriteLease? && step.id == id then Some(step.node)
              else if step.DropLease? && step.id == id then None else TextAt(redis, LeaseNodeKey(id))
  {
    match step {
      case Create(name, key, uuid) =>
        ActorKeysDisjoint(uuid, id);
        LookupKeyDisjoint(id, name, key);
      case WriteState(i, _) =>
        ActorKeysDisjoint(i, id);
        ActorKeysDisjoint(id, i);
      case WriteLease(i, _) =>
        ActorKeysDisjoint(i, id);
        ActorKeysDisjoint(id, i);
      case DropLease(i) =>
        ActorKeysDisjoint(i, id);
        ActorKeysDisjoint(id, i);
    }
  }

  /** After any run every actor's state and lease are what was last written for it, whatever was written for others. */
  lemma {:induction false} KeyspaceKeepsStateAndLease(states: seq<Keyspace>, steps: seq<Step>, n: nat, id: string)
    requires IsRun(states, steps) && n < |states|
    ensures TextAt(states[n], PersistedDataKey(id)) == StateBy(steps[..n], id)
    ensures TextAt(states[n], LeaseNodeKey(id)) == LeaseBy(steps[..n], id)
  {
    if n > 0 {
      assert steps[..n][..n - 1] == steps[..n - 1];
      KeyspaceKeepsStateAndLease(states, steps, n - 1, id);
      NextStores(states[n - 1], steps[n - 1], id);
    }
  }
}
