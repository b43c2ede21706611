/** The state machine that a replica runs: the key/value server, or the server of a shard group. */
module Machines {
  import opened KvStore
  import opened KvServers
  import opened ShardTypes
  import opened Services
  import ShardGroup

  /** One of the two servers; the other is null. */
  class StateMachine {
    const kv: KVServer?
    const group: ShardGroup.KVServer?

    ghost predicate Valid()
      reads Repr()
    {
      (kv == null) != (group == null) && (group != null ==> group.Valid())
    }

    /** Everything the machine owns. */
    ghost function Repr(): set<object> {
      (if kv != null then {kv} else {}) + (if group != null then {group, group.frozen, group.owned, group.valueStore} else {})
    }

    /** The service it implements. */
    ghost function Kind(): Service
      requires kv != null || group != null
    {
      if kv != null then KvService() else GroupService(group.gid, group.hash)
    }

    ghost function Contents(): Data
      requires Valid()
      reads Repr()
    {
      if kv != null then Flat(kv.valueStore) else Group(group.State())
    }

    constructor OfKv(kv: KVServer)
      ensures Valid() && this.kv == kv && this.group == null
    {
      this.kv, this.group := kv, null;
    }

    constructor OfGroup(group: ShardGroup.KVServer)
      requires group.Valid()
      ensures Valid() && this.group == group && this.kv == null
    {
      this.kv, this.group := null, group;
    }

    method DoOp(command: Command) returns (result: Result)
      requires Valid() && (group != null ==> OpShard(group.hash, command) < NSHARDS)
      modifies Repr()
      ensures Valid() && Contents() == Kind().apply(old(Contents()), command)
      ensures result == Kind().answer(old(Contents()), command)
    {
      if kv != null {
        result := kv.DoOp(command);
      } else {
        var reply := group.DoOp(command);
        result := Gave(reply);
      }
    }

    method Snapshot() returns (data: Data)
      requires Valid()
      ensures data == Contents()
    {
      if kv != null {
        var store := kv.Snapshot();
        data := Flat(store);
      } else {
        var shards := group.Snapshot();
        data := Group(shards);
      }
    }

    /** Nothing is decoded from an empty snapshot. */
    method Restore(data: Option<Data>)
      requires Valid() && (data.Some? ==> Fits(Kind(), data.value))
      modifies Repr()
      ensures Valid() && Contents() == if data.Some? then data.value else old(Contents())
    {
      if data.None? {
        return;
      }
      if kv != null {
        kv.Restore(Some(data.value.store));
      } else {
        group.Restore(data.value.shards);
      }
    }
  }
}
