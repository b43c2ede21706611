/** The server of a shard group, as the object it is. */
module ShardGroup {
  import opened KvStore
  import opened ShardTypes
  import R = ShardRules

  class KVServer {
    const gid: nat
    const hash: string -> nat
    var highestConfig: map<nat, nat>
    const frozen: array<bool>
    const owned: array<bool>
    const valueStore: array<Store>

    ghost predicate Valid()
      reads this
    {
      && frozen.Length == owned.Length == valueStore.Length == NSHARDS && frozen != owned
      && forall x: nat :: x < NSHARDS ==> x in highestConfig
    }

    ghost function ShardAt(x: nat): ShardState
      requires Valid() && x < NSHARDS
      reads this, frozen, owned, valueStore
    {
      ShardState(highestConfig[x], frozen[x], owned[x], valueStore[x])
    }

    ghost function State(): (s: seq<ShardState>)
      requires Valid()
      reads this, frozen, owned, valueStore
      ensures |s| == NSHARDS && forall x: nat :: x < NSHARDS ==> s[x] == ShardAt(x)
    {
      seq(NSHARDS, (x: nat) requires x < NSHARDS && Valid() reads this, frozen, owned, valueStore => ShardAt(x))
    }

    constructor (gid: nat, hash: string -> nat)
      ensures Valid() && this.gid == gid && this.hash == hash && State() == Started(gid)
      ensures fresh(frozen) && fresh(owned) && fresh(valueStore)
    {
      this.gid, this.hash := gid, hash;
      frozen := new bool[NSHARDS](_ => false);
      owned := new bool[NSHARDS](_ => gid == GID1);
      valueStore := new Store[NSHARDS](_ => map[]);
      highestConfig := map[];
      new;
      var i := 0;
      while i < NSHARDS
        invariant 0 <= i <= NSHARDS
        invariant forall x: nat :: x < i ==> x in highestConfig && highestConfig[x] == 0
        modifies this`highestConfig
      {
        highestConfig := highestConfig[i := 0];
        i := i + 1;
      }
    }

    method DoOp(op: ShardOp) returns (reply: ShardReply)
      requires Valid() && OpShard(hash, op) < NSHARDS
      modifies this, frozen, owned, valueStore
      ensures Valid()
      ensures var x := OpShard(hash, op);
              var (st, r) := OnShard(old(State()[x]), op);
              reply == r && State() == old(State())[x := st]
    {
      match op
      case Client(req) =>
        var r := DoClient(req);
        reply := ClientReply(r);
      case Freeze(shard, num) => reply := DoFreeze(shard, num);
      case Install(shard, num, state) => reply := DoInstall(shard, num, state);
      case Delete(shard, num) => reply := DoDelete(shard, num);
    }

    method DoClient(req: Request) returns (reply: Reply)
      requires Valid()
      modifies valueStore
      ensures Valid()
      ensures var x := KeyShard(hash, req.key);
              var (st, r) := OnClient(old(State()[x]), req);
              reply == r && State() == old(State())[x := st] && R.ClientRule(old(State()[x]), req, State()[x], reply)
    {
      var shard := KeyShard(hash, req.key);
      if frozen[shard] {
        return Refused(req, ErrFrozen);
      }
      if !owned[shard] {
        return Refused(req, ErrWrongGroup);
      }
      match req
      case Get(key) =>
        if key in valueStore[shard] {
          var record := valueStore[shard][key];
          reply := GetReply(record.value, record.version, OK);
        } else {
          reply := GetReply("", 0, ErrNoKey);
        }
      case Put(key, value, version) =>
        if key in valueStore[shard] {
          var record := valueStore[shard][key];
          if version == record.version {
            valueStore[shard] := valueStore[shard][key := Record(record.version + 1, value)];
            reply := PutReply(OK);
          } else {
            reply := PutReply(ErrVersion);
          }
        } else if version == 0 {
          valueStore[shard] := valueStore[shard][key := Record(1, value)];
          reply := PutReply(OK);
        } else {
          reply := PutReply(ErrNoKey);
        }
    }

    method DoFreeze(shard: nat, num: nat) returns (reply: ShardReply)
      requires Valid() && shard < NSHARDS
      modifies this, frozen
      ensures Valid()
      ensures var (st, r) := OnFreeze(old(State()[shard]), num); reply == r && State() == old(State())[shard := st]
      ensures R.FreezeRule(old(State()[shard]), num, State()[shard], reply)
    {
      if num < highestConfig[shard] {
        return FreezeReply(ErrStale, 0, None);
      }
      if !owned[shard] {
        if num == highestConfig[shard] {
          return FreezeReply(OK, highestConfig[shard], None);
        }
        return FreezeReply(ErrStale, highestConfig[shard], None);
      }
      if num > highestConfig[shard] {
        highestConfig := highestConfig[shard := num];
      }
      if !frozen[shard] {
        frozen[shard] := true;
      }
      var state := SnapshotShard(shard);
      reply := FreezeReply(OK, highestConfig[shard], Some(state));
    }

    method DoInstall(shard: nat, num: nat, state: Option<Store>) returns (reply: ShardReply)
      requires Valid() && shard < NSHARDS
      modifies this, frozen, owned, valueStore
      ensures Valid()
      ensures var (st, r) := OnInstall(old(State()[shard]), num, state); reply == r && State() == old(State())[shard := st]
      ensures R.InstallRule(old(State()[shard]), num, state, State()[shard], reply)
    {
      if num < highestConfig[shard] {
        return InstallReply(ErrStale);
      }
      if num == highestConfig[shard] && owned[shard] {
        return InstallReply(OK);
      }
      highestConfig := highestConfig[shard := num];
      RestoreShard(shard, state);
      owned[shard] := true;
      frozen[shard] := false;
      reply := InstallReply(OK);
    }

    method DoDelete(shard: nat, num: nat) returns (reply: ShardReply)
      requires Valid() && shard < NSHARDS
      modifies this, owned, valueStore
      ensures Valid()
      ensures var (st, r) := OnDelete(old(State()[shard]), num); reply == r && State() == old(State())[shard := st]
      ensures R.DeleteRule(old(State()[shard]), num, State()[shard], reply)
    {
      if num < highestConfig[shard] {
        return DeleteReply(ErrStale);
      }
      if num == highestConfig[shard] && !owned[shard] {
        return DeleteReply(OK);
      }
      if num > highestConfig[shard] {
        highestConfig := highestConfig[shard := num];
      }
      owned[shard] := false;
      valueStore[shard] := map[];
      reply := DeleteReply(OK);
    }

    method SnapshotShard(shard: nat) returns (data: Store)
      requires Valid() && shard < NSHARDS
      ensures data == valueStore[shard]
    {
      data := valueStore[shard];
    }

    method RestoreShard(shard: nat, data: Option<Store>)
      requires Valid() && shard < NSHARDS
      modifies valueStore
      ensures valueStore[..] == old(valueStore[..])[shard := if data.Some? then data.value else old(valueStore[shard])]
    {
      if data.Some? {
        valueStore[shard] := data.value;
      }
    }

    /** What the replicated log's snapshots hold: every table of the group. */
    method Snapshot() returns (data: seq<ShardState>)
      requires Valid()
      ensures data == State()
    {
      data := seq(NSHARDS, (x: nat) requires x < NSHARDS && Valid() reads this, frozen, owned, valueStore =>
        ShardState(highestConfig[x], frozen[x], owned[x], valueStore[x]));
    }

    method Restore(data: seq<ShardState>)
      requires Valid() && |data| == NSHARDS
      modifies this, frozen, owned, valueStore
      ensures Valid() && State() == data
    {
      var x := 0;
      while x < NSHARDS
        invariant 0 <= x <= NSHARDS && Valid()
        invariant forall y: nat :: y < x ==> ShardAt(y) == data[y]
      {
        valueStore[x], frozen[x], owned[x] := data[x].store, data[x].frozen, data[x].owned;
        highestConfig := highestConfig[x := data[x].highest];
        x := x + 1;
      }
    }
  }
}
