/** Deterministic services that can be replicated: a state, the commands it takes, and what it answers. */
module Services {
  import opened KvStore
  import opened ShardTypes

  /** What a service holds, and what its snapshots carry: one map, or the shards of a group. */
  datatype Data = Flat(store: Store) | Group(shards: seq<ShardState>)

  /** Client requests, and the migration requests that only shard groups know. */
  type Command = ShardOp

  /** Nil is the answer to a command the service does not know. */
  datatype Result = Nil | Gave(reply: ShardReply)

  /** Any service over these types: where it starts, how a command changes it, and what the command is answered. */
  datatype Service = Service(initial: Data, apply: (Data, Command) -> Data, answer: (Data, Command) -> Result)

  // ---------------------------------------------------------------- the key/value server

  function KvApply(data: Data, command: Command): Data {
    if data.Flat? && command.Client? then Flat(Apply(data.store, command.req)) else data
  }

  function KvAnswer(data: Data, command: Command): Result {
    if data.Flat? && command.Client? then Gave(ClientReply(Answer(data.store, command.req))) else Nil
  }

  /** The replicated key/value server. */
  function KvService(): Service {
    Service(Flat(map[]), KvApply, KvAnswer)
  }

  // ---------------------------------------------------------------- the server of a shard group

  function GroupDo(hash: string -> nat, data: Data, command: Command): (Data, Result) {
    var x := OpShard(hash, command);
    if data.Group? && x < |data.shards| then
      var (st, reply) := OnShard(data.shards[x], command);
      (Group(data.shards[x := st]), Gave(reply))
    else (data, Nil)
  }

  /** The server of group gid. */
  function GroupService(gid: nat, hash: string -> nat): Service {
    Service(Group(Started(gid)), (data, command) => GroupDo(hash, data, command).0, (data, command) => GroupDo(hash, data, command).1)
  }

  // ---------------------------------------------------------------- what a service's own data looks like

  /** Data of the service's kind: one map, or as many shards as there are. */
  predicate Fits(v: Service, data: Data) {
    match v.initial
    case Flat(_) => data.Flat?
    case Group(shards) => data.Group? && |data.shards| == |shards|
  }

  /** Both servers only ever hold data of their own kind. */
  ghost predicate KeepsKind(v: Service) {
    forall data, command {:trigger v.apply(data, command)} :: Fits(v, data) ==> Fits(v, v.apply(data, command))
  }

  lemma ServersKeepKind(gid: nat, hash: string -> nat)
    ensures KeepsKind(KvService()) && KeepsKind(GroupService(gid, hash))
  {
  }
}
