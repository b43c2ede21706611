/** One shard at one group, and what a group does with each operation. */
module ShardTypes {
  import opened KvStore

  const NSHARDS: nat := 12
  const GID1: nat := 1

  /** highest is the number of the latest configuration that touched the shard here. */
  datatype ShardState = ShardState(highest: nat, frozen: bool, owned: bool, store: Store)

  datatype ShardOp =
    | Client(req: Request)
    | Freeze(shard: nat, num: nat)
    | Install(shard: nat, num: nat, state: Option<Store>)
    | Delete(shard: nat, num: nat)

  datatype ShardReply =
    | ClientReply(reply: Reply)
    | FreezeReply(err: Err, num: nat, state: Option<Store>)
    | InstallReply(err: Err)
    | DeleteReply(err: Err)

  /** The hash function is arbitrary. */
  function KeyShard(hash: string -> nat, key: string): nat {
    hash(key) % NSHARDS
  }

  function OpShard(hash: string -> nat, op: ShardOp): nat {
    if op.Client? then KeyShard(hash, op.req.key) else op.shard
  }

  function Refused(req: Request, err: Err): Reply {
    if req.Get? then GetReply("", 0, err) else PutReply(err)
  }

  /** A group's answer that the single map would give, rather than a refusal. */
  predicate Definite(reply: Reply) {
    reply.err in {OK, ErrNoKey, ErrVersion}
  }

  // ---------------------------------------------------------------- the operations on one shard

  function OnClient(st: ShardState, req: Request): (ShardState, Reply) {
    if st.frozen then (st, Refused(req, ErrFrozen))
    else if !st.owned then (st, Refused(req, ErrWrongGroup))
    else (st.(store := Apply(st.store, req)), Answer(st.store, req))
  }

  function OnFreeze(st: ShardState, num: nat): (ShardState, ShardReply) {
    if num < st.highest then (st, FreezeReply(ErrStale, 0, None))
    else if !st.owned then
      if num == st.highest then (st, FreezeReply(OK, st.highest, None)) else (st, FreezeReply(ErrStale, st.highest, None))
    else (st.(highest := num, frozen := true), FreezeReply(OK, num, Some(st.store)))
  }

  /** Nothing is decoded from a nil state, which leaves the store as it was. */
  function OnInstall(st: ShardState, num: nat, state: Option<Store>): (ShardState, ShardReply) {
    if num < st.highest then (st, InstallReply(ErrStale))
    else if num == st.highest && st.owned then (st, InstallReply(OK))
    else (ShardState(num, false, true, if state.Some? then state.value else st.store), InstallReply(OK))
  }

  function OnDelete(st: ShardState, num: nat): (ShardState, ShardReply) {
    if num < st.highest then (st, DeleteReply(ErrStale))
    else if num == st.highest && !st.owned then (st, DeleteReply(OK))
    else (st.(highest := num, owned := false, store := map[]), DeleteReply(OK))
  }

  function OnShard(st: ShardState, op: ShardOp): (ShardState, ShardReply) {
    match op
    case Client(req) => var (st', reply) := OnClient(st, req); (st', ClientReply(reply))
    case Freeze(_, num) => OnFreeze(st, num)
    case Install(_, num, state) => OnInstall(st, num, state)
    case Delete(_, num) => OnDelete(st, num)
  }

  /** A group that starts: the first group owns every shard. */
  function Started(gid: nat): seq<ShardState> {
    seq(NSHARDS, _ => ShardState(0, false, gid == GID1, map[]))
  }

  // ---------------------------------------------------------------- the part of a map that is in a shard

  function Part(hash: string -> nat, abs: Store, x: nat): Store {
    map k | k in abs && KeyShard(hash, k) == x :: abs[k]
  }

  /** A request meets the same record in its shard as in the whole map, and touches no other shard. */
  lemma PartApply(hash: string -> nat, abs: Store, req: Request, x: nat)
    ensures x == KeyShard(hash, req.key) ==>
              Answer(Part(hash, abs, x), req) == Answer(abs, req) && Apply(Part(hash, abs, x), req) == Part(hash, Apply(abs, req), x)
    ensures x != KeyShard(hash, req.key) ==> Part(hash, Apply(abs, req), x) == Part(hash, abs, x)
  {
  }
}
