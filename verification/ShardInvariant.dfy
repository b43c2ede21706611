/** What every reachable migration state keeps, shard by shard. */
module ShardInvariant {
  import opened KvStore
  import opened KvHistory
  import opened ShardTypes
  import opened ShardSystem

  /** The group answers clients, from this store. */
  predicate Serving(st: ShardState, store: Store) {
    st.owned && !st.frozen && st.store == store
  }

  predicate Idle(st: ShardState, cur: nat) {
    !st.owned && st.highest <= cur
  }

  /**
   A shard on its way from one group to another: not yet frozen; frozen and held by the old group alone; installed at
   the new group, whose store counts from then on; deleted at the old one.
   */
  predicate Moves(src: ShardState, dst: ShardState, cur: nat, next: nat, store: Store) {
    || (Serving(src, store) && src.highest <= cur && Idle(dst, cur))
    || (src.owned && src.frozen && src.highest == next && src.store == store && Idle(dst, cur))
    || (src.highest == next && (src.owned ==> src.frozen) && Serving(dst, store) && dst.highest == next)
  }

  /** A finished target can no longer make its old group freeze or delete anything. */
  predicate Retired(st: ShardState, num: nat) {
    st.highest > num || (st.highest == num && !st.owned)
  }

  /** A finished target can no longer make its new group install anything. */
  predicate Settled(st: ShardState, num: nat) {
    st.highest > num || (st.highest == num && st.owned)
  }

  function Last(s: System): nat
    requires |s.configs| >= 1
  {
    |s.configs| - 1
  }

  /** Every configuration is usable, numbers rise, and at most one target is unpublished. */
  ghost predicate ConfigsOk(s: System) {
    && Shaped(s) && s.published + 1 >= Last(s)
    && (forall i, x {:trigger s.configs[i].owner[x]} :: 0 <= i < |s.configs| && 0 <= x < NSHARDS ==> s.configs[i].owner[x] in s.groups)
    && (forall i, j {:trigger s.configs[i], s.configs[j]} :: 0 <= i < j < |s.configs| ==> s.configs[i].num < s.configs[j].num)
  }

  function At(s: System, g: nat, x: nat): ShardState
    requires g in s.groups && x < |s.groups[g]|
  {
    s.groups[g][x]
  }

  /** Who holds the shard, and what is in it. */
  ghost predicate ShardOk(s: System, x: nat, store: Store)
    requires ConfigsOk(s) && x < NSHARDS
  {
    var src, dst := Owner(s, s.published, x), Owner(s, Last(s), x);
    && (if src == dst then Serving(At(s, src, x), store) && At(s, src, x).highest <= Num(s, s.published)
        else Moves(At(s, src, x), At(s, dst, x), Num(s, s.published), Num(s, Last(s)), store))
    && (forall g {:trigger At(s, g, x)} :: g in s.groups && g != src && g != dst ==> Idle(At(s, g, x), Num(s, s.published)))
    && (forall g {:trigger At(s, g, x)} :: g in s.groups ==> At(s, g, x).owned || At(s, g, x).store == map[])
  }

  /** Target j is over for shard x. */
  ghost predicate Over(s: System, x: nat, j: nat)
    requires ConfigsOk(s) && x < NSHARDS && 1 <= j < |s.configs|
  {
    Owner(s, j - 1, x) != Owner(s, j, x) ==>
      Retired(At(s, Owner(s, j - 1, x), x), Num(s, j)) && Settled(At(s, Owner(s, j, x), x), Num(s, j))
  }

  ghost predicate AllOver(s: System, x: nat)
    requires ConfigsOk(s) && x < NSHARDS
  {
    forall j: nat {:trigger Over(s, x, j)} :: 1 <= j <= s.published ==> Over(s, x, j)
  }

  /** The shard moves at target j. */
  ghost predicate MovesAt(s: System, x: nat, j: nat)
    requires ConfigsOk(s) && x < NSHARDS
  {
    1 <= j < |s.configs| && Owner(s, j - 1, x) != Owner(s, j, x)
  }

  function OldState(s: System, x: nat, j: nat): ShardState
    requires 1 <= j < |s.configs| && x < |s.configs[j - 1].owner|
    requires Owner(s, j - 1, x) in s.groups && x < |s.groups[Owner(s, j - 1, x)]|
  {
    At(s, Owner(s, j - 1, x), x)
  }

  function NewState(s: System, x: nat, j: nat): ShardState
    requires j < |s.configs| && x < |s.configs[j].owner|
    requires Owner(s, j, x) in s.groups && x < |s.groups[Owner(s, j, x)]|
  {
    At(s, Owner(s, j, x), x)
  }

  /** The old group is frozen for target j, and while the new group lacks the shard, this is its state. */
  ghost predicate HasState(s: System, x: nat, j: nat, store: Store, state: Option<Store>)
    requires ConfigsOk(s) && x < NSHARDS && MovesAt(s, x, j)
  {
    j > s.published ==> OldState(s, x, j).highest == Num(s, j) && (NewState(s, x, j).owned || state == Some(store))
  }

  ghost predicate CallOk(s: System, x: nat, store: Store, to: nat, j: nat, op: ShardOp)
    requires ConfigsOk(s) && x < NSHARDS
  {
    && MovesAt(s, x, j) && !op.Client? && op.num == Num(s, j)
    && match op
       case Freeze(_, _) => to == Owner(s, j - 1, x)
       case Install(_, _, state) => to == Owner(s, j, x) && HasState(s, x, j, store, state)
       case Delete(_, _) => to == Owner(s, j - 1, x) && (j > s.published ==> NewState(s, x, j).owned)
  }

  ghost predicate DoneOk(s: System, x: nat, store: Store, j: nat, op: ShardOp, reply: ShardReply)
    requires ConfigsOk(s) && x < NSHARDS && MovesAt(s, x, j)
  {
    match reply
    case ClientReply(_) => false
    case FreezeReply(err, _, state) =>
      op.Freeze? && (err == OK ==> HasState(s, x, j, store, state)) && (err != OK ==> j <= s.published)
    case InstallReply(err) =>
      op.Install? && (err == OK && j > s.published ==> NewState(s, x, j).owned) && (err != OK ==> j <= s.published)
    case DeleteReply(err) =>
      && op.Delete? && (err == OK && j > s.published ==> NewState(s, x, j).owned && !OldState(s, x, j).owned)
      && (err != OK ==> j <= s.published)
  }

  /** What a packet about shard x promises. Only a published target's requests are ever refused. */
  ghost predicate PacketOk(s: System, x: nat, store: Store, p: Packet)
    requires ConfigsOk(s) && x < NSHARDS
  {
    match p
    case Call(to, j, op) => OpShard(s.hash, op) == x ==> CallOk(s, x, store, to, j, op)
    case Done(from, j, op, reply) =>
      OpShard(s.hash, op) == x ==> CallOk(s, x, store, from, j, op) && DoneOk(s, x, store, j, op, reply)
    case Plan(_, _) => true
    case PublishCall(_, _) => true
    case PublishDone(_, _) => true
  }

  /** Controllers plan from the configuration right before their target; publish requests are made once all is done. */
  ghost predicate PlanOk(s: System, p: Packet)
    requires ConfigsOk(s)
  {
    match p
    case Plan(j, i) => j == i + 1 && j < |s.configs|
    case PublishCall(j, version) =>
      && j < |s.configs| && AllDone(s, j) && version <= s.version
      && (version == s.version ==> Num(s, s.published) < Num(s, j))
    case PublishDone(j, _) => j <= s.published
    case _ => true
  }

  /** Everything about one shard. */
  ghost predicate ShardInv(s: System, x: nat, store: Store)
    requires ConfigsOk(s) && x < NSHARDS
  {
    && ShardOk(s, x, store) && AllOver(s, x)
    && (forall p {:trigger PacketOk(s, x, store, p)} :: p in s.net ==> PacketOk(s, x, store, p))
  }

  ghost predicate Inv(s: System, abs: Store) {
    && ConfigsOk(s)
    && (forall p {:trigger PlanOk(s, p)} :: p in s.net ==> PlanOk(s, p))
    && (forall x: nat {:trigger ShardInv(s, x, Part(s.hash, abs, x))} :: x < NSHARDS ==> ShardInv(s, x, Part(s.hash, abs, x)))
    && abs == Run(map[], Requests(s.history)) && Explained(s.history)
  }
}
