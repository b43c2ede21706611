/** What a group does with each request, said without the functions that do it, and what repeating a request does. */
module ShardRules {
  import opened KvStore
  import opened ShardTypes

  function ErrOf(reply: ShardReply): Err {
    match reply
    case ClientReply(r) => r.err
    case FreezeReply(err, _, _) => err
    case InstallReply(err) => err
    case DeleteReply(err) => err
  }

  /** A frozen shard refuses first, then a foreign one; any other serves the versioned map. */
  predicate ClientRule(st: ShardState, req: Request, st': ShardState, reply: Reply) {
    && (reply.err == ErrFrozen <==> st.frozen) && (reply.err == ErrWrongGroup <==> !st.frozen && !st.owned)
    && (if st.owned && !st.frozen then reply == Answer(st.store, req) && st' == st.(store := Apply(st.store, req)) else st' == st)
  }

  /** OK unless the number is too low, or the shard is gone for a lower number; the state comes along while the shard is here. */
  predicate FreezeRule(st: ShardState, num: nat, st': ShardState, reply: ShardReply) {
    && reply.FreezeReply?
    && reply.err == (if num >= st.highest && (st.owned || num == st.highest) then OK else ErrStale)
    && reply.state == (if reply.err == OK && st.owned then Some(st.store) else None)
    && reply.num == (if reply.err == OK then num else if num < st.highest then 0 else st.highest)
    && st' == if reply.err == OK && st.owned then ShardState(num, true, true, st.store) else st
  }

  /** OK unless the number is too low; the shard is taken, and served, unless it was here for that number already. */
  predicate InstallRule(st: ShardState, num: nat, state: Option<Store>, st': ShardState, reply: ShardReply) {
    && reply == InstallReply(if num >= st.highest then OK else ErrStale)
    && st' == if num > st.highest || (num == st.highest && !st.owned)
              then ShardState(num, false, true, if state.Some? then state.value else st.store) else st
  }

  /** OK unless the number is too low; the shard is gone then, with all that was in it. */
  predicate DeleteRule(st: ShardState, num: nat, st': ShardState, reply: ShardReply) {
    && reply == DeleteReply(if num >= st.highest then OK else ErrStale)
    && st' == if num > st.highest || (num == st.highest && st.owned) then ShardState(num, st.frozen, false, map[]) else st
  }

  lemma ByRule(st: ShardState, op: ShardOp)
    ensures var (st', reply) := OnShard(st, op);
            match op
            case Client(req) => reply.ClientReply? && ClientRule(st, req, st', reply.reply)
            case Freeze(_, num) => FreezeRule(st, num, st', reply)
            case Install(_, num, state) => InstallRule(st, num, state, st', reply)
            case Delete(_, num) => DeleteRule(st, num, st', reply)
  {
  }

  /** A migration request that was answered OK is answered just so again, and changes nothing more. */
  lemma RepeatedIsAnsweredAlike(st: ShardState, op: ShardOp)
    requires !op.Client? && ErrOf(OnShard(st, op).1) == OK
    ensures OnShard(OnShard(st, op).0, op) == OnShard(st, op)
  {
  }

  /** So is any of the three that an earlier round of the same configuration was through with, by a controller that starts over. */
  lemma StartingOverIsAnswered(st: ShardState, x: nat, num: nat, state: Option<Store>)
    requires num >= st.highest
    ensures var gone := OnShard(st, Delete(x, num)).0;
            && OnShard(gone, Freeze(x, num)) == (gone, FreezeReply(OK, num, None))
            && OnShard(gone, Delete(x, num)) == (gone, DeleteReply(OK))
    ensures var here := OnShard(st, Install(x, num, state)).0;
            && forall again :: OnShard(here, Install(x, num, again)) == (here, InstallReply(OK))
    ensures st.owned ==>
              var still := OnShard(st, Freeze(x, num)).0;
              OnShard(still, Freeze(x, num)) == (still, FreezeReply(OK, num, Some(st.store)))
  {
  }
}
