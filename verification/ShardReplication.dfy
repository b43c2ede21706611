/** Why a replicated shard group may be taken as one atomic machine: its log is a sequence of migration steps. */
module ShardReplication {
  import opened KvStore
  import opened ShardTypes
  import opened Services
  import opened RaftTypes
  import S = ShardSystem
  import R = RsmSystem
  import T = RsmTheorems
  import RsmSubmit

  /** The group of the migration system holds what the replicated group holds after i commands of its log. */
  ghost predicate Reflects(s: S.System, gid: nat, log: seq<Entry>, i: nat) {
    S.Shaped(s) && gid in s.groups && i < |log| && R.StateAt(GroupService(gid, s.hash), log, i) == Group(s.groups[gid])
  }

  /** A replicated group starts as the migration system has it. */
  lemma StartsAlike(hash: string -> nat, gids: set<nat>, num: nat, gid: nat, log: seq<Entry>)
    requires gid in gids && |log| > 0
    ensures Reflects(S.Boot(hash, gids, num), gid, log, 0)
  {
  }

  /**
   The next command of the log, when it is a client's, is one step of the migration system at this group, with the same
   answer and the same state.
   */
  lemma ClientIsServe(s: S.System, gid: nat, log: seq<Entry>, i: nat, op: Op)
    requires Reflects(s, gid, log, i) && i + 1 < |log| && log[i + 1].command == Some(op) && op.req.Client?
    ensures S.CanStep(s, S.Serve(gid, op.req.req))
    ensures Reflects(S.After(s, S.Serve(gid, op.req.req)), gid, log, i + 1)
    ensures var x := KeyShard(s.hash, op.req.req.key);
            GroupService(gid, s.hash).answer(R.StateAt(GroupService(gid, s.hash), log, i), op.req)
            == Gave(ClientReply(OnClient(s.groups[gid][x], op.req.req).1))
  {
    var v, x := GroupService(gid, s.hash), KeyShard(s.hash, op.req.req.key);
    assert R.StateAt(v, log, i + 1) == v.apply(R.StateAt(v, log, i), op.req);
  }

  /** The same for a migration request that some controller sent: the step leaves the group's state and its reply. */
  lemma RequestIsHandle(s: S.System, gid: nat, log: seq<Entry>, i: nat, op: Op, target: nat)
    requires Reflects(s, gid, log, i) && i + 1 < |log| && log[i + 1].command == Some(op) && !op.req.Client?
    requires S.Call(gid, target, op.req) in s.net && op.req.shard < NSHARDS
    ensures S.CanStep(s, S.Handle(S.Call(gid, target, op.req)))
    ensures var s' := S.After(s, S.Handle(S.Call(gid, target, op.req)));
            && Reflects(s', gid, log, i + 1)
            && exists reply :: S.Done(gid, target, op.req, reply) in s'.net
                 && GroupService(gid, s.hash).answer(R.StateAt(GroupService(gid, s.hash), log, i), op.req) == Gave(reply)
  {
    var v := GroupService(gid, s.hash);
    assert R.StateAt(v, log, i + 1) == v.apply(R.StateAt(v, log, i), op.req);
    var reply := OnShard(s.groups[gid][op.req.shard], op.req).1;
    assert S.Done(gid, target, op.req, reply) in S.After(s, S.Handle(S.Call(gid, target, op.req))).net;
  }

  /** Steps elsewhere leave the group where it is. */
  lemma ElsewhereLeaves(s: S.System, gid: nat, log: seq<Entry>, i: nat, step: S.Step)
    requires Reflects(s, gid, log, i) && S.CanStep(s, step)
    requires !(step.Serve? && step.g == gid) && !(step.Handle? && step.call.to == gid)
    ensures Reflects(S.After(s, step), gid, log, i)
  {
  }

  // ---------------------------------------------------------------- a whole run

  /** The request that a step makes the group handle. */
  function RequestAt(step: S.Step, gid: nat): Option<Command> {
    match step
    case Serve(g, req) => if g == gid then Some(Client(req)) else None
    case Handle(call) => if call.Call? && call.to == gid then Some(call.op) else None
    case _ => None
  }

  /** The requests that a group handles along a run, in order. */
  function RequestsAt(steps: seq<S.Step>, gid: nat): seq<Command>
    decreases |steps|
  {
    if |steps| == 0 then []
    else
      var first, rest := RequestAt(steps[0], gid), RequestsAt(steps[1..], gid);
      if first.Some? then [first.value] + rest else rest
  }

  /** The requests between two positions of a log, in order; entries without a command are passed over. */
  function RequestsIn(log: seq<Entry>, i: nat, j: nat): seq<Command>
    requires i <= j < |log|
    decreases j - i
  {
    if i == j then []
    else if log[i + 1].command.None? then RequestsIn(log, i + 1, j)
    else [log[i + 1].command.value.req] + RequestsIn(log, i + 1, j)
  }

  /** A controller never sends what only clients ask. */
  ghost predicate NoClientCalls(s: S.System) {
    forall p {:trigger p.op} :: p in s.net && p.Call? ==> !p.op.Client?
  }

  lemma CallsStay(s: S.System, step: S.Step)
    requires NoClientCalls(s) && S.CanStep(s, step)
    ensures NoClientCalls(S.After(s, step))
  {
  }

  lemma EmptyPasses(s: S.System, gid: nat, log: seq<Entry>, i: nat)
    requires Reflects(s, gid, log, i) && i + 1 < |log| && log[i + 1].command.None?
    ensures Reflects(s, gid, log, i + 1)
  {
    var v := GroupService(gid, s.hash);
    assert R.StateAt(v, log, i + 1) == R.StateAt(v, log, i);
  }

  /** One step of the run at the group is the next request of the log; elsewhere it leaves the group. */
  lemma StepReflects(s: S.System, gid: nat, log: seq<Entry>, i: nat, op: Op, step: S.Step)
    requires Reflects(s, gid, log, i) && NoClientCalls(s) && S.CanStep(s, step)
    requires i + 1 < |log| && log[i + 1].command == Some(op) && RequestAt(step, gid) == Some(op.req)
    ensures Reflects(S.After(s, step), gid, log, i + 1)
  {
    if step.Serve? {
      ClientIsServe(s, gid, log, i, op);
    } else {
      RequestIsHandle(s, gid, log, i, op, step.call.target);
    }
  }

  /**
   Any run of the migration system in which the group handles, in order, the requests of a stretch of its replicated log
   takes the group from what the log folds to before the stretch to what it folds to after.
   */
  lemma {:induction false} RunReflects(s: S.System, gid: nat, log: seq<Entry>, i: nat, j: nat, steps: seq<S.Step>)
    requires Reflects(s, gid, log, i) && NoClientCalls(s) && S.Legal(s, steps)
    requires i <= j < |log| && RequestsAt(steps, gid) == RequestsIn(log, i, j)
    ensures Reflects(S.Trace(s, steps), gid, log, j)
    decreases j - i + |steps|
  {
    if i < j && log[i + 1].command.None? {
      EmptyPasses(s, gid, log, i);
      RunReflects(s, gid, log, i + 1, j, steps);
    } else if |steps| > 0 {
      var step, next := steps[0], S.After(s, steps[0]);
      CallsStay(s, step);
      if RequestAt(step, gid).None? {
        ElsewhereLeaves(s, gid, log, i, step);
        RunReflects(next, gid, log, i, j, steps[1..]);
      } else {
        var here, there := RequestsAt(steps, gid), RequestsIn(log, i, j);
        assert here[0] == RequestAt(step, gid).value && here[1..] == RequestsAt(steps[1..], gid);
        assert there[0] == log[i + 1].command.value.req && there[1..] == RequestsIn(log, i + 1, j);
        StepReflects(s, gid, log, i, log[i + 1].command.value, step);
        RunReflects(next, gid, log, i + 1, j, steps[1..]);
      }
    }
  }

  // ---------------------------------------------------------------- the replicated group

  /** In this run of the migration system, the group has handled the first i commands of the log. */
  ghost predicate Handled(hash: string -> nat, gids: set<nat>, num: nat, steps: seq<S.Step>, gid: nat, log: seq<Entry>, i: nat) {
    S.Legal(S.Boot(hash, gids, num), steps) && i < |log| && RequestsAt(steps, gid) == RequestsIn(log, 0, i)
  }

  /** In every such run the group then holds this. */
  ghost predicate HoldsAlone(hash: string -> nat, gids: set<nat>, num: nat, steps: seq<S.Step>, gid: nat, log: seq<Entry>, i: nat, data: Data) {
    Handled(hash, gids, num, steps, gid, log, i) ==>
      var s := S.Trace(S.Boot(hash, gids, num), steps);
      gid in s.groups && data == Group(s.groups[gid])
  }

  /** In every such run the group would then give this answer. */
  ghost predicate AnswersAlone(hash: string -> nat, gids: set<nat>, num: nat, steps: seq<S.Step>, gid: nat, log: seq<Entry>, i: nat,
                               req: Command, reply: Result) {
    Handled(hash, gids, num, steps, gid, log, i) ==>
      var s := S.Trace(S.Boot(hash, gids, num), steps);
      gid in s.groups && reply == GroupService(gid, hash).answer(Group(s.groups[gid]), req)
  }

  /**
   A replicated group is one atomic machine. For every reachable state of the replicated system running the server of a
   group, one log explains all replicas. In any run of the migration system in which the group handles the first i
   commands of that log, it holds just what a replica at index i holds, and it would give the caller of the next command
   just the answer that the caller was given.
   */
  lemma GroupIsAtomic(rs: R.System, n: nat, gid: nat, hash: string -> nat) returns (log: seq<Entry>)
    requires RsmSubmit.Reachable(rs, n) && rs.service == GroupService(gid, hash)
    ensures T.Explains(log, rs)
    ensures forall r, gids, num, steps {:trigger HoldsAlone(hash, gids, num, steps, gid, log, r.index, r.data)} ::
              r in rs.replicas && gid in gids ==> HoldsAlone(hash, gids, num, steps, gid, log, r.index, r.data)
    ensures forall k :: k in rs.outcomes && rs.outcomes[k].Answered? ==> k in rs.calls && 1 <= rs.calls[k].index < |log|
    ensures forall k, gids, num, steps
              {:trigger AnswersAlone(hash, gids, num, steps, gid, log, rs.calls[k].index - 1, rs.calls[k].req, rs.outcomes[k].reply)} ::
              k in rs.outcomes && rs.outcomes[k].Answered? && gid in gids ==>
                AnswersAlone(hash, gids, num, steps, gid, log, rs.calls[k].index - 1, rs.calls[k].req, rs.outcomes[k].reply)
  {
    log := T.Linearizable(rs, n);
    forall r, gids, num, steps | r in rs.replicas && gid in gids
      ensures HoldsAlone(hash, gids, num, steps, gid, log, r.index, r.data)
    {
      if Handled(hash, gids, num, steps, gid, log, r.index) {
        BootReflects(hash, gids, num, steps, gid, log, r.index);
      }
    }
    forall k | k in rs.outcomes && rs.outcomes[k].Answered?
      ensures k in rs.calls && 1 <= rs.calls[k].index < |log|
    {
      assert T.AnsweredInPlace(log, rs, k);
    }
    forall k, gids, num, steps
      {:trigger AnswersAlone(hash, gids, num, steps, gid, log, rs.calls[k].index - 1, rs.calls[k].req, rs.outcomes[k].reply)}
      | k in rs.outcomes && rs.outcomes[k].Answered? && gid in gids
      ensures AnswersAlone(hash, gids, num, steps, gid, log, rs.calls[k].index - 1, rs.calls[k].req, rs.outcomes[k].reply)
    {
      assert T.AnsweredInPlace(log, rs, k);
      if Handled(hash, gids, num, steps, gid, log, rs.calls[k].index - 1) {
        BootReflects(hash, gids, num, steps, gid, log, rs.calls[k].index - 1);
      }
    }
  }

  lemma BootReflects(hash: string -> nat, gids: set<nat>, num: nat, steps: seq<S.Step>, gid: nat, log: seq<Entry>, i: nat)
    requires gid in gids && Handled(hash, gids, num, steps, gid, log, i)
    ensures var s := S.Trace(S.Boot(hash, gids, num), steps);
            gid in s.groups && R.StateAt(GroupService(gid, hash), log, i) == Group(s.groups[gid])
  {
    StartsAlike(hash, gids, num, gid, log);
    RunReflects(S.Boot(hash, gids, num), gid, log, 0, i, steps);
    HashStays(S.Boot(hash, gids, num), steps);
  }

  lemma {:induction false} HashStays(s: S.System, steps: seq<S.Step>)
    requires S.Legal(s, steps)
    ensures S.Trace(s, steps).hash == s.hash
    decreases |steps|
  {
    if |steps| > 0 {
      HashStays(S.After(s, steps[0]), steps[1..]);
    }
  }
}
