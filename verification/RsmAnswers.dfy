/** What Submit's callers are told, step by step, and a run in which one is told OK. */
module RsmAnswers {
  import opened KvStore
  import opened Services
  import opened ShardTypes
  import opened RaftTypes
  import opened RaftPeer
  import opened AbstractRaft
  import opened RaftStaleInstall
  import C = RaftCluster
  import opened RsmSystem
  import opened RsmFold
  import opened RsmSubmit
  import Run = RsmStaleInstall

  /** The command in hand is for a call that waits for it. */
  ghost predicate Awaited(s: System, p: nat, index: nat, op: Op) {
    && p < |s.replicas| && s.replicas[p].inHand == Some(CommandMsg(index, Some(op)))
    && index in s.replicas[p].waiting && (p, s.replicas[p].waiting[index]) in s.calls
  }

  /**
   The reader executes the command in hand, and the call that waits at its index is sent the operation with the service's
   answer on the data before; that call stops waiting, and no other call hears anything.
   */
  lemma AwaitedIsAnswered(s: System, p: nat, save: bool, index: nat, op: Op)
    requires Possible(s, Receive(p, save)) && Awaited(s, p, index, op)
    ensures var s', r := After(s, Receive(p, save)), s.replicas[p];
            var key := (p, r.waiting[index]);
            && s'.calls == s.calls[key := s.calls[key].(arrived := Some((op, s.service.answer(r.data, op.req))))]
            && s'.outcomes == s.outcomes && s'.service == s.service && |s'.replicas| == |s.replicas|
            && s'.replicas[p].data == s.service.apply(r.data, op.req) && s'.replicas[p].index == index
            && s'.replicas[p].waiting == r.waiting - {index} && s'.replicas[p].inHand.None?
            && s'.replicas[p].saving == (if save then Some((index, s'.replicas[p].data)) else None)
  {
  }

  /** In every other case nobody hears anything. */
  lemma OthersHearNothing(s: System, p: nat, save: bool)
    requires Possible(s, Receive(p, save))
    requires forall index, op :: !Awaited(s, p, index, op)
    ensures After(s, Receive(p, save)).calls == s.calls && After(s, Receive(p, save)).outcomes == s.outcomes
  {
    var r := s.replicas[p];
    if r.inHand.value.CommandMsg? && r.inHand.value.command.Some? {
      assert !Awaited(s, p, r.inHand.value.index, r.inHand.value.command.value);
    }
  }

  /** A call returns OK with what was sent to it if that was its own operation, WrongLeader if not, and Maybe when it gives up. */
  lemma ReturnTells(s: System, p: nat, id: nat, timedOut: bool)
    requires Possible(s, Return(p, id, timedOut))
    ensures var s', arrived := After(s, Return(p, id, timedOut)), s.calls[(p, id)].arrived;
            && s'.outcomes.Keys == s.outcomes.Keys + {(p, id)} && (forall k :: k in s.outcomes ==> s'.outcomes[k] == s.outcomes[k])
            && (timedOut ==> s'.outcomes[(p, id)] == Maybe)
            && (!timedOut ==>
                  s'.outcomes[(p, id)] == if arrived.value.0.me == p && arrived.value.0.id == id then Answered(arrived.value.1) else WrongLeader)
  {
  }

  /**
   In every reachable system, an open call whose own operation is in its replica's hands, and which waits for it, can be
   told OK in two steps, with the answer of the service to its request.
   */
  lemma OwnOperationReturnsOk(s: System, n: nat, p: nat, save: bool, index: nat, op: Op)
    requires RsmSubmit.Reachable(s, n) && CanStep(s, Receive(p, save)) && Awaited(s, p, index, op)
    requires (op.me, op.id) == (p, s.replicas[p].waiting[index])
    ensures var s' := After(s, Receive(p, save));
            && CanStep(s', Return(p, op.id, false))
            && (p, op.id) in After(s', Return(p, op.id, false)).outcomes
            && After(s', Return(p, op.id, false)).outcomes[(p, op.id)] == Answered(s.service.answer(s.replicas[p].data, op.req))
  {
    var a := ReachableCalls(s, n);
    assert WaitingOk(s, p, s.replicas[p]);
    AwaitedIsAnswered(s, p, save, index, op);
    CrossedLengths(s, p, save);
    ReturnTells(After(s, Receive(p, save)), p, op.id, false);
  }

  lemma CrossedLengths(s: System, p: nat, save: bool)
    requires CanStep(s, Receive(p, save))
    ensures |After(s, Receive(p, save)).replicas| == |After(s, Receive(p, save)).c.peers|
  {
  }

  /** A run of two peers from boot, premises kept, in which the first Put of all is answered OK. */
  lemma SomeCallIsAnswered() returns (s: System)
    ensures RsmSubmit.Reachable(s, 2) && (0, 0) in s.outcomes && (0, 0) in s.calls
    ensures s.calls[(0, 0)].req == ShardOp.Client(Put("x", "a", 0))
    ensures s.outcomes[(0, 0)] == Answered(Gave(ClientReply(PutReply(OK))))
  {
    var net, d, r, calls := Run.ToSnapshotTaken();
    var l, f := Leading([Sentinel(), E1, E2], 2, 1), Following([Sentinel()], 0, 0);
    var before := Run.Sys(Two(l, f, Elections(), net, d), r, Run.Idle(Flat(map[]), 0, 0, map[]), calls);
    s := After(before, Return(0, 0, false));
    ReturnTells(before, 0, 0, false);
    Run.On(before, Return(0, 0, false), s);
  }
}
