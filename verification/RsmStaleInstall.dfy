/**
 A run of the replicated key/value server, without loss or crash, in which a stale snapshot costs a follower a write.

 The steps are those the code can take, premises included, but for one: that a newer snapshot is not older than what its
 receiver has applied. The follower has executed both writes to a key when the snapshot of the first one arrives. It is
 taken over, the service restores it, and nothing applies the second write again.
 */
module RsmStaleInstall {
  import opened KvStore
  import opened Services
  import opened RaftTypes
  import opened RaftPeer
  import opened AbstractRaft
  import opened RaftStaleInstall
  import C = RaftCluster
  import opened RsmSystem

  // ---------------------------------------------------------------- runs with and without the guard

  /** The key/value server on two peers reaches s, by steps that keep all premises. */
  ghost predicate Reached(s: System) {
    exists steps :: Legal(Boot(KvService(), 2), steps) && Trace(Boot(KvService(), 2), steps) == s
  }

  lemma {:induction false} LegalOn(s: System, steps: seq<Step>, step: Step)
    requires Legal(s, steps) && CanStep(Trace(s, steps), step)
    ensures Legal(s, steps + [step]) && Trace(s, steps + [step]) == After(Trace(s, steps), step)
    decreases |steps|
  {
    if |steps| == 0 {
      assert [] + [step] == [step];
      assert [step][1..] == [];
    } else {
      LegalOn(After(s, steps[0]), steps[1..], step);
      assert (steps + [step])[1..] == steps[1..] + [step];
    }
  }

  /** The step leads from s to s'. */
  ghost predicate Leads(s: System, step: Step, s': System) {
    CanStep(s, step) && s' == After(s, step)
  }

  lemma On(s: System, step: Step, s': System)
    requires Reached(s) && Leads(s, step, s')
    ensures Reached(s')
  {
    var steps :| Legal(Boot(KvService(), 2), steps) && Trace(Boot(KvService(), 2), steps) == s;
    LegalOn(Boot(KvService(), 2), steps, step);
  }

  /** The system after the steps, or None when the code cannot take one of them. */
  ghost function Walk(s: System, steps: seq<Step>): Option<System>
    decreases |steps|
  {
    if |steps| == 0 then Some(s)
    else if Possible(s, steps[0]) then Walk(After(s, steps[0]), steps[1..])
    else None
  }

  ghost predicate CanReach(v: Service, n: nat, s: System) {
    exists steps :: Walk(Boot(v, n), steps) == Some(s)
  }

  lemma {:induction false} LegalWalks(s: System, steps: seq<Step>)
    requires Legal(s, steps)
    ensures Walk(s, steps) == Some(Trace(s, steps))
    decreases |steps|
  {
    if |steps| > 0 {
      LegalWalks(After(s, steps[0]), steps[1..]);
    }
  }

  lemma ReachedWalks(s: System)
    requires Reached(s)
    ensures CanReach(KvService(), 2, s)
  {
    var steps :| Legal(Boot(KvService(), 2), steps) && Trace(Boot(KvService(), 2), steps) == s;
    LegalWalks(Boot(KvService(), 2), steps);
  }

  lemma {:induction false} WalkOn(s: System, steps: seq<Step>, step: Step)
    requires Walk(s, steps).Some? && Possible(Walk(s, steps).value, step)
    ensures Walk(s, steps + [step]) == Some(After(Walk(s, steps).value, step))
    decreases |steps|
  {
    if |steps| == 0 {
      assert [] + [step] == [step];
      assert [step][1..] == [];
    } else {
      WalkOn(After(s, steps[0]), steps[1..], step);
      assert (steps + [step])[1..] == steps[1..] + [step];
    }
  }

  /** The code can take the step from s to s', premises or not. */
  ghost predicate CanLead(s: System, step: Step, s': System) {
    Possible(s, step) && s' == After(s, step)
  }

  lemma WalksOn(s: System, step: Step, s': System)
    requires CanReach(KvService(), 2, s) && CanLead(s, step, s')
    ensures CanReach(KvService(), 2, s')
  {
    var steps :| Walk(Boot(KvService(), 2), steps) == Some(s);
    WalkOn(Boot(KvService(), 2), steps, step);
  }

  // ---------------------------------------------------------------- the steps of a system of two

  type Calls = map<Key, Call>

  /** Two peers, two replicas, no call returned. */
  function Sys(c: C.Cluster, r0: Replica, r1: Replica, calls: Calls): System {
    System(KvService(), c, [r0, r1], calls, map[])
  }

  lemma Protocols(c: C.Cluster, c': C.Cluster, r0: Replica, r1: Replica, calls: Calls, step: C.Step)
    requires Steps(c, step, c') && |c.peers| == 2 && !TakesOver(c, step)
    requires !step.Start? && !step.Apply? && !step.SnapshotSent? && !step.Snapshot? && !step.Restart?
    ensures Leads(Sys(c, r0, r1, calls), Protocol(step), Sys(c', r0, r1, calls))
  {
  }

  lemma TakesOverAt(c: C.Cluster, c': C.Cluster, r0: Replica, r1: Replica, calls: Calls, step: C.Step)
    requires Steps(c, step, c') && |c.peers| == 2 && TakesOver(c, step) && r1.inHand.None? && step.call.dst == 1
    ensures CanLead(Sys(c, r0, r1, calls), Protocol(step), Sys(c', r0, r1, calls))
  {
  }

  lemma Submits(c: C.Cluster, c': C.Cluster, r0: Replica, r1: Replica, calls: Calls, req: Command)
    returns (r: Replica, calls': Calls)
    requires |c.peers| == 2 && c.peers[0].role.Leader? && (0, r0.opId) !in calls
    requires Steps(c, C.Start(0, Some(Op(0, r0.opId, req))), c')
    ensures var i := c.peers[0].lastIncludedIndex + |c.peers[0].log|;
            && r == r0.(opId := r0.opId + 1, waiting := r0.waiting[i := r0.opId])
            && calls' == calls[(0, r0.opId) := Call(req, i, c.peers[0].currentTerm, None, {})]
    ensures Leads(Sys(c, r0, r1, calls), Submit(0, req), Sys(c', r, r1, calls'))
  {
    var s' := After(Sys(c, r0, r1, calls), Submit(0, req));
    assert AnsweredIndices(Sys(c, r0, r1, calls)) == {};
    r, calls' := s'.replicas[0], s'.calls;
    assert s'.replicas == [r, r1];
  }

  lemma LeaderOffers(c: C.Cluster, c': C.Cluster, r0: Replica, r1: Replica, calls: Calls)
    requires |c.peers| == 2 && r0.inHand.None? && c.peers[0].pending.None? && Steps(c, C.Apply(0), c')
    ensures var message := CommandMsg(c.peers[0].lastApplied + 1, ApplyNext(c.peers[0]).1.command);
            Leads(Sys(c, r0, r1, calls), OfferCommand(0), Sys(c', r0.(inHand := Some(message)), r1, calls))
  {
    var s' := After(Sys(c, r0, r1, calls), OfferCommand(0));
    assert s'.replicas == [s'.replicas[0], r1];
  }

  lemma FollowerOffers(c: C.Cluster, c': C.Cluster, r0: Replica, r1: Replica, calls: Calls)
    requires |c.peers| == 2 && r1.inHand.None? && c.peers[1].pending.None? && Steps(c, C.Apply(1), c')
    ensures var message := CommandMsg(c.peers[1].lastApplied + 1, ApplyNext(c.peers[1]).1.command);
            Leads(Sys(c, r0, r1, calls), OfferCommand(1), Sys(c', r0, r1.(inHand := Some(message)), calls))
  {
    var s' := After(Sys(c, r0, r1, calls), OfferCommand(1));
    assert s'.replicas == [r0, s'.replicas[1]];
  }

  lemma FollowerOffersSnapshot(c: C.Cluster, r0: Replica, r1: Replica, calls: Calls)
    requires |c.peers| == 2 && r1.inHand.None? && c.peers[1].pending.Some?
    ensures Leads(Sys(c, r0, r1, calls), OfferSnapshot(1),
                  Sys(c, r0, r1.(inHand := Some(SnapshotMsg(c.peers[1].pending.value))), calls))
  {
    var s' := After(Sys(c, r0, r1, calls), OfferSnapshot(1));
    assert s'.replicas == [r0, s'.replicas[1]];
  }

  lemma LeaderReceives(c: C.Cluster, r0: Replica, r1: Replica, calls: Calls, save: bool) returns (calls': Calls)
    requires |c.peers| == 2 && r0.inHand.Some? && r0.inHand.value.CommandMsg? && r0.saving.None?
    ensures var message := r0.inHand.value;
            message.command.Some? && message.index in r0.waiting && (0, r0.waiting[message.index]) in calls ==>
              var key := (0, r0.waiting[message.index]);
              calls' == calls[key := calls[key].(arrived :=
                Some((message.command.value, KvAnswer(r0.data, message.command.value.req))))]
    ensures Leads(Sys(c, r0, r1, calls), Receive(0, save), Sys(c, Handled(KvService(), r0, save), r1, calls'))
  {
    var s' := After(Sys(c, r0, r1, calls), Receive(0, save));
    calls' := s'.calls;
    assert s'.replicas == [s'.replicas[0], r1];
  }

  lemma FollowerReceives(c: C.Cluster, c': C.Cluster, r0: Replica, r1: Replica, calls: Calls)
    requires |c.peers| == 2 && r1.inHand.Some? && r1.saving.None? && r1.waiting == map[]
    requires if r1.inHand.value.SnapshotMsg? then Steps(c, C.SnapshotSent(1), c') else c' == c
    ensures Leads(Sys(c, r0, r1, calls), Receive(1, false), Sys(c', r0, Handled(KvService(), r1, false), calls))
  {
    var s' := After(Sys(c, r0, r1, calls), Receive(1, false));
    assert s'.replicas == [r0, s'.replicas[1]];
  }

  lemma LeaderSaves(c: C.Cluster, c': C.Cluster, r0: Replica, r1: Replica, calls: Calls)
    requires |c.peers| == 2 && r0.saving.Some? && Steps(c, C.Snapshot(0, r0.saving.value.0, r0.saving.value.1), c')
    ensures Leads(Sys(c, r0, r1, calls), Save(0), Sys(c', r0.(saving := None), r1, calls))
  {
    var s' := After(Sys(c, r0, r1, calls), Save(0));
    assert s'.replicas == [s'.replicas[0], r1];
  }

  // ---------------------------------------------------------------- the replicas along the run

  const BOTH_WRITTEN: Data := Flat(map["x" := Record(2, "b")])

  /** A replica that is idle, after the commands up to index. */
  function Idle(data: Data, index: nat, opId: nat, waiting: map<nat, nat>): Replica {
    Replica(data, index, None, None, opId, waiting)
  }

  lemma Executes()
    ensures KvService().apply(Flat(map[]), E1.command.value.req) == DATA
    ensures KvService().apply(DATA, E2.command.value.req) == BOTH_WRITTEN
    ensures BOTH_WRITTEN != DATA
  {
    assert map["x" := Record(1, "a")]["x" := Record(2, "b")] == map["x" := Record(2, "b")];
    assert BOTH_WRITTEN.store["x"] != DATA.store["x"];
  }

  // ---------------------------------------------------------------- the run

  /** A step of the election, before any call. */
  lemma Elects(c: C.Cluster, c': C.Cluster, step: C.Step)
    requires Reached(Sys(c, Idle(Flat(map[]), 0, 0, map[]), Idle(Flat(map[]), 0, 0, map[]), map[]))
    requires |c.peers| == 2 && Steps(c, step, c') && (step.Tick? || step.CallElection? || step.ReceiveVote? || step.ReceiveVoteAnswer?)
    ensures Reached(Sys(c', Idle(Flat(map[]), 0, 0, map[]), Idle(Flat(map[]), 0, 0, map[]), map[]))
  {
    var r := Idle(Flat(map[]), 0, 0, map[]);
    Protocols(c, c', r, r, map[], step);
    On(Sys(c, r, r, map[]), Protocol(step), Sys(c', r, r, map[]));
  }

  lemma ToLeader()
    ensures Reached(Sys(Two(Leading([Sentinel()], 0, 0), Following([Sentinel()], 0, 0), Elections(), VOTED, {}),
                                         Idle(Flat(map[]), 0, 0, map[]), Idle(Flat(map[]), 0, 0, map[]), map[]))
  {
    var first, candidate, second, e := Election0();
    var f, l, r := Following([Sentinel()], 0, 0), Leading([Sentinel()], 0, 0), Idle(Flat(map[]), 0, 0, map[]);
    var c0, c1, c2 := Two(first, second, [], {}, {}), Two(candidate, second, [], {}, {}), Two(candidate, second, [e], {}, {});
    var c3, c4 := Two(candidate, f, [e], VOTED, {}), Two(l, f, Elections(), VOTED, {});
    assert Boot(KvService(), 2).replicas == [r, r];
    assert Legal(Boot(KvService(), 2), []) && Trace(Boot(KvService(), 2), []) == Sys(c0, r, r, map[]);
    Elects(c0, c1, C.Tick(0));
    Elects(c1, c2, C.CallElection(0));
    Elects(c2, c3, C.ReceiveVote(0, 1));
    Elects(c3, c4, C.ReceiveVoteAnswer(C.VoteAnswer(0, 1, VoteReply(1, true))));
  }

  lemma ToGreeted() returns (net: set<C.Packet>)
    ensures Reached(Sys(Two(Leading([Sentinel()], 0, 0), Following([Sentinel()], 0, 0), Elections(), net, {}),
                                         Idle(Flat(map[]), 0, 0, map[]), Idle(Flat(map[]), 0, 0, map[]), map[]))
    ensures C.AppendAnswer(1, HELLO, AppendReply(1, true, 0)) in net
  {
    ToLeader();
    var l, f, es, r := Leading([Sentinel()], 0, 0), Following([Sentinel()], 0, 0), Elections(), Idle(Flat(map[]), 0, 0, map[]);
    Hello();
    var sent := VOTED + {C.AppendCall(1, HELLO)};
    Sends(l, f, es, VOTED, {});
    Protocols(Two(l, f, es, VOTED, {}), Two(l, f, es, sent, {}), r, r, map[], C.Send(0, 1));
    On(Sys(Two(l, f, es, VOTED, {}), r, r, map[]), Protocol(C.Send(0, 1)), Sys(Two(l, f, es, sent, {}), r, r, map[]));
    net := sent + {C.AppendAnswer(1, HELLO, AppendReply(1, true, 0))};
    Appends(l, f, es, sent, {}, HELLO);
    Protocols(Two(l, f, es, sent, {}), Two(l, f, es, net, {}), r, r, map[], C.ReceiveAppend(C.AppendCall(1, HELLO)));
    On(Sys(Two(l, f, es, sent, {}), r, r, map[]), Protocol(C.ReceiveAppend(C.AppendCall(1, HELLO))), Sys(Two(l, f, es, net, {}), r, r, map[]));
  }

  /** The first call waits at index 1. */
  predicate FirstWaits(r0: Replica, calls: Calls) {
    1 in r0.waiting && r0.waiting[1] == 0 && (0, 0) in calls && calls[(0, 0)].index == 1 && calls[(0, 0)].req == E1.command.value.req
  }

  lemma ToFirstSubmitted() returns (net: set<C.Packet>, r0: Replica, calls: Calls)
    ensures r0 == Idle(Flat(map[]), 0, 1, map[1 := 0]) && calls == map[(0, 0) := Call(E1.command.value.req, 1, 1, None, {})]
    ensures C.AppendAnswer(1, HELLO, AppendReply(1, true, 0)) in net
    ensures Reached(Sys(Two(Leading([Sentinel(), E1], 0, 0), Following([Sentinel()], 0, 0), Elections(), net, {}),
                        r0, Idle(Flat(map[]), 0, 0, map[]), calls))
  {
    net := ToGreeted();
    var l0, l1, f, es := Leading([Sentinel()], 0, 0), Leading([Sentinel(), E1], 0, 0), Following([Sentinel()], 0, 0), Elections();
    var r := Idle(Flat(map[]), 0, 0, map[]);
    RaftStaleInstall.Started();
    Starts(l0, f, es, net, {}, E1.command);
    r0, calls := Submits(Two(l0, f, es, net, {}), Two(l1, f, es, net, {}), r, r, map[], E1.command.value.req);
    On(Sys(Two(l0, f, es, net, {}), r, r, map[]), Submit(0, E1.command.value.req), Sys(Two(l1, f, es, net, {}), r0, r, calls));
    assert r0.waiting == map[1 := 0];
  }

  lemma ToBothSubmitted() returns (net: set<C.Packet>, r0: Replica, calls: Calls)
    ensures r0 == Idle(Flat(map[]), 0, 2, r0.waiting) && FirstWaits(r0, calls)
    ensures C.AppendAnswer(1, HELLO, AppendReply(1, true, 0)) in net
    ensures Reached(Sys(Two(Leading([Sentinel(), E1, E2], 0, 0), Following([Sentinel()], 0, 0), Elections(), net, {}),
                        r0, Idle(Flat(map[]), 0, 0, map[]), calls))
  {
    var r1, calls1;
    net, r1, calls1 := ToFirstSubmitted();
    var l1, l2, f, es := Leading([Sentinel(), E1], 0, 0), Leading([Sentinel(), E1, E2], 0, 0), Following([Sentinel()], 0, 0), Elections();
    var r := Idle(Flat(map[]), 0, 0, map[]);
    RaftStaleInstall.Started();
    Starts(l1, f, es, net, {}, E2.command);
    r0, calls := Submits(Two(l1, f, es, net, {}), Two(l2, f, es, net, {}), r1, r, calls1, E2.command.value.req);
    On(Sys(Two(l1, f, es, net, {}), r1, r, calls1), Submit(0, E2.command.value.req), Sys(Two(l2, f, es, net, {}), r0, r, calls));
  }

  lemma ToSubmitted() returns (net: set<C.Packet>, r0: Replica, calls: Calls)
    ensures r0 == Idle(Flat(map[]), 0, 2, r0.waiting) && FirstWaits(r0, calls)
    ensures Reached(Sys(Two(Leading([Sentinel(), E1, E2], 2, 0), Following([Sentinel()], 0, 0), Elections(), net, {}),
                        r0, Idle(Flat(map[]), 0, 0, map[]), calls))
  {
    net, r0, calls := ToBothSubmitted();
    var log := [Sentinel(), E1, E2];
    var l2, f, es, r := Leading(log, 0, 0), Following([Sentinel()], 0, 0), Elections(), Idle(Flat(map[]), 0, 0, map[]);
    CommittedAlone();
    var hello := C.AppendAnswer(1, HELLO, AppendReply(1, true, 0));
    AppendAnswers(l2, f, es, net, {}, HELLO, AppendReply(1, true, 0));
    Protocols(Two(l2, f, es, net, {}), Two(Leading(log, 2, 0), f, es, net, {}), r0, r, calls, C.ReceiveAppendAnswer(hello));
    On(Sys(Two(l2, f, es, net, {}), r0, r, calls), Protocol(C.ReceiveAppendAnswer(hello)),
       Sys(Two(Leading(log, 2, 0), f, es, net, {}), r0, r, calls));
  }

  lemma ToEntriesSent() returns (net: set<C.Packet>, r0: Replica, calls: Calls)
    ensures r0 == Idle(Flat(map[]), 0, 2, r0.waiting) && C.AppendCall(1, BOTH) in net && FirstWaits(r0, calls)
    ensures Reached(Sys(Two(Leading([Sentinel(), E1, E2], 2, 0), Following([Sentinel()], 0, 0), Elections(), net, {}),
                                         r0, Idle(Flat(map[]), 0, 0, map[]), calls))
  {
    net, r0, calls := ToSubmitted();
    var l, f, es, r := Leading([Sentinel(), E1, E2], 2, 0), Following([Sentinel()], 0, 0), Elections(), Idle(Flat(map[]), 0, 0, map[]);
    BothMade();
    Sends(l, f, es, net, {});
    var net' := net + {C.AppendCall(1, BOTH)};
    Protocols(Two(l, f, es, net, {}), Two(l, f, es, net', {}), r0, r, calls, C.Send(0, 1));
    On(Sys(Two(l, f, es, net, {}), r0, r, calls), Protocol(C.Send(0, 1)), Sys(Two(l, f, es, net', {}), r0, r, calls));
    net := net';
  }

  /** The leader executes the first entry, and its reader takes a snapshot there. */
  lemma ToSnapshotTaken() returns (net: set<C.Packet>, d: Deliveries, r2: Replica, calls: Calls)
    ensures Reached(Sys(Two(Leading([Sentinel(), E1, E2], 2, 1), Following([Sentinel()], 0, 0), Elections(), net, d),
                                         r2, Idle(Flat(map[]), 0, 0, map[]), calls))
    ensures r2.saving == Some((1, KvService().apply(Flat(map[]), E1.command.value.req))) && C.AppendCall(1, BOTH) in net
    ensures (0, 0) in calls && calls[(0, 0)].index == 1 && calls[(0, 0)].req == E1.command.value.req
    ensures calls[(0, 0)].arrived == Some((E1.command.value, KvAnswer(Flat(map[]), E1.command.value.req)))
  {
    var r0;
    net, r0, calls := ToEntriesSent();
    var log := [Sentinel(), E1, E2];
    var l, l1, f, es, r := Leading(log, 2, 0), Leading(log, 2, 1), Following([Sentinel()], 0, 0), Elections(), Idle(Flat(map[]), 0, 0, map[]);
    AppliedNext();
    d := {} + {(0, 1, E1.command)};
    LeaderApplies(l, f, es, net, {});
    LeaderOffers(Two(l, f, es, net, {}), Two(l1, f, es, net, d), r0, r, calls);
    var r1 := r0.(inHand := Some(CommandMsg(1, E1.command)));
    On(Sys(Two(l, f, es, net, {}), r0, r, calls), OfferCommand(0), Sys(Two(l1, f, es, net, d), r1, r, calls));
    var calls2 := LeaderReceives(Two(l1, f, es, net, d), r1, r, calls, true);
    r2 := Handled(KvService(), r1, true);
    On(Sys(Two(l1, f, es, net, d), r1, r, calls), Receive(0, true), Sys(Two(l1, f, es, net, d), r2, r, calls2));
    calls := calls2;
  }

  lemma ToBothOnTheWay() returns (net: set<C.Packet>, d: Deliveries, r0: Replica, calls: Calls)
    ensures Reached(Sys(Two(Compacted(), Following([Sentinel()], 0, 0), Elections(), net, d),
                                         r0, Idle(Flat(map[]), 0, 0, map[]), calls))
    ensures C.AppendCall(1, BOTH) in net && C.InstallCall(1, INSTALL) in net
  {
    net, d, r0, calls := ToSnapshotTaken();
    net, r0, calls := ToSnapshotSent(net, d, r0, calls);
  }

  lemma ToSnapshotSent(net1: set<C.Packet>, d: Deliveries, r2: Replica, calls2: Calls)
    returns (net: set<C.Packet>, r0: Replica, calls: Calls)
    requires Reached(Sys(Two(Leading([Sentinel(), E1, E2], 2, 1), Following([Sentinel()], 0, 0), Elections(), net1, d),
                                          r2, Idle(Flat(map[]), 0, 0, map[]), calls2))
    requires r2.saving == Some((1, KvService().apply(Flat(map[]), E1.command.value.req))) && C.AppendCall(1, BOTH) in net1
    ensures Reached(Sys(Two(Compacted(), Following([Sentinel()], 0, 0), Elections(), net, d),
                                         r0, Idle(Flat(map[]), 0, 0, map[]), calls))
    ensures C.AppendCall(1, BOTH) in net && C.InstallCall(1, INSTALL) in net
  {
    var l1, f, es, r := Leading([Sentinel(), E1, E2], 2, 1), Following([Sentinel()], 0, 0), Elections(), Idle(Flat(map[]), 0, 0, map[]);
    Executes();
    InstallMade();
    Snapshots(l1, f, es, net1, d, 1, DATA);
    LeaderSaves(Two(l1, f, es, net1, d), Two(Compacted(), f, es, net1, d), r2, r, calls2);
    r0, calls := r2.(saving := None), calls2;
    On(Sys(Two(l1, f, es, net1, d), r2, r, calls), Save(0), Sys(Two(Compacted(), f, es, net1, d), r0, r, calls));
    Sends(Compacted(), f, es, net1, d);
    net := net1 + {C.InstallCall(1, INSTALL)};
    Protocols(Two(Compacted(), f, es, net1, d), Two(Compacted(), f, es, net, d), r0, r, calls, C.Send(0, 1));
    On(Sys(Two(Compacted(), f, es, net1, d), r0, r, calls), Protocol(C.Send(0, 1)), Sys(Two(Compacted(), f, es, net, d), r0, r, calls));
  }

  /** The follower executes the next command. */
  lemma FollowerExecutes(net: set<C.Packet>, d: Deliveries, r0: Replica, calls: Calls, applied: nat, data: Data, command: Option<Op>)
    returns (d': Deliveries)
    requires applied < 2 && command == (if applied == 0 then E1 else E2).command
    requires Reached(Sys(Two(Compacted(), Following([Sentinel(), E1, E2], 2, applied), Elections(), net, d),
                                          r0, Idle(data, applied, 0, map[]), calls))
    ensures d' == d + {(1, applied + 1, command)}
    ensures Reached(Sys(Two(Compacted(), Following([Sentinel(), E1, E2], 2, applied + 1), Elections(), net, d'),
                                         r0, Idle(KvService().apply(data, command.value.req), applied + 1, 0, map[]), calls))
  {
    var log := [Sentinel(), E1, E2];
    var l, f, f', es, r := Compacted(), Following(log, 2, applied), Following(log, 2, applied + 1), Elections(), Idle(data, applied, 0, map[]);
    AppliedNext();
    d' := d + {(1, applied + 1, command)};
    FollowerApplies(l, f, es, net, d);
    var r1 := r.(inHand := Some(CommandMsg(applied + 1, command)));
    FollowerOffers(Two(l, f, es, net, d), Two(l, f', es, net, d'), r0, r, calls);
    On(Sys(Two(l, f, es, net, d), r0, r, calls), OfferCommand(1), Sys(Two(l, f', es, net, d'), r0, r1, calls));
    FollowerReceives(Two(l, f', es, net, d'), Two(l, f', es, net, d'), r0, r1, calls);
    var waiting: map<nat, nat> := map[];
    assert waiting - {applied + 1} == map[];
    On(Sys(Two(l, f', es, net, d'), r0, r1, calls), Receive(1, false), Sys(Two(l, f', es, net, d'), r0, Handled(KvService(), r1, false), calls));
  }

  lemma ToBothAppended() returns (net: set<C.Packet>, d: Deliveries, r0: Replica, calls: Calls)
    ensures Reached(Sys(Two(Compacted(), Following([Sentinel(), E1, E2], 2, 0), Elections(), net, d),
                                         r0, Idle(Flat(map[]), 0, 0, map[]), calls))
    ensures C.InstallCall(1, INSTALL) in net
  {
    net, d, r0, calls := ToBothOnTheWay();
    var l, f, f0, es, r := Compacted(), Following([Sentinel()], 0, 0), Following([Sentinel(), E1, E2], 2, 0), Elections(), Idle(Flat(map[]), 0, 0, map[]);
    BothMade();
    Appends(l, f, es, net, d, BOTH);
    var net', step := net + {C.AppendAnswer(1, BOTH, AppendReply(1, true, 0))}, C.ReceiveAppend(C.AppendCall(1, BOTH));
    Protocols(Two(l, f, es, net, d), Two(l, f0, es, net', d), r0, r, calls, step);
    On(Sys(Two(l, f, es, net, d), r0, r, calls), Protocol(step), Sys(Two(l, f0, es, net', d), r0, r, calls));
    net := net';
  }

  lemma ToFirstExecuted() returns (net: set<C.Packet>, d: Deliveries, r0: Replica, calls: Calls)
    ensures Reached(Sys(Two(Compacted(), Following([Sentinel(), E1, E2], 2, 1), Elections(), net, d),
                        r0, Idle(KvService().apply(Flat(map[]), E1.command.value.req), 1, 0, map[]), calls))
    ensures C.InstallCall(1, INSTALL) in net && (1, 1, E1.command) in d
  {
    net, d, r0, calls := ToBothAppended();
    d := FollowerExecutes(net, d, r0, calls, 0, Flat(map[]), E1.command);
  }

  lemma ToSecondExecuted() returns (net: set<C.Packet>, d: Deliveries, r0: Replica, calls: Calls, data: Data)
    ensures Reached(Sys(Two(Compacted(), Following([Sentinel(), E1, E2], 2, 2), Elections(), net, d), r0, Idle(data, 2, 0, map[]), calls))
    ensures data == KvService().apply(KvService().apply(Flat(map[]), E1.command.value.req), E2.command.value.req)
    ensures C.InstallCall(1, INSTALL) in net && (1, 1, E1.command) in d && (1, 2, E2.command) in d
  {
    net, d, r0, calls := ToFirstExecuted();
    data := KvService().apply(Flat(map[]), E1.command.value.req);
    d := FollowerExecutes(net, d, r0, calls, 1, data, E2.command);
    data := KvService().apply(data, E2.command.value.req);
  }

  lemma ToExecuted() returns (net: set<C.Packet>, d: Deliveries, r0: Replica, calls: Calls)
    ensures Reached(Sys(Two(Compacted(), Following([Sentinel(), E1, E2], 2, 2), Elections(), net, d),
                        r0, Idle(BOTH_WRITTEN, 2, 0, map[]), calls))
    ensures C.InstallCall(1, INSTALL) in net && (1, 1, E1.command) in d && (1, 2, E2.command) in d
  {
    var data;
    net, d, r0, calls, data := ToSecondExecuted();
    Executes();
  }

  /** The follower after it has taken over the stale snapshot, and after its service has restored it. */
  function FellBack(pending: Option<PendingSnapshot>): Peer {
    Peer(1, Follower, [E1, E2], 1, 0, 2, 2, [1, 1], [0, 0], 1, 1, pending, OnDisk([E1, E2], 1, Some(DATA)))
  }

  lemma Overtaken()
    ensures HandleInstall(Following([Sentinel(), E1, E2], 2, 2), INSTALL) == (FellBack(Some(PendingSnapshot(Some(DATA), 1, 1))), 1)
  {
    assert [Sentinel(), E1, E2][1..] == [E1, E2];
  }

  lemma SnapshotPassed(net: set<C.Packet>, d: Deliveries, pending: PendingSnapshot)
    ensures Steps(Two(Compacted(), FellBack(Some(pending)), Elections(), net, d), C.SnapshotSent(1),
                  Two(Compacted(), FellBack(None), Elections(), net, d))
  {
  }

  /** What a service holds is the fold of the commands delivered on its peer at 1, 2, and so on, up to lastApplied. */
  ghost predicate IsFold(s: System, p: nat, log: seq<Entry>)
    requires p < |s.replicas| && p < |s.c.peers|
  {
    && s.c.peers[p].lastApplied < |log| && s.replicas[p].data == StateAt(s.service, log, s.c.peers[p].lastApplied)
  }

  lemma FoldOfBoth(log: seq<Entry>)
    requires |log| > 2 && log[1].command == E1.command && log[2].command == E2.command
    ensures StateAt(KvService(), log, 2) == BOTH_WRITTEN
  {
    Executes();
    assert StateAt(KvService(), log, 0) == Flat(map[]);
    assert StateAt(KvService(), log, 1) == DATA;
  }

  /**
   The lost write: a state the code reaches in which a follower's service is idle, its peer has applied two commands,
   and yet what the service holds is not the fold of any log with the two commands that were delivered to it.
   */
  lemma StaleInstallBreaksReplica() returns (s: System)
    ensures CanReach(KvService(), 2, s) && |s.replicas| == |s.c.peers| == 2
    ensures s.replicas[1].inHand.None? && s.c.peers[1].pending.None? && s.c.peers[1].lastApplied == 2
    ensures (1, 1, E1.command) in s.c.delivered && (1, 2, E2.command) in s.c.delivered
    ensures forall log: seq<Entry> {:trigger IsFold(s, 1, log)} ::
              |log| > 2 && log[1].command == E1.command && log[2].command == E2.command ==> !IsFold(s, 1, log)
  {
    var net, d, r0, calls := ToExecuted();
    var pending := PendingSnapshot(Some(DATA), 1, 1);
    var l, f, f', f'', es, r := Compacted(), Following([Sentinel(), E1, E2], 2, 2), FellBack(Some(pending)), FellBack(None), Elections(), Idle(BOTH_WRITTEN, 2, 0, map[]);
    var net', install := net + {C.InstallAnswer(1, INSTALL, 1)}, C.ReceiveInstall(C.InstallCall(1, INSTALL));
    Overtaken();
    Installs(l, f, es, net, d, INSTALL);
    ReachedWalks(Sys(Two(l, f, es, net, d), r0, r, calls));
    TakesOverAt(Two(l, f, es, net, d), Two(l, f', es, net', d), r0, r, calls, install);
    WalksOn(Sys(Two(l, f, es, net, d), r0, r, calls), Protocol(install), Sys(Two(l, f', es, net', d), r0, r, calls));
    var r1 := r.(inHand := Some(SnapshotMsg(pending)));
    FollowerOffersSnapshot(Two(l, f', es, net', d), r0, r, calls);
    WalksOn(Sys(Two(l, f', es, net', d), r0, r, calls), OfferSnapshot(1), Sys(Two(l, f', es, net', d), r0, r1, calls));
    SnapshotPassed(net', d, pending);
    FollowerReceives(Two(l, f', es, net', d), Two(l, f'', es, net', d), r0, r1, calls);
    s := Sys(Two(l, f'', es, net', d), r0, Idle(DATA, 1, 0, map[]), calls);
    WalksOn(Sys(Two(l, f', es, net', d), r0, r1, calls), Receive(1, false), s);
    Executes();
    forall log: seq<Entry> | |log| > 2 && log[1].command == E1.command && log[2].command == E2.command
      ensures !IsFold(s, 1, log)
    {
      FoldOfBoth(log);
    }
  }
}
