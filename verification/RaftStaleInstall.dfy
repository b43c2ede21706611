/**
 A run in which an InstallSnapShot reaches a follower that has already applied more than the snapshot holds, and that
 would still take it over. Two peers, one term, no loss and no crash: the AppendEntries sent first, which brings both
 entries, and the InstallSnapShot sent after the leader compacted, simply arrive in the order they were sent. In a
 cluster of two the leader's own copy is enough to commit.
 */
module RaftStaleInstall {
  import opened KvStore
  import opened Services
  import opened ShardTypes
  import opened RaftTypes
  import opened RaftPeer
  import opened RaftCluster
  import opened AbstractRaft
  import opened RaftSafety

  lemma {:induction false} TraceOn(c: Cluster, steps: seq<Step>, step: Step)
    requires Legal(c, steps) && Trace(c, steps).Some? && CanStep(Trace(c, steps).value, step) && InBounds(Trace(c, steps).value, step)
    ensures Legal(c, steps + [step]) && Trace(c, steps + [step]) == Some(After(Trace(c, steps).value, step))
    decreases |steps|
  {
    if |steps| == 0 {
      assert [] + [step] == [step];
      assert [step][1..] == [];
    } else {
      TraceOn(After(c, steps[0]), steps[1..], step);
      assert (steps + [step])[1..] == steps[1..] + [step];
    }
  }

  /** The step leads from c to c'. */
  ghost predicate Steps(c: Cluster, step: Step, c': Cluster) {
    CanStep(c, step) && InBounds(c, step) && c' == After(c, step)
  }

  lemma ReachableOn(c: Cluster, n: nat, step: Step, c': Cluster)
    requires Reachable(c, n) && Steps(c, step, c')
    ensures Reachable(c', n)
  {
    var steps :| Legal(Boot(n), steps) && Trace(Boot(n), steps) == Some(c);
    TraceOn(Boot(n), steps, step);
  }

  lemma ReachableBoot(n: nat)
    requires n >= 1
    ensures Reachable(Boot(n), n)
  {
    assert Legal(Boot(n), []) && Trace(Boot(n), []) == Some(Boot(n));
  }

  // ---------------------------------------------------------------- the steps of a cluster of two

  function Two(l: Peer, f: Peer, elections: seq<Election>, net: set<Packet>, delivered: set<(nat, nat, Option<Op>)>): Cluster {
    Cluster([l, f], elections, net, delivered)
  }

  type Deliveries = set<(nat, nat, Option<Op>)>

  function PacketTo(l: Peer): Packet
    requires |l.log| >= 1 && |l.nextIndex| == 2 && (l.nextIndex[1] > l.lastIncludedIndex ==> l.nextIndex[1] <= l.CurrIndex() + 1)
  {
    match MessageTo(l, 1)
    case SendAppend(args) => AppendCall(1, args)
    case SendInstall(args) => InstallCall(1, args)
  }

  lemma Sends(l: Peer, f: Peer, es: seq<Election>, net: set<Packet>, d: Deliveries)
    requires l.role.Leader? && |l.log| >= 1 && |l.nextIndex| == 2
    requires l.nextIndex[1] > l.lastIncludedIndex ==> l.nextIndex[1] <= l.CurrIndex() + 1
    ensures Steps(Two(l, f, es, net, d), Send(0, 1), Two(l, f, es, net + {PacketTo(l)}, d))
  {
  }

  lemma Appends(l: Peer, f: Peer, es: seq<Election>, net: set<Packet>, d: Deliveries, m: AppendMsg)
    requires AppendCall(1, m) in net && |f.log| >= 1
    ensures var (f', reply) := HandleAppend(f, m);
            Steps(Two(l, f, es, net, d), ReceiveAppend(AppendCall(1, m)), Two(l, f', es, net + {AppendAnswer(1, m, reply)}, d))
  {
  }

  lemma Installs(l: Peer, f: Peer, es: seq<Election>, net: set<Packet>, d: Deliveries, args: InstallMsg)
    requires InstallCall(1, args) in net && |f.log| >= 1
    ensures var (f', term) := HandleInstall(f, args);
            Steps(Two(l, f, es, net, d), ReceiveInstall(InstallCall(1, args)), Two(l, f', es, net + {InstallAnswer(1, args, term)}, d))
  {
  }

  lemma AppendAnswers(l: Peer, f: Peer, es: seq<Election>, net: set<Packet>, d: Deliveries, m: AppendMsg, reply: AppendReply)
    requires AppendAnswer(1, m, reply) in net && m.leader == 0
    requires l.Sane() && |l.nextIndex| == 2 && m.prev + |m.entries| <= l.CurrIndex()
    ensures Steps(Two(l, f, es, net, d), ReceiveAppendAnswer(AppendAnswer(1, m, reply)),
                  Two(HandleAppendReply(l, 1, m, reply), f, es, net, d))
  {
  }

  lemma Starts(l: Peer, f: Peer, es: seq<Election>, net: set<Packet>, d: Deliveries, command: Option<Op>)
    requires |l.log| >= 1
    ensures Steps(Two(l, f, es, net, d), Start(0, command), Two(HandleStart(l, command).0, f, es, net, d))
  {
  }

  lemma LeaderApplies(l: Peer, f: Peer, es: seq<Election>, net: set<Packet>, d: Deliveries)
    requires l.lastApplied < l.commitIndex && 0 <= l.ToPhysical(l.lastApplied + 1) < |l.log|
    ensures Steps(Two(l, f, es, net, d), Apply(0),
                  Two(ApplyNext(l).0, f, es, net, d + {(0, l.lastApplied + 1, ApplyNext(l).1.command)}))
  {
    Applied(Two(l, f, es, net, d), 0);
  }

  lemma FollowerApplies(l: Peer, f: Peer, es: seq<Election>, net: set<Packet>, d: Deliveries)
    requires f.lastApplied < f.commitIndex && 0 <= f.ToPhysical(f.lastApplied + 1) < |f.log|
    ensures Steps(Two(l, f, es, net, d), Apply(1),
                  Two(l, ApplyNext(f).0, es, net, d + {(1, f.lastApplied + 1, ApplyNext(f).1.command)}))
  {
    Applied(Two(l, f, es, net, d), 1);
  }

  lemma Snapshots(l: Peer, f: Peer, es: seq<Election>, net: set<Packet>, d: Deliveries, index: nat, data: Data)
    requires |l.log| >= 1 && index <= l.lastApplied
    ensures Steps(Two(l, f, es, net, d), RaftCluster.Snapshot(0, index, data), Two(TakeSnapshot(l, index, data), f, es, net, d))
  {
  }

  lemma Ticks(l: Peer, f: Peer)
    requires !l.role.Leader? && |l.log| >= 1
    ensures Steps(Two(l, f, [], {}, {}), Tick(0), Two(l.ConvertToCandidate(), f, [], {}, {}))
  {
  }

  lemma CallsElection(l: Peer, f: Peer)
    requires |l.log| >= 1
    ensures Steps(Two(l, f, [], {}, {}), CallElection(0), Two(l, f, [Election(ElectionArgs(l), 1, {1}, {})], {}, {}))
  {
    assert Others(2, 0) == {1};
  }

  lemma Votes(l: Peer, f: Peer, e: Election)
    requires |f.log| >= 1 && e.args.cand == 0
    ensures Steps(Two(l, f, [e], {}, {}), ReceiveVote(0, 1),
                  Two(l, HandleVote(f, e.args).0, [e], {VoteAnswer(0, 1, HandleVote(f, e.args).1)}, {}))
  {
    var (f', reply) := HandleVote(f, e.args);
    assert {} + {VoteAnswer(0, 1, reply)} == {VoteAnswer(0, 1, reply)};
  }

  function Counted(l: Peer, e: Election, reply: VoteReply): Election
    requires |l.log| >= 1
  {
    var (l', votes) := HandleVoteReply(l, e.args.term, e.votes, reply);
    Election(e.args, votes, e.waiting - {1}, if votes > e.votes then e.counted + {1} else e.counted)
  }

  lemma VoteAnswers(l: Peer, f: Peer, e: Election, net: set<Packet>, reply: VoteReply)
    requires |l.log| >= 1 && e.args.cand == 0 && 1 in e.waiting && VoteAnswer(0, 1, reply) in net
    ensures Steps(Two(l, f, [e], net, {}), ReceiveVoteAnswer(VoteAnswer(0, 1, reply)),
                  Two(HandleVoteReply(l, e.args.term, e.votes, reply).0, f, [Counted(l, e, reply)], net, {}))
  {
  }

  // ---------------------------------------------------------------- the peers along the run

  const E1 := Entry(1, Some(Op(0, 0, ShardOp.Client(Put("x", "a", 0)))), 1)
  const E2 := Entry(1, Some(Op(0, 1, ShardOp.Client(Put("x", "b", 1)))), 2)
  const DATA: Data := Flat(map["x" := Record(1, "a")])
  const HELLO := AppendMsg(1, 0, 0, 0, [], 0)
  const BOTH := AppendMsg(1, 0, 0, 0, [E1, E2], 2)
  const INSTALL := InstallMsg(1, 0, 1, 1, Some(DATA))

  function OnDisk(log: seq<Entry>, base: nat, snapshot: Option<Data>): Disk {
    Disk(Some(Saved(1, 0, log, base, base)), snapshot)
  }

  function Leading(log: seq<Entry>, commit: nat, applied: nat): Peer {
    Peer(0, Leader, log, 1, 0, commit, applied, [1, 1], [0, 0], 0, 0, None, OnDisk(log, 0, None))
  }

  function Following(log: seq<Entry>, commit: nat, applied: nat): Peer {
    Peer(1, Follower, log, 1, 0, commit, applied, [1, 1], [0, 0], 0, 0, None, OnDisk(log, 0, None))
  }

  function Compacted(): Peer {
    Peer(0, Leader, [E1, E2], 1, 0, 2, 1, [1, 1], [0, 0], 1, 1, None, OnDisk([E1, E2], 1, Some(DATA)))
  }

  /** The first peer before and after it stands for election, and how the second one votes. */
  lemma Candidacy() returns (first: Peer, candidate: Peer, second: Peer)
    ensures first == Make(0, 2, Disk(None, None)) && second == Make(1, 2, Disk(None, None)) && candidate == first.ConvertToCandidate()
    ensures ElectionArgs(candidate) == VoteReq(0, 1, 0, 0) && !first.role.Leader?
    ensures HandleVote(second, VoteReq(0, 1, 0, 0)) == (Following([Sentinel()], 0, 0), VoteReply(1, true))
    ensures HandleVoteReply(candidate, 1, 1, VoteReply(1, true)).0 == Leading([Sentinel()], 0, 0)
  {
    first, second := Make(0, 2, Disk(None, None)), Make(1, 2, Disk(None, None));
    assert first.nextIndex == [1, 1] && first.matchIndex == [0, 0] && second.nextIndex == [1, 1] && second.matchIndex == [0, 0];
    candidate := first.ConvertToCandidate();
    assert candidate.ConvertToLeader().nextIndex == [1, 1] && candidate.ConvertToLeader().matchIndex == [0, 0];
  }

  /** The elections under way when the first peer leads. */
  function Elections(): seq<Election> {
    [Election(VoteReq(0, 1, 0, 0), 2, {}, {1})]
  }

  const VOTED: set<Packet> := {VoteAnswer(0, 1, VoteReply(1, true))}

  /** How the first peer comes to lead: the four steps and the clusters between them. */
  lemma Election0() returns (first: Peer, candidate: Peer, second: Peer, e: Election)
    ensures Boot(2) == Two(first, second, [], {}, {})
    ensures Steps(Two(first, second, [], {}, {}), Tick(0), Two(candidate, second, [], {}, {}))
    ensures Steps(Two(candidate, second, [], {}, {}), CallElection(0), Two(candidate, second, [e], {}, {}))
    ensures Steps(Two(candidate, second, [e], {}, {}), ReceiveVote(0, 1), Two(candidate, Following([Sentinel()], 0, 0), [e], VOTED, {}))
    ensures Steps(Two(candidate, Following([Sentinel()], 0, 0), [e], VOTED, {}), ReceiveVoteAnswer(VoteAnswer(0, 1, VoteReply(1, true))),
                  Two(Leading([Sentinel()], 0, 0), Following([Sentinel()], 0, 0), Elections(), VOTED, {}))
  {
    first, candidate, second := Candidacy();
    assert Boot(2).peers == [first, second];
    e := Election(VoteReq(0, 1, 0, 0), 1, {1}, {});
    Ticks(first, second);
    CallsElection(candidate, second);
    Votes(candidate, second, e);
    VoteAnswers(candidate, Following([Sentinel()], 0, 0), e, VOTED, VoteReply(1, true));
    CountedOnce(candidate, e);
  }

  lemma CountedOnce(candidate: Peer, e: Election)
    requires |candidate.log| >= 1 && candidate.currentTerm == 1 && candidate.role.Candidate? && |candidate.nextIndex| == 2
    requires e == Election(VoteReq(0, 1, 0, 0), 1, {1}, {})
    ensures Counted(candidate, e, VoteReply(1, true)) == Elections()[0]
  {
    assert {1} - {1} == {} && {} + {1} == {1};
  }

  lemma Hello()
    ensures MessageTo(Leading([Sentinel()], 0, 0), 1) == Outgoing.SendAppend(HELLO)
    ensures HandleAppend(Following([Sentinel()], 0, 0), HELLO) == (Following([Sentinel()], 0, 0), AppendReply(1, true, 0))
  {
    assert [Sentinel()][1..] == [];
  }

  lemma Started()
    ensures HandleStart(Leading([Sentinel()], 0, 0), E1.command).0 == Leading([Sentinel(), E1], 0, 0)
    ensures HandleStart(Leading([Sentinel(), E1], 0, 0), E2.command).0 == Leading([Sentinel(), E1, E2], 0, 0)
  {
    assert [Sentinel()] + [E1] == [Sentinel(), E1];
    assert [Sentinel(), E1] + [E2] == [Sentinel(), E1, E2];
  }

  /** In a cluster of two the leader's own copy is enough to commit, once any reply makes it look. */
  lemma CommittedAlone()
    ensures Leading([Sentinel(), E1, E2], 0, 0).Sane()
    ensures HandleAppendReply(Leading([Sentinel(), E1, E2], 0, 0), 1, HELLO, AppendReply(1, true, 0)) == Leading([Sentinel(), E1, E2], 2, 0)
  {
    var leader := Leading([Sentinel(), E1, E2], 0, 0);
    assert Matches(leader) == [2, 0];
    assert [2, 0][1..] == [0] && [0][1..] == [];
    assert Sorted([0]) == [0] && Insert(2, [0]) == [0, 2];
    assert MedianMatch(leader) == 2;
  }

  lemma BothMade()
    ensures MessageTo(Leading([Sentinel(), E1, E2], 2, 0), 1) == Outgoing.SendAppend(BOTH)
    ensures HandleAppend(Following([Sentinel()], 0, 0), BOTH) == (Following([Sentinel(), E1, E2], 2, 0), AppendReply(1, true, 0))
  {
    assert [Sentinel(), E1, E2][1..] == [E1, E2];
    assert Matched([Sentinel()], 0, [E1, E2], 0) == 0;
    assert [Sentinel()][..1] + [E1, E2][0..] == [Sentinel(), E1, E2];
  }

  lemma InstallMade()
    ensures TakeSnapshot(Leading([Sentinel(), E1, E2], 2, 1), 1, DATA) == Compacted()
    ensures MessageTo(Compacted(), 1) == SendInstall(INSTALL)
  {
    assert [Sentinel(), E1, E2][1..] == [E1, E2];
  }

  // ---------------------------------------------------------------- the run

  lemma ToElected()
    ensures Reachable(Two(Leading([Sentinel()], 0, 0), Following([Sentinel()], 0, 0), Elections(), VOTED, {}), 2)
  {
    var first, candidate, second, e := Election0();
    var f := Following([Sentinel()], 0, 0);
    ReachableBoot(2);
    ReachableOn(Boot(2), 2, Tick(0), Two(candidate, second, [], {}, {}));
    ReachableOn(Two(candidate, second, [], {}, {}), 2, CallElection(0), Two(candidate, second, [e], {}, {}));
    ReachableOn(Two(candidate, second, [e], {}, {}), 2, ReceiveVote(0, 1), Two(candidate, f, [e], VOTED, {}));
    ReachableOn(Two(candidate, f, [e], VOTED, {}), 2, ReceiveVoteAnswer(VoteAnswer(0, 1, VoteReply(1, true))),
                Two(Leading([Sentinel()], 0, 0), f, Elections(), VOTED, {}));
  }

  lemma ToCommitted() returns (net: set<Packet>)
    ensures Reachable(Two(Leading([Sentinel(), E1, E2], 2, 0), Following([Sentinel()], 0, 0), Elections(), net, {}), 2)
  {
    ToElected();
    var l0, l1, l2 := Leading([Sentinel()], 0, 0), Leading([Sentinel(), E1], 0, 0), Leading([Sentinel(), E1, E2], 0, 0);
    var f, es, hello := Following([Sentinel()], 0, 0), Elections(), AppendAnswer(1, HELLO, AppendReply(1, true, 0));
    Hello();
    Sends(l0, f, es, VOTED, {});
    net := VOTED + {AppendCall(1, HELLO)};
    ReachableOn(Two(l0, f, es, VOTED, {}), 2, Send(0, 1), Two(l0, f, es, net, {}));
    Appends(l0, f, es, net, {}, HELLO);
    ReachableOn(Two(l0, f, es, net, {}), 2, ReceiveAppend(AppendCall(1, HELLO)), Two(l0, f, es, net + {hello}, {}));
    net := net + {hello};
    Started();
    Starts(l0, f, es, net, {}, E1.command);
    ReachableOn(Two(l0, f, es, net, {}), 2, Start(0, E1.command), Two(l1, f, es, net, {}));
    Starts(l1, f, es, net, {}, E2.command);
    ReachableOn(Two(l1, f, es, net, {}), 2, Start(0, E2.command), Two(l2, f, es, net, {}));
    CommittedAlone();
    AppendAnswers(l2, f, es, net, {}, HELLO, AppendReply(1, true, 0));
    ReachableOn(Two(l2, f, es, net, {}), 2, ReceiveAppendAnswer(hello), Two(Leading([Sentinel(), E1, E2], 2, 0), f, es, net, {}));
  }

  lemma ToBothSent() returns (net: set<Packet>, d: Deliveries)
    ensures Reachable(Two(Compacted(), Following([Sentinel()], 0, 0), Elections(), net, d), 2)
    ensures AppendCall(1, BOTH) in net && InstallCall(1, INSTALL) in net
  {
    net := ToCommitted();
    var l0, l1, f, es := Leading([Sentinel(), E1, E2], 2, 0), Leading([Sentinel(), E1, E2], 2, 1), Following([Sentinel()], 0, 0), Elections();
    BothMade();
    Sends(l0, f, es, net, {});
    ReachableOn(Two(l0, f, es, net, {}), 2, Send(0, 1), Two(l0, f, es, net + {AppendCall(1, BOTH)}, {}));
    net := net + {AppendCall(1, BOTH)};
    LeaderApplies(l0, f, es, net, {});
    d := {} + {(0, 1, E1.command)};
    AppliedNext();
    ReachableOn(Two(l0, f, es, net, {}), 2, Apply(0), Two(l1, f, es, net, d));
    InstallMade();
    Snapshots(l1, f, es, net, d, 1, DATA);
    ReachableOn(Two(l1, f, es, net, d), 2, RaftCluster.Snapshot(0, 1, DATA), Two(Compacted(), f, es, net, d));
    Sends(Compacted(), f, es, net, d);
    ReachableOn(Two(Compacted(), f, es, net, d), 2, Send(0, 1), Two(Compacted(), f, es, net + {InstallCall(1, INSTALL)}, d));
    net := net + {InstallCall(1, INSTALL)};
  }

  lemma AppliedNext()
    ensures ApplyNext(Leading([Sentinel(), E1, E2], 2, 0)) == (Leading([Sentinel(), E1, E2], 2, 1), E1)
    ensures ApplyNext(Following([Sentinel(), E1, E2], 2, 0)) == (Following([Sentinel(), E1, E2], 2, 1), E1)
    ensures ApplyNext(Following([Sentinel(), E1, E2], 2, 1)) == (Following([Sentinel(), E1, E2], 2, 2), E2)
  {
  }

  lemma ToOvertaken() returns (net: set<Packet>, d: Deliveries)
    ensures Reachable(Two(Compacted(), Following([Sentinel(), E1, E2], 2, 2), Elections(), net, d), 2) && InstallCall(1, INSTALL) in net
  {
    net, d := ToBothSent();
    var log := [Sentinel(), E1, E2];
    var l, f, f0, f1, f2, es := Compacted(), Following([Sentinel()], 0, 0), Following(log, 2, 0), Following(log, 2, 1), Following(log, 2, 2), Elections();
    BothMade();
    AppliedNext();
    Appends(l, f, es, net, d, BOTH);
    var net' := net + {AppendAnswer(1, BOTH, AppendReply(1, true, 0))};
    ReachableOn(Two(l, f, es, net, d), 2, ReceiveAppend(AppendCall(1, BOTH)), Two(l, f0, es, net', d));
    net := net';
    FollowerApplies(l, f0, es, net, d);
    ReachableOn(Two(l, f0, es, net, d), 2, Apply(1), Two(l, f1, es, net, d + {(1, 1, E1.command)}));
    d := d + {(1, 1, E1.command)};
    FollowerApplies(l, f1, es, net, d);
    ReachableOn(Two(l, f1, es, net, d), 2, Apply(1), Two(l, f2, es, net, d + {(1, 2, E2.command)}));
    d := d + {(1, 2, E2.command)};
  }

  /** A snapshot older than what a follower has applied can be in flight, and the follower would take it over. */
  lemma StaleInstallReachable() returns (c: Cluster, call: Packet)
    ensures Reachable(c, 2) && call in c.net && call.InstallCall? && CanStep(c, ReceiveInstall(call))
    ensures var peer := c.peers[call.dst];
            && peer.lastIncludedIndex < call.install.lastIndex < peer.lastApplied && peer.pending.None?
            && |peer.log| >= 1 && HandleInstall(peer, call.install).0.lastIncludedIndex == call.install.lastIndex
  {
    var net, d := ToOvertaken();
    c, call := Two(Compacted(), Following([Sentinel(), E1, E2], 2, 2), Elections(), net, d), InstallCall(1, INSTALL);
  }
}
