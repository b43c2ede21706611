/**
 The compacting cluster refines the abstract protocol, step by step and over every run. `Coupled` relates the two:
 peers, elections under way, packets in flight and deliveries. Every step that stays in bounds leads to a coupled
 state, and every step of a coupled cluster stays in bounds.
 */
module RaftRefinement {
  import opened KvStore
  import opened RaftTypes
  import opened RaftPeer
  import opened RaftCluster
  import opened AbstractRaft
  import opened RaftInvariant
  import opened RaftPreservation
  import opened RaftRuns
  import opened RaftCoupling
  import opened RaftHandlers

  /** Each counted vote was given; nobody is counted twice, the candidate not at all. */
  ghost predicate ElectionOk(a: AState, e: Election) {
    && e.args in a.requests && e.args.cand < |a.peers|
    && e.votes == 1 + |e.counted| && e.args.cand !in e.counted && e.args.cand !in e.waiting && e.counted !! e.waiting
    && forall q {:trigger q in e.counted} :: q in e.counted ==> q < |a.peers| && Voted(a, q, e.args)
  }

  ghost predicate HasStand(a: AState, args: InstallMsg) {
    exists m :: m in a.appends && StandsFor(m, args)
  }

  ghost predicate PacketOk(a: AState, elections: seq<Election>, packet: Packet) {
    match packet
    case VoteAnswer(e, src, reply) =>
      && e < |elections| && src < |a.peers| && src != elections[e].args.cand
      && (reply.granted ==> Voted(a, src, elections[e].args))
    case AppendCall(dst, m) => dst < |a.peers| && m in a.appends && m.leader != dst
    case AppendAnswer(src, m, reply) =>
      && src < |a.peers| && m in a.appends && m.leader != src
      && (reply.success ==> Ack(a.peers[src], m.term) >= m.prev + |m.entries|)
    case InstallCall(dst, args) => dst < |a.peers| && HasStand(a, args) && args.leader != dst
    case InstallAnswer(src, args, term) =>
      && src < |a.peers| && HasStand(a, args) && args.leader != src
      && (term > args.term || Ack(a.peers[src], args.term) >= args.lastIndex)
  }

  ghost predicate DeliveredOk(a: AState, d: (nat, nat, Option<Op>)) {
    exists e: Entry :: (d.1, e) in a.applied && e.command == d.2
  }

  ghost predicate Coupled(c: Cluster, a: AState) {
    && |c.peers| == |a.peers|
    && (forall p: nat {:trigger PeerCoupled(a, c.peers[p], p)} :: p < |c.peers| ==> PeerCoupled(a, c.peers[p], p))
    && (forall e: nat {:trigger ElectionOk(a, c.elections[e])} :: e < |c.elections| ==> ElectionOk(a, c.elections[e]))
    && (forall k {:trigger PacketOk(a, c.elections, k)} :: k in c.net ==> PacketOk(a, c.elections, k))
    && (forall d {:trigger DeliveredOk(a, d)} :: d in c.delivered ==> DeliveredOk(a, d))
  }

  // ---------------------------------------------------------------- what a step leaves alone

  lemma ElectionLater(a: AState, b: AState, e: Election)
    requires ElectionOk(a, e) && Later(a, b)
    ensures ElectionOk(b, e)
  {
    forall q | q in e.counted
      ensures q < |b.peers| && Voted(b, q, e.args)
    {
      VotedLater(a, b, q, e.args);
    }
  }

  lemma VotedLater(a: AState, b: AState, q: nat, req: VoteReq)
    requires Voted(a, q, req) && Later(a, b)
    ensures Voted(b, q, req)
  {
    var v :| v in a.votes && v.voter == q && v.req == req;
    assert v in b.votes;
  }

  ghost predicate SameArgs(elections: seq<Election>, elections': seq<Election>) {
    |elections| <= |elections'| && forall e :: 0 <= e < |elections| ==> elections'[e].args == elections[e].args
  }

  lemma PacketLater(a: AState, b: AState, elections: seq<Election>, elections': seq<Election>, k: Packet)
    requires PacketOk(a, elections, k) && Later(a, b) && SameArgs(elections, elections')
    ensures PacketOk(b, elections', k)
  {
    match k
    case VoteAnswer(e, src, reply) =>
      if reply.granted {
        VotedLater(a, b, src, elections[e].args);
      }
    case AppendCall(dst, m) =>
    case AppendAnswer(src, m, reply) =>
      assert Ack(b.peers[src], m.term) >= Ack(a.peers[src], m.term);
    case InstallCall(dst, args) => StandLater(a, b, args);
    case InstallAnswer(src, args, term) =>
      StandLater(a, b, args);
      assert Ack(b.peers[src], args.term) >= Ack(a.peers[src], args.term);
  }

  lemma StandLater(a: AState, b: AState, args: InstallMsg)
    requires HasStand(a, args) && Later(a, b)
    ensures HasStand(b, args)
  {
    var m :| m in a.appends && StandsFor(m, args);
    assert m in b.appends;
  }

  lemma DeliveredLater(a: AState, b: AState, d: (nat, nat, Option<Op>))
    requires DeliveredOk(a, d) && Later(a, b)
    ensures DeliveredOk(b, d)
  {
    var e: Entry :| (d.1, e) in a.applied && e.command == d.2;
    assert (d.1, e) in b.applied;
  }

  /** One peer moved, and the step justifies what it added. */
  lemma CoupledStep(c: Cluster, c': Cluster, a: AState, b: AState, p: nat)
    requires Inv(a) && Coupled(c, a) && Reaches(a, b) && PeerMoved(a, b, p)
    requires p < |c'.peers| == |c.peers| && c'.peers == c.peers[p := c'.peers[p]]
    requires PeerCoupled(b, c'.peers[p], p) && SameArgs(c.elections, c'.elections)
    requires forall e: nat :: e < |c'.elections| && (e >= |c.elections| || c'.elections[e] != c.elections[e]) ==> ElectionOk(b, c'.elections[e])
    requires forall k :: k in c'.net && k !in c.net ==> PacketOk(b, c'.elections, k)
    requires forall d :: d in c'.delivered && d !in c.delivered ==> DeliveredOk(b, d)
    ensures Inv(b) && Coupled(c', b)
  {
    ReachesLater(a, b);
    forall q: nat | q < |c'.peers|
      ensures PeerCoupled(b, c'.peers[q], q)
    {
      if q != p {
        assert PeerCoupled(a, c.peers[q], q);
        CoupledLater(a, b, c.peers[q], q);
      }
    }
    forall e: nat | e < |c'.elections|
      ensures ElectionOk(b, c'.elections[e])
    {
      if e < |c.elections| && c'.elections[e] == c.elections[e] {
        assert ElectionOk(a, c.elections[e]);
        ElectionLater(a, b, c.elections[e]);
      }
    }
    forall k | k in c'.net
      ensures PacketOk(b, c'.elections, k)
    {
      if k in c.net {
        assert PacketOk(a, c.elections, k);
        PacketLater(a, b, c.elections, c'.elections, k);
      }
    }
    forall d | d in c'.delivered
      ensures DeliveredOk(b, d)
    {
      if d in c.delivered {
        assert DeliveredOk(a, d);
        DeliveredLater(a, b, d);
      }
    }
  }

  // ---------------------------------------------------------------- every step

  lemma StepInBounds(c: Cluster, a: AState, step: Step)
    requires Inv(a) && Coupled(c, a) && CanStep(c, step)
    ensures InBounds(c, step)
  {
    var p := Actor(c, step);
    var peer := c.peers[p];
    assert PeerCoupled(a, peer, p);
    CoupledIsSane(a, peer, p);
    match step
    case ReceiveAppendAnswer(answer) =>
      assert PacketOk(a, c.elections, answer);
      AppendReplyInBounds(a, peer, p, answer.append);
    case ReceiveInstallAnswer(answer) =>
      assert PacketOk(a, c.elections, answer);
      var m :| m in a.appends && StandsFor(m, answer.install);
      AppendReplyInBounds(a, peer, p, m);
    case Apply(_) =>
    case _ =>
  }

  lemma TickStep(c: Cluster, a: AState, step: Step) returns (b: AState)
    requires Inv(a) && Coupled(c, a) && CanStep(c, step) && InBounds(c, step) && step.Tick?
    ensures Quietly(a, b) && Inv(b) && Coupled(After(c, step), b)
  {
    var p := step.p;
    assert PeerCoupled(a, c.peers[p], p);
    b := TickRefines(a, c.peers[p], p);
    QuietlyReaches(a, b);
    CoupledStep(c, After(c, step), a, b, p);
  }

  lemma StartStep(c: Cluster, a: AState, step: Step)
    requires Inv(a) && Coupled(c, a) && CanStep(c, step) && InBounds(c, step) && step.Start? && c.peers[step.p].role.Leader?
    ensures Enabled(a, Propose(step.p, step.command))
    ensures Inv(Next(a, Propose(step.p, step.command))) && Coupled(After(c, step), Next(a, Propose(step.p, step.command)))
  {
    var p := step.p;
    assert PeerCoupled(a, c.peers[p], p);
    StartRefines(a, c.peers[p], p, step.command);
    ReachesNext(a, Propose(p, step.command));
    CoupledStep(c, After(c, step), a, Next(a, Propose(p, step.command)), p);
  }

  /** Starting a command on a peer that does not lead changes nothing. */
  lemma RefusedStartStep(c: Cluster, step: Step)
    requires CanStep(c, step) && InBounds(c, step) && step.Start? && !c.peers[step.p].role.Leader?
    ensures After(c, step) == c
  {
  }

  /** A step inside one peer that sends nothing. */
  lemma LocalStep(c: Cluster, c': Cluster, a: AState, b: AState, p: nat)
    requires Inv(a) && Coupled(c, a) && Reaches(a, b) && PeerMoved(a, b, p) && p < |c'.peers| == |c.peers|
    requires c' == c.(peers := c.peers[p := c'.peers[p]], delivered := c'.delivered) && PeerCoupled(b, c'.peers[p], p)
    requires forall d :: d in c'.delivered && d !in c.delivered ==> DeliveredOk(b, d)
    ensures Inv(b) && Coupled(c', b)
  {
    CoupledStep(c, c', a, b, p);
  }

  /** Taking a snapshot, and having passed one on, are stuttering steps. */
  lemma StutterStep(c: Cluster, a: AState, step: Step)
    requires Inv(a) && Coupled(c, a) && CanStep(c, step) && InBounds(c, step) && (step.SnapshotSent? || step.Snapshot?)
    ensures Coupled(After(c, step), a)
  {
    StutterMoves(c, step);
    StutterCoupled(c, a, step);
    QuietlyItself(a);
    QuietlyReaches(a, a);
    LocalStep(c, After(c, step), a, a, step.p);
  }

  function Stuttered(peer: Peer, step: Step): Peer
    requires |peer.log| >= 1 && (step.SnapshotSent? || step.Snapshot?)
  {
    if step.Snapshot? then TakeSnapshot(peer, step.index, step.data) else peer.(pending := None)
  }

  lemma StutterCoupled(c: Cluster, a: AState, step: Step)
    requires Inv(a) && Coupled(c, a) && (step.SnapshotSent? || step.Snapshot?) && step.p < |c.peers| && |c.peers[step.p].log| >= 1
    requires step.Snapshot? ==> step.index <= c.peers[step.p].lastApplied
    ensures PeerCoupled(a, Stuttered(c.peers[step.p], step), step.p)
  {
    assert PeerCoupled(a, c.peers[step.p], step.p);
    if step.Snapshot? {
      SnapshotStutters(a, c.peers[step.p], step.p, step.index, step.data);
    }
  }

  lemma StutterMoves(c: Cluster, step: Step)
    requires CanStep(c, step) && InBounds(c, step) && (step.SnapshotSent? || step.Snapshot?)
    ensures After(c, step) == c.(peers := c.peers[step.p := Stuttered(c.peers[step.p], step)])
  {
  }

  lemma RestartStep(c: Cluster, a: AState, step: Step) returns (b: AState)
    requires Inv(a) && Coupled(c, a) && CanStep(c, step) && InBounds(c, step) && step.Restart?
    ensures Quietly(a, b) && Inv(b) && Coupled(After(c, step), b)
  {
    var p := step.p;
    var e := Event.Restart(p, c.peers[p].lastIncludedIndex);
    assert PeerCoupled(a, c.peers[p], p);
    RestartRefines(a, c.peers[p], p);
    b := Next(a, e);
    QuietlyNext(a, e);
    QuietlyReaches(a, b);
    CoupledStep(c, After(c, step), a, b, p);
  }

  lemma CallElectionStep(c: Cluster, a: AState, step: Step) returns (b: AState)
    requires Inv(a) && Coupled(c, a) && CanStep(c, step) && InBounds(c, step) && step.CallElection?
    ensures Quietly(a, b) && Inv(b) && Coupled(After(c, step), b)
  {
    var p := step.p;
    assert PeerCoupled(a, c.peers[p], p);
    b := CallElectionRefines(a, c.peers[p], p);
    QuietlyLater(a, b);
    CoupledLater(a, b, c.peers[p], p);
    QuietlyReaches(a, b);
    CoupledStep(c, After(c, step), a, b, p);
  }

  lemma ReceiveVoteStep(c: Cluster, a: AState, step: Step) returns (b: AState)
    requires Inv(a) && Coupled(c, a) && CanStep(c, step) && InBounds(c, step) && step.ReceiveVote?
    ensures Quietly(a, b) && Inv(b) && Coupled(After(c, step), b)
  {
    var p, e := step.p, step.election;
    assert PeerCoupled(a, c.peers[p], p) && ElectionOk(a, c.elections[e]);
    b := VoteRefines(a, c.peers[p], p, c.elections[e].args);
    QuietlyReaches(a, b);
    ReceiveVoteMoves(c, step);
    CoupledStep(c, After(c, step), a, b, p);
  }

  lemma ReceiveVoteMoves(c: Cluster, step: Step)
    requires CanStep(c, step) && InBounds(c, step) && step.ReceiveVote?
    ensures var (peer', reply) := HandleVote(c.peers[step.p], c.elections[step.election].args);
            After(c, step) == c.(peers := c.peers[step.p := peer'], net := c.net + {VoteAnswer(step.election, step.p, reply)})
  {
  }

  lemma ReceiveVoteAnswerStep(c: Cluster, a: AState, step: Step) returns (b: AState)
    requires Inv(a) && Coupled(c, a) && CanStep(c, step) && InBounds(c, step) && step.ReceiveVoteAnswer?
    ensures Quietly(a, b) && Inv(b) && Coupled(After(c, step), b)
  {
    var vote := step.vote;
    var e := c.elections[vote.election];
    var p := e.args.cand;
    assert PeerCoupled(a, c.peers[p], p) && ElectionOk(a, e) && PacketOk(a, c.elections, vote);
    b := VoteAnswerHandled(a, c.peers[p], e, vote.src, vote.voteReply);
    QuietlyReaches(a, b);
    ReceiveVoteAnswerMoves(c, step);
    CountedCoupled(c, a, b, vote.election, HandleVoteReply(c.peers[p], e.args.term, e.votes, vote.voteReply).0,
                   Counted(e, HandleVoteReply(c.peers[p], e.args.term, e.votes, vote.voteReply).1, vote.src));
  }

  lemma CountedCoupled(c: Cluster, a: AState, b: AState, i: nat, cp: Peer, e: Election)
    requires Inv(a) && Coupled(c, a) && i < |c.elections| && c.elections[i].args == e.args
    requires Reaches(a, b) && PeerMoved(a, b, e.args.cand) && e.args.cand < |c.peers|
    requires PeerCoupled(b, cp, e.args.cand) && ElectionOk(b, e)
    ensures Inv(b) && Coupled(c.(peers := c.peers[e.args.cand := cp], elections := c.elections[i := e]), b)
  {
    CoupledStep(c, c.(peers := c.peers[e.args.cand := cp], elections := c.elections[i := e]), a, b, e.args.cand);
  }

  function Counted(e: Election, votes: nat, src: nat): Election {
    Election(e.args, votes, e.waiting - {src}, if votes > e.votes then e.counted + {src} else e.counted)
  }

  lemma VoteAnswerHandled(a: AState, cp: Peer, e: Election, src: nat, reply: VoteReply) returns (b: AState)
    requires Inv(a) && PeerCoupled(a, cp, e.args.cand) && ElectionOk(a, e) && src in e.waiting && src < |a.peers|
    requires reply.granted ==> Voted(a, src, e.args)
    ensures Moves(a, b, e.args.cand) && PeerCoupled(b, HandleVoteReply(cp, e.args.term, e.votes, reply).0, e.args.cand)
    ensures ElectionOk(b, Counted(e, HandleVoteReply(cp, e.args.term, e.votes, reply).1, src))
  {
    b := VoteReplyRefines(a, cp, e.args.cand, e.args, e.votes, e.counted, src, reply);
    QuietlyLater(a, b);
    CountedOk(a, b, e, Counted(e, HandleVoteReply(cp, e.args.term, e.votes, reply).1, src), src);
  }

  lemma ReceiveVoteAnswerMoves(c: Cluster, step: Step)
    requires CanStep(c, step) && InBounds(c, step) && step.ReceiveVoteAnswer?
    ensures var vote, c' := step.vote, After(c, step);
            var e := c.elections[vote.election];
            var (peer', votes) := HandleVoteReply(c.peers[e.args.cand], e.args.term, e.votes, vote.voteReply);
            c' == c.(peers := c.peers[e.args.cand := peer'], elections := c.elections[vote.election := Counted(e, votes, vote.src)])
  {
  }

  lemma CountedOk(a: AState, b: AState, e: Election, e': Election, src: nat)
    requires ElectionOk(a, e) && Later(a, b) && src in e.waiting && src < |a.peers|
    requires e' == Election(e.args, e.votes, e.waiting - {src}, e.counted)
          || (Voted(a, src, e.args) && e' == Election(e.args, e.votes + 1, e.waiting - {src}, e.counted + {src}))
    ensures ElectionOk(b, e')
  {
    ElectionLater(a, b, e);
    if Voted(a, src, e.args) {
      VotedLater(a, b, src, e.args);
    }
  }

  lemma SendStep(c: Cluster, a: AState, step: Step) returns (b: AState)
    requires Inv(a) && Coupled(c, a) && CanStep(c, step) && InBounds(c, step) && step.Send?
    ensures Quietly(a, b) && Inv(b) && Coupled(After(c, step), b)
  {
    var p, q := step.p, step.q;
    var peer := c.peers[p];
    assert PeerCoupled(a, peer, p);
    if peer.nextIndex[q] > peer.lastIncludedIndex {
      b := SendAppendRefines(a, peer, p, q);
      assert PacketOk(b, c.elections, AppendCall(q, MessageTo(peer, q).args));
    } else {
      var m: AppendMsg;
      b, m := SendInstallRefines(a, peer, p, q);
      assert HasStand(b, MessageTo(peer, q).install);
      assert PacketOk(b, c.elections, InstallCall(q, MessageTo(peer, q).install));
    }
    QuietlyLater(a, b);
    CoupledLater(a, b, peer, p);
    QuietlyReaches(a, b);
    CoupledStep(c, After(c, step), a, b, p);
  }

  lemma ReceiveAppendStep(c: Cluster, a: AState, step: Step) returns (b: AState)
    requires Inv(a) && Coupled(c, a) && CanStep(c, step) && InBounds(c, step) && step.ReceiveAppend?
    ensures Quietly(a, b) && Inv(b) && Coupled(After(c, step), b)
  {
    var call := step.call;
    var p := call.dst;
    assert PeerCoupled(a, c.peers[p], p) && PacketOk(a, c.elections, call);
    var (peer', reply) := HandleAppend(c.peers[p], call.append);
    HandleAppendCases(c.peers[p], call.append);
    b := AppendRefines(a, c.peers[p], peer', p, call.append, reply.success);
    assert call.append in b.appends;
    assert PacketOk(b, c.elections, AppendAnswer(p, call.append, reply));
    QuietlyReaches(a, b);
    CoupledStep(c, After(c, step), a, b, p);
  }

  lemma ReceiveInstallStep(c: Cluster, a: AState, step: Step) returns (b: AState)
    requires Inv(a) && Coupled(c, a) && CanStep(c, step) && InBounds(c, step) && step.ReceiveInstall?
    ensures Quietly(a, b) && Inv(b) && Coupled(After(c, step), b)
  {
    var call := step.call;
    var p := call.dst;
    assert PeerCoupled(a, c.peers[p], p) && PacketOk(a, c.elections, call);
    b := InstallHandled(a, c.elections, c.peers[p], p, call.install);
    QuietlyReaches(a, b);
    ReceiveInstallMoves(c, step);
    CoupledStep(c, After(c, step), a, b, p);
  }

  lemma InstallHandled(a: AState, elections: seq<Election>, cp: Peer, p: nat, args: InstallMsg) returns (b: AState)
    requires Inv(a) && PeerCoupled(a, cp, p) && HasStand(a, args) && args.leader != p && |cp.log| >= 1
    ensures Quietly(a, b) && PeerMoved(a, b, p) && PeerCoupled(b, HandleInstall(cp, args).0, p)
    ensures PacketOk(b, elections, InstallAnswer(p, args, HandleInstall(cp, args).1))
  {
    var m :| m in a.appends && StandsFor(m, args);
    var (cp', term) := HandleInstall(cp, args);
    HandleInstallCases(cp, args);
    b := InstallRefines(a, cp, cp', p, m, args, term);
    InstallAnswered(a, b, elections, m, p, args, term);
  }

  lemma InstallAnswered(a: AState, b: AState, elections: seq<Election>, m: AppendMsg, p: nat, args: InstallMsg, term: nat)
    requires Inv(a) && Quietly(a, b) && m in a.appends && StandsFor(m, args) && p < |a.peers| == |b.peers| && args.leader != p
    requires term > args.term || Ack(b.peers[p], args.term) >= args.lastIndex
    ensures PacketOk(b, elections, InstallAnswer(p, args, term))
  {
    QuietlyLater(a, b);
    assert m in b.appends;
    assert HasStand(b, args);
  }

  lemma ReceiveInstallMoves(c: Cluster, step: Step)
    requires CanStep(c, step) && InBounds(c, step) && step.ReceiveInstall?
    ensures var p, args := step.call.dst, step.call.install;
            var (peer', term) := HandleInstall(c.peers[p], args);
            After(c, step) == c.(peers := c.peers[p := peer'], net := c.net + {InstallAnswer(p, args, term)})
  {
  }

  lemma AppendAnswerStep(c: Cluster, a: AState, step: Step) returns (b: AState)
    requires Inv(a) && Coupled(c, a) && CanStep(c, step) && InBounds(c, step) && step.ReceiveAppendAnswer?
    ensures Quietly(a, b) && Inv(b) && Coupled(After(c, step), b)
  {
    var answer := step.answer;
    var p, m, reply := Actor(c, step), answer.append, answer.appendReply;
    var peer := c.peers[p];
    assert PeerCoupled(a, peer, p) && PacketOk(a, c.elections, answer);
    HandleAppendReplyCases(peer, answer.src, m, reply);
    b := AppendReplyRefines(a, peer, HandleAppendReply(peer, answer.src, m, reply), p, answer.src, m, reply);
    QuietlyReaches(a, b);
    CoupledStep(c, After(c, step), a, b, p);
  }

  lemma InstallAnswerStep(c: Cluster, a: AState, step: Step) returns (b: AState)
    requires Inv(a) && Coupled(c, a) && CanStep(c, step) && InBounds(c, step) && step.ReceiveInstallAnswer?
    ensures Quietly(a, b) && Inv(b) && Coupled(After(c, step), b)
  {
    var answer := step.answer;
    var p, args := Actor(c, step), answer.install;
    var peer := c.peers[p];
    assert PeerCoupled(a, peer, p) && PacketOk(a, c.elections, answer);
    HandleInstallReplyCases(peer, answer.src, args, answer.term);
    b := InstallReplyRefines(a, peer, HandleInstallReply(peer, answer.src, args, answer.term), p, answer.src, args, answer.term);
    QuietlyReaches(a, b);
    CoupledStep(c, After(c, step), a, b, p);
  }

  lemma ApplyHandled(a: AState, cp: Peer, p: nat) returns (b: AState)
    requires Inv(a) && PeerCoupled(a, cp, p) && cp.lastApplied < cp.commitIndex
    ensures 0 <= cp.ToPhysical(cp.lastApplied + 1) < |cp.log|
    ensures Moves(a, b, p) && PeerCoupled(b, ApplyNext(cp).0, p) && DeliveredOk(b, (p, cp.lastApplied + 1, ApplyNext(cp).1.command))
  {
    b := ApplyRefines(a, cp, p);
  }

  lemma ApplyStep(c: Cluster, a: AState, step: Step) returns (b: AState)
    requires Inv(a) && Coupled(c, a) && CanStep(c, step) && InBounds(c, step) && step.Apply?
    ensures Quietly(a, b) && Inv(b) && Coupled(After(c, step), b)
  {
    var p := step.p;
    assert PeerCoupled(a, c.peers[p], p);
    b := ApplyHandled(a, c.peers[p], p);
    QuietlyReaches(a, b);
    Applied(c, p);
    DeliveredCoupled(c, a, b, p, ApplyNext(c.peers[p]).0, (p, c.peers[p].lastApplied + 1, ApplyNext(c.peers[p]).1.command));
  }

  lemma DeliveredCoupled(c: Cluster, a: AState, b: AState, p: nat, cp: Peer, d: (nat, nat, Option<Op>))
    requires Inv(a) && Coupled(c, a) && Reaches(a, b) && PeerMoved(a, b, p) && p < |c.peers|
    requires PeerCoupled(b, cp, p) && DeliveredOk(b, d)
    ensures Inv(b) && Coupled(c.(peers := c.peers[p := cp], delivered := c.delivered + {d}), b)
  {
    LocalStep(c, c.(peers := c.peers[p := cp], delivered := c.delivered + {d}), a, b, p);
  }

  lemma QuietStepRefines(c: Cluster, a: AState, step: Step) returns (b: AState)
    requires Inv(a) && Coupled(c, a) && CanStep(c, step) && InBounds(c, step) && !step.Start?
    ensures Quietly(a, b) && Inv(b) && Coupled(After(c, step), b)
  {
    match step
    case Tick(_) => b := TickStep(c, a, step);
    case CallElection(_) => b := CallElectionStep(c, a, step);
    case ReceiveVote(_, _) => b := ReceiveVoteStep(c, a, step);
    case ReceiveVoteAnswer(_) => b := ReceiveVoteAnswerStep(c, a, step);
    case Send(_, _) => b := SendStep(c, a, step);
    case ReceiveAppend(_) => b := ReceiveAppendStep(c, a, step);
    case ReceiveAppendAnswer(_) => b := AppendAnswerStep(c, a, step);
    case ReceiveInstall(_) => b := ReceiveInstallStep(c, a, step);
    case ReceiveInstallAnswer(_) => b := InstallAnswerStep(c, a, step);
    case Apply(_) => b := ApplyStep(c, a, step);
    case Restart(_) => b := RestartStep(c, a, step);
    case SnapshotSent(_) =>
      b := a;
      QuietlyItself(a);
      StutterStep(c, a, step);
    case Snapshot(_, _, _) =>
      b := a;
      QuietlyItself(a);
      StutterStep(c, a, step);
  }

  /** How the abstract protocol follows a step: a leader's Start is one proposal, anything else is a run without proposals. */
  ghost predicate Follows(c: Cluster, a: AState, step: Step, b: AState) {
    if step.Start? && step.p < |c.peers| && c.peers[step.p].role.Leader?
    then Enabled(a, Propose(step.p, step.command)) && b == Next(a, Propose(step.p, step.command))
    else Quietly(a, b)
  }

  lemma FollowsReaches(c: Cluster, a: AState, step: Step, b: AState)
    requires Follows(c, a, step, b)
    ensures Reaches(a, b)
  {
    if Quietly(a, b) {
      QuietlyReaches(a, b);
    } else {
      ReachesNext(a, Propose(step.p, step.command));
    }
  }

  /** Whatever a locked section of a compacting peer does, the abstract protocol can do too; and no slice access is out of bounds. */
  lemma StepRefines(c: Cluster, a: AState, step: Step) returns (b: AState)
    requires Inv(a) && Coupled(c, a) && CanStep(c, step)
    ensures InBounds(c, step) && Follows(c, a, step, b) && Inv(b) && Coupled(After(c, step), b)
  {
    StepInBounds(c, a, step);
    if !step.Start? {
      b := QuietStepRefines(c, a, step);
    } else if c.peers[step.p].role.Leader? {
      StartStep(c, a, step);
      b := Next(a, Propose(step.p, step.command));
    } else {
      RefusedStartStep(c, step);
      b := a;
      QuietlyItself(a);
    }
  }

  lemma BootCoupled(n: nat)
    requires n >= 1
    ensures Inv(Initial(n)) && Coupled(Boot(n), Initial(n))
  {
    InitialInv(n);
    forall p: nat | p < n
      ensures PeerCoupled(Initial(n), Boot(n).peers[p], p)
    {
      assert Boot(n).peers[p] == Make(p, n, Disk(None, None));
    }
  }

  /** Over every run: no panic, and a run of the abstract protocol from its start that ends in a coupled state. */
  lemma {:induction false} TraceRefines(c: Cluster, a: AState, steps: seq<Step>) returns (b: AState)
    requires Inv(a) && Coupled(c, a) && Legal(c, steps)
    ensures Trace(c, steps).Some? && Reaches(a, b) && Inv(b) && Coupled(Trace(c, steps).value, b)
    decreases |steps|
  {
    if |steps| == 0 {
      b := a;
      assert ValidRun(a, []) && Run(a, []) == a;
    } else {
      var m := StepRefines(c, a, steps[0]);
      FollowsReaches(c, a, steps[0], m);
      b := TraceRefines(After(c, steps[0]), m, steps[1..]);
      ReachesThen(a, m, b);
    }
  }
}
