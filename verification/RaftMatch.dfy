/** Match indices rest on acknowledgements: in every run, of the leader's own term and of the leader's own log. */
module RaftMatch {
  import opened KvStore
  import opened RaftTypes
  import opened RaftPeer
  import opened RaftCluster
  import opened AbstractRaft
  import opened RaftInvariant
  import opened RaftCoupling
  import opened RaftHandlers
  import opened RaftRefinement
  import opened RaftSafety

  /** Peer q answered a message of leader p in this term, and so acknowledged the leader's log up to index. */
  predicate Acknowledges(k: Packet, p: nat, q: nat, term: nat, index: nat) {
    match k
    case AppendAnswer(src, m, reply) =>
      src == q && m.leader == p && m.term == term && reply.success && m.prev + |m.entries| >= index
    case InstallAnswer(src, args, t) => src == q && args.leader == p && args.term == term && t <= term && args.lastIndex >= index
    case _ => false
  }

  ghost predicate Acknowledged(net: set<Packet>, p: nat, q: nat, term: nat, index: nat) {
    exists k :: k in net && Acknowledges(k, p, q, term, index)
  }

  /** Every positive match index of a leader was acknowledged. */
  ghost predicate Backed(net: set<Packet>, p: nat, peer: Peer) {
    peer.role.Leader? ==>
      forall q: nat {:trigger peer.matchIndex[q]} :: q < |peer.matchIndex| && peer.matchIndex[q] > 0 ==>
        Acknowledged(net, p, q, peer.currentTerm, peer.matchIndex[q])
  }

  ghost predicate AllBacked(c: Cluster) {
    forall p: nat {:trigger Backed(c.net, p, c.peers[p])} :: p < |c.peers| ==> Backed(c.net, p, c.peers[p])
  }

  lemma BackedLater(net: set<Packet>, net': set<Packet>, p: nat, peer: Peer)
    requires net <= net' && Backed(net, p, peer)
    ensures Backed(net', p, peer)
  {
    if peer.role.Leader? {
      forall q: nat | q < |peer.matchIndex| && peer.matchIndex[q] > 0
        ensures Acknowledged(net', p, q, peer.currentTerm, peer.matchIndex[q])
      {
        var k :| k in net && Acknowledges(k, p, q, peer.currentTerm, peer.matchIndex[q]);
        assert k in net';
      }
    }
  }

  /** A leader that stays one keeps its term and its match indices; a new one has none. */
  ghost predicate LeadsOn(peer: Peer, peer': Peer) {
    peer'.role.Leader? ==>
      || (peer.role.Leader? && peer'.currentTerm == peer.currentTerm && peer'.matchIndex == peer.matchIndex)
      || (forall q :: 0 <= q < |peer'.matchIndex| ==> peer'.matchIndex[q] == 0)
  }

  lemma LeadsOnBacked(net: set<Packet>, p: nat, peer: Peer, peer': Peer)
    requires Backed(net, p, peer) && LeadsOn(peer, peer')
    ensures Backed(net, p, peer')
  {
  }

  lemma AppendReplyBacked(net: set<Packet>, p: nat, q: nat, peer: Peer, m: AppendMsg, reply: AppendReply, peer': Peer)
    requires Backed(net, p, peer) && |peer.log| >= 1 && q < |peer.nextIndex| == |peer.matchIndex|
    requires AppendReplyOutcome(peer, q, m, reply, peer') && AppendAnswer(q, m, reply) in net && m.leader == p
    ensures Backed(net, p, peer')
  {
    if peer'.role.Leader? && peer'.matchIndex != peer.matchIndex {
      assert Acknowledges(AppendAnswer(q, m, reply), p, q, peer.currentTerm, m.prev + |m.entries|);
    }
  }

  lemma InstallReplyBacked(net: set<Packet>, p: nat, q: nat, peer: Peer, args: InstallMsg, term: nat, peer': Peer)
    requires Backed(net, p, peer) && |peer.log| >= 1 && q < |peer.nextIndex| == |peer.matchIndex|
    requires InstallReplyOutcome(peer, q, args, term, peer') && InstallAnswer(q, args, term) in net && args.leader == p
    ensures Backed(net, p, peer')
  {
    if peer'.role.Leader? && peer'.matchIndex != peer.matchIndex {
      assert Acknowledges(InstallAnswer(q, args, term), p, q, peer.currentTerm, args.lastIndex);
    }
  }

  lemma HandlerLeadsOn(c: Cluster, step: Step)
    requires CanStep(c, step) && InBounds(c, step) && (step.ReceiveAppend? || step.ReceiveInstall? || step.ReceiveVoteAnswer?)
    ensures LeadsOn(c.peers[Actor(c, step)], After(c, step).peers[Actor(c, step)])
  {
    var peer := c.peers[Actor(c, step)];
    if step.ReceiveAppend? {
      HandleAppendCases(peer, step.call.append);
    } else if step.ReceiveInstall? {
      HandleInstallCases(peer, step.call.install);
    }
  }

  lemma OtherLeadsOn(c: Cluster, step: Step)
    requires CanStep(c, step) && InBounds(c, step) && !step.ReceiveAppendAnswer? && !step.ReceiveInstallAnswer?
    requires !step.ReceiveAppend? && !step.ReceiveInstall? && !step.ReceiveVoteAnswer?
    ensures LeadsOn(c.peers[Actor(c, step)], After(c, step).peers[Actor(c, step)])
  {
  }

  lemma ActorBacked(c: Cluster, step: Step)
    requires CanStep(c, step) && InBounds(c, step) && AllBacked(c)
    ensures Backed(c.net, Actor(c, step), After(c, step).peers[Actor(c, step)])
  {
    var p := Actor(c, step);
    var peer, peer' := c.peers[p], After(c, step).peers[p];
    assert Backed(c.net, p, peer);
    if step.ReceiveAppendAnswer? {
      HandleAppendReplyCases(peer, step.answer.src, step.answer.append, step.answer.appendReply);
      AppendReplyBacked(c.net, p, step.answer.src, peer, step.answer.append, step.answer.appendReply, peer');
    } else if step.ReceiveInstallAnswer? {
      HandleInstallReplyCases(peer, step.answer.src, step.answer.install, step.answer.term);
      InstallReplyBacked(c.net, p, step.answer.src, peer, step.answer.install, step.answer.term, peer');
    } else if step.ReceiveAppend? || step.ReceiveInstall? || step.ReceiveVoteAnswer? {
      HandlerLeadsOn(c, step);
      LeadsOnBacked(c.net, p, peer, peer');
    } else {
      OtherLeadsOn(c, step);
      LeadsOnBacked(c.net, p, peer, peer');
    }
  }

  lemma NetGrows(c: Cluster, step: Step)
    requires CanStep(c, step) && InBounds(c, step)
    ensures c.net <= After(c, step).net && |After(c, step).peers| == |c.peers|
  {
  }

  lemma StepBacked(c: Cluster, step: Step)
    requires CanStep(c, step) && InBounds(c, step) && AllBacked(c)
    ensures AllBacked(After(c, step))
  {
    var c' := After(c, step);
    NetGrows(c, step);
    forall p: nat | p < |c'.peers|
      ensures Backed(c'.net, p, c'.peers[p])
    {
      if p == Actor(c, step) {
        ActorBacked(c, step);
      } else {
        OthersUntouched(c, step, p);
        assert Backed(c.net, p, c.peers[p]);
      }
      BackedLater(c.net, c'.net, p, c'.peers[p]);
    }
  }

  lemma {:induction false} TraceBacked(c: Cluster, steps: seq<Step>)
    requires AllBacked(c) && Trace(c, steps).Some?
    ensures AllBacked(Trace(c, steps).value)
    decreases |steps|
  {
    if |steps| > 0 {
      StepBacked(c, steps[0]);
      TraceBacked(After(c, steps[0]), steps[1..]);
    }
  }

  /**
   What an acknowledgement says of the leader's log: the entries of the message are the leader's own, and so is the
   entry, or the snapshot's last entry, that they follow on.
   */
  ghost predicate AgreesWithLeader(k: Packet, lp: Peer) {
    match k
    case AppendAnswer(_, m, _) =>
      && m.prev + |m.entries| <= lp.CurrIndex()
      && (lp.lastIncludedIndex <= m.prev ==> At(lp, m.prev).term == m.prevTerm)
      && (forall i: nat :: i < |m.entries| && lp.lastIncludedIndex < m.prev + 1 + i ==> At(lp, m.prev + 1 + i) == m.entries[i])
    case InstallAnswer(_, args, _) =>
      args.lastIndex <= lp.CurrIndex() && (lp.lastIncludedIndex <= args.lastIndex ==> At(lp, args.lastIndex).term == args.lastTerm)
    case _ => false
  }

  lemma AppendAgrees(a: AState, lp: Peer, p: nat, m: AppendMsg)
    requires Inv(a) && PeerCoupled(a, lp, p) && lp.role.Leader? && m in a.appends && m.term == lp.currentTerm
    ensures m.prev + |m.entries| <= lp.CurrIndex()
    ensures lp.lastIncludedIndex <= m.prev ==> At(lp, m.prev).term == m.prevTerm
    ensures forall i: nat :: i < |m.entries| && lp.lastIncludedIndex < m.prev + 1 + i ==> At(lp, m.prev + 1 + i) == m.entries[i]
    ensures forall i: nat :: i < |m.entries| && lp.lastIncludedIndex <= m.prev + 1 + i ==> At(lp, m.prev + 1 + i).term == m.entries[i].term
  {
    assert PeerOk(a, p);
    assert AppendOk(a, m);
  }

  lemma AnswerAgrees(c: Cluster, a: AState, p: nat, q: nat, k: Packet, index: nat)
    requires Inv(a) && Coupled(c, a) && p < |c.peers| && c.peers[p].role.Leader? && k in c.net
    requires Acknowledges(k, p, q, c.peers[p].currentTerm, index)
    ensures AgreesWithLeader(k, c.peers[p])
  {
    assert PacketOk(a, c.elections, k);
    assert PeerCoupled(a, c.peers[p], p);
    if k.AppendAnswer? {
      AppendAgrees(a, c.peers[p], p, k.append);
    } else {
      var m :| m in a.appends && StandsFor(m, k.install);
      AppendAgrees(a, c.peers[p], p, m);
      assert m.prev + 1 + (|m.entries| - 1) == k.install.lastIndex;
    }
  }

  /**
   Match indices are sound: for every leader and every other peer with a positive match index, a successful answer of
   that peer in the leader's term acknowledges at least that index, and what it acknowledged is the leader's log. Whether
   the peer is still in that term does not matter.
   */
  lemma MatchIndexAcknowledged(c: Cluster, n: nat, p: nat, q: nat) returns (k: Packet)
    requires Reachable(c, n) && p < |c.peers| && c.peers[p].role.Leader?
    requires q < |c.peers[p].matchIndex| && c.peers[p].matchIndex[q] > 0
    ensures k in c.net && Acknowledges(k, p, q, c.peers[p].currentTerm, c.peers[p].matchIndex[q])
    ensures AgreesWithLeader(k, c.peers[p])
  {
    var steps :| Legal(Boot(n), steps) && Trace(Boot(n), steps) == Some(c);
    TraceBacked(Boot(n), steps);
    assert Backed(c.net, p, c.peers[p]);
    k :| k in c.net && Acknowledges(k, p, q, c.peers[p].currentTerm, c.peers[p].matchIndex[q]);
    var a := ReachableCoupled(c, n);
    AnswerAgrees(c, a, p, q, k, c.peers[p].matchIndex[q]);
  }
}
