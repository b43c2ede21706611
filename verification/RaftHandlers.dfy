/**
 The remaining sections of a peer against the abstract protocol: elections, votes and their counting, heartbeats and
 the replies to them, the commit index, client commands and the applier. For each there is a lemma that gives the
 abstract state the cluster is in afterwards.
 */
module RaftHandlers {
  import opened KvStore
  import opened RaftTypes
  import opened RaftPeer
  import opened AbstractRaft
  import opened RaftInvariant
  import opened RaftRuns
  import opened RaftCoupling

  // ---------------------------------------------------------------- elections

  lemma TickRefines(a: AState, cp: Peer, p: nat) returns (b: AState)
    requires Inv(a) && PeerCoupled(a, cp, p) && !cp.role.Leader?
    ensures Moves(a, b, p) && PeerCoupled(b, cp.ConvertToCandidate(), p)
  {
    assert PeerOk(a, p);
    b := Next(a, Timeout(p));
    QuietlyNext(a, Timeout(p));
  }

  lemma CallElectionRefines(a: AState, cp: Peer, p: nat) returns (b: AState)
    requires Inv(a) && PeerCoupled(a, cp, p)
    ensures Moves(a, b, p) && b.peers == a.peers && ElectionArgs(cp) in b.requests && ElectionArgs(cp).cand == p
  {
    assert PeerOk(a, p);
    b := Next(a, AskVotes(p));
    QuietlyNext(a, AskVotes(p));
    LastTermCoupled(cp, a.peers[p]);
  }

  lemma LastTermCoupled(cp: Peer, ap: APeer)
    requires Mirrors(cp, ap)
    ensures LastTerm(cp.log) == LastTerm(ap.log) && cp.CurrIndex() == |ap.log| - 1
  {
    if |cp.log| > 1 {
      assert cp.log[|cp.log| - 1] == ap.log[cp.lastIncludedIndex + |cp.log| - 1];
    }
  }

  lemma GrantRefines(a: AState, cp: Peer, p: nat, req: VoteReq) returns (b: AState)
    requires Inv(a) && PeerCoupled(a, cp, p) && req in a.requests && req.cand != p && req.term == cp.currentTerm
    requires cp.votedFor == NOBODY || cp.votedFor == req.cand
    requires UpToDate(req.lastIndex, req.lastTerm, a.peers[p].log)
    ensures Moves(a, b, p) && PeerCoupled(b, cp.(votedFor := req.cand).Persist(cp.disk.snapshot), p) && Voted(b, p, req)
  {
    assert PeerOk(a, p);
    b := Next(a, Grant(p, req));
    QuietlyNext(a, Grant(p, req));
    assert Vote(p, req, a.peers[p].log) in b.votes;
  }

  lemma VoteRefines(a: AState, cp: Peer, p: nat, req: VoteReq) returns (b: AState)
    requires Inv(a) && PeerCoupled(a, cp, p) && req in a.requests && req.cand != p
    ensures Moves(a, b, p) && PeerCoupled(b, HandleVote(cp, req).0, p)
    ensures HandleVote(cp, req).1.granted ==> Voted(b, p, req)
  {
    var m := AdoptRefines(a, cp, p, req.term);
    LastTermCoupled(cp.Adopt(req.term), m.peers[p]);
    b := m;
    if HandleVote(cp, req).1.granted {
      b := GrantRefines(m, cp.Adopt(req.term), p, req);
      QuietlyThen(a, m, b);
    }
  }

  lemma ElectRefines(a: AState, cp: Peer, p: nat, voters: set<nat>, req: VoteReq) returns (b: AState)
    requires Inv(a) && PeerCoupled(a, cp, p) && cp.role.Candidate? && req in a.requests && req.cand == p && req.term == cp.currentTerm
    requires ElectionQuorum(voters, |a.peers|) && forall q :: q in voters ==> q == p || Voted(a, q, req)
    ensures Moves(a, b, p) && PeerCoupled(b, cp.ConvertToLeader(), p)
  {
    assert PeerOk(a, p);
    assert RequestOk(a, req);
    b := Next(a, Elect(p, voters));
    QuietlyNext(a, Elect(p, voters));
    LastTermCoupled(cp, a.peers[p]);
  }

  lemma VoteReplyRefines(a: AState, cp: Peer, p: nat, req: VoteReq, votes: nat, counted: set<nat>, src: nat, reply: VoteReply)
    returns (b: AState)
    requires Inv(a) && PeerCoupled(a, cp, p) && req in a.requests && req.cand == p && p !in counted && src !in counted && src != p
    requires votes == 1 + |counted| && src < |a.peers| && forall q :: q in counted ==> q < |a.peers| && Voted(a, q, req)
    requires reply.granted ==> Voted(a, src, req)
    ensures Moves(a, b, p) && PeerCoupled(b, HandleVoteReply(cp, req.term, votes, reply).0, p)
  {
    if cp.currentTerm < reply.term {
      b := AdoptRefines(a, cp, p, reply.term);
    } else if cp.currentTerm == req.term && cp.role.Candidate? && reply.granted && votes + 1 > |cp.nextIndex| / 2 {
      var voters := counted + {src} + {p};
      assert |voters| == votes + 1;
      b := ElectRefines(a, cp, p, voters, req);
    } else {
      b := a;
      QuietlyItself(a);
    }
  }

  // ---------------------------------------------------------------- commit

  lemma CommitEnabled(a: AState, cp: Peer, p: nat, n: nat)
    requires Inv(a) && PeerCoupled(a, cp, p) && cp.role.Leader? && n == MedianMatch(cp) <= cp.CurrIndex()
    requires n > cp.commitIndex && cp.log[cp.ToPhysical(n)].term == cp.currentTerm
    ensures Enabled(a, Event.Commit(p, n, Reached(Matches(cp), n)))
  {
    MedianIsLargest(Matches(cp), n);
    ReachedSize(Matches(cp), n);
    MatchedAcks(a, cp, p, n);
    assert cp.log[cp.ToPhysical(n)] == a.peers[p].log[n];
  }

  lemma CommittedCoupled(a: AState, cp: Peer, p: nat, n: nat, quorum: set<nat>)
    requires PeerCoupled(a, cp, p) && Enabled(a, Event.Commit(p, n, quorum)) && cp.commitIndex < n <= cp.CurrIndex()
    ensures PeerCoupled(Next(a, Event.Commit(p, n, quorum)), cp.(commitIndex := n), p)
    ensures PeerMoved(a, Next(a, Event.Commit(p, n, quorum)), p)
  {
  }

  lemma UpdateCommitRefines(a: AState, cp: Peer, p: nat) returns (b: AState)
    requires Inv(a) && PeerCoupled(a, cp, p) && cp.role.Leader? && MedianMatch(cp) <= cp.CurrIndex()
    ensures Moves(a, b, p) && PeerCoupled(b, UpdateCommit(cp), p)
  {
    var n := MedianMatch(cp);
    if n > cp.commitIndex && cp.log[cp.ToPhysical(n)].term == cp.currentTerm {
      var quorum := Reached(Matches(cp), n);
      CommitEnabled(a, cp, p, n);
      b := Next(a, Event.Commit(p, n, quorum));
      QuietlyNext(a, Event.Commit(p, n, quorum));
      CommittedCoupled(a, cp, p, n, quorum);
    } else {
      b := a;
      QuietlyItself(a);
    }
  }

  /** A match index is never more than what the peer acknowledged in this term. */
  lemma MatchedAcks(a: AState, cp: Peer, p: nat, n: nat)
    requires Inv(a) && PeerCoupled(a, cp, p) && cp.role.Leader?
    ensures forall q :: q in Reached(Matches(cp), n) ==> q < |a.peers| && Ack(a.peers[q], cp.currentTerm) >= n
  {
    assert PeerOk(a, p);
    forall q | q in Reached(Matches(cp), n)
      ensures q < |a.peers| && Ack(a.peers[q], cp.currentTerm) >= n
    {
      if q != p {
        assert Matches(cp)[q] == cp.matchIndex[q];
      }
    }
  }

  // ---------------------------------------------------------------- heartbeats and their replies

  /** The messages of a term's leader are within its log. */
  lemma SentWithinLog(a: AState, cp: Peer, p: nat, m: AppendMsg)
    requires Inv(a) && PeerCoupled(a, cp, p) && m in a.appends && m.leader == p && cp.role.Leader? && cp.currentTerm == m.term
    ensures m.prev + |m.entries| <= cp.CurrIndex()
  {
    assert PeerOk(a, p);
    assert AppendOk(a, m);
  }

  lemma AppendAckedCoupled(a: AState, cp: Peer, p: nat, q: nat, acked: nat)
    requires PeerCoupled(a, cp, p) && cp.role.Leader? && q < |a.peers| && q != p && acked <= cp.CurrIndex()
    requires acked <= Ack(a.peers[q], cp.currentTerm)
    ensures PeerCoupled(a, AppendAcked(cp, q, acked + 1), p)
  {
  }

  lemma InstallAckedCoupled(a: AState, cp: Peer, p: nat, q: nat, acked: nat)
    requires PeerCoupled(a, cp, p) && cp.role.Leader? && q < |a.peers| && q != p && acked <= cp.CurrIndex()
    requires acked <= Ack(a.peers[q], cp.currentTerm)
    ensures PeerCoupled(a, InstallAcked(cp, q, acked), p)
  {
  }

  lemma AppendReplyInBounds(a: AState, cp: Peer, p: nat, m: AppendMsg)
    requires Inv(a) && PeerCoupled(a, cp, p) && m in a.appends && m.leader == p
    ensures cp.Sane() && (cp.role.Leader? && cp.currentTerm == m.term ==> m.prev + |m.entries| <= cp.CurrIndex())
  {
    if cp.role.Leader? && cp.currentTerm == m.term {
      SentWithinLog(a, cp, p, m);
    }
  }

  lemma AckedCommitRefines(a: AState, cp: Peer, acked: Peer, cp': Peer, p: nat, q: nat, last: nat) returns (b: AState)
    requires Inv(a) && PeerCoupled(a, cp, p) && cp.role.Leader? && q < |a.peers| && q != p && last <= cp.CurrIndex()
    requires last <= Ack(a.peers[q], cp.currentTerm)
    requires acked == AppendAcked(cp, q, last + 1) || acked == InstallAcked(cp, q, last)
    requires CommitOutcome(acked, cp')
    ensures Moves(a, b, p) && PeerCoupled(b, cp', p)
  {
    if acked == AppendAcked(cp, q, last + 1) {
      AppendAckedCoupled(a, cp, p, q, last);
    } else {
      InstallAckedCoupled(a, cp, p, q, last);
    }
    b := UpdateCommitRefines(a, acked, p);
  }

  ghost predicate CommitOutcome(acked: Peer, cp': Peer) {
    && |acked.log| >= 1 && acked.me < |acked.matchIndex| && acked.lastIncludedIndex <= acked.commitIndex
    && MedianMatch(acked) <= acked.CurrIndex() && cp' == UpdateCommit(acked)
  }

  /** The ways a reply can go: a later term, an acknowledgement, a rejection, or nothing to do. */
  ghost predicate AppendReplyOutcome(cp: Peer, q: nat, m: AppendMsg, reply: AppendReply, cp': Peer)
    requires |cp.log| >= 1 && q < |cp.nextIndex| == |cp.matchIndex|
  {
    if reply.term > cp.currentTerm then cp' == cp.Adopt(reply.term)
    else if cp.currentTerm != m.term || !cp.role.Leader? then cp' == cp
    else if reply.success then
      CommitOutcome(AppendAcked(cp, q, m.prev + |m.entries| + 1), cp')
    else cp' == cp || (0 < reply.conflictIndex < cp.nextIndex[q] && cp' == cp.(nextIndex := cp.nextIndex[q := reply.conflictIndex]))
  }

  lemma HandleAppendReplyCases(cp: Peer, q: nat, m: AppendMsg, reply: AppendReply)
    requires q < |cp.nextIndex| && cp.Sane()
    requires cp.role.Leader? && cp.currentTerm == m.term ==> m.prev + |m.entries| <= cp.CurrIndex()
    ensures AppendReplyOutcome(cp, q, m, reply, HandleAppendReply(cp, q, m, reply))
  {
    if cp.role.Leader? && cp.currentTerm == m.term {
      MedianInLog(AppendAcked(cp, q, m.prev + |m.entries| + 1));
    }
  }

  lemma AppendAckRefines(a: AState, cp: Peer, cp': Peer, p: nat, q: nat, m: AppendMsg) returns (b: AState)
    requires Inv(a) && PeerCoupled(a, cp, p) && cp.role.Leader? && cp.currentTerm == m.term && q < |a.peers| && q != p
    requires m.prev + |m.entries| <= Ack(a.peers[q], m.term) && m.prev + |m.entries| <= cp.CurrIndex()
    requires CommitOutcome(AppendAcked(cp, q, m.prev + |m.entries| + 1), cp')
    ensures Moves(a, b, p) && PeerCoupled(b, cp', p)
  {
    var last := m.prev + |m.entries|;
    b := AckedCommitRefines(a, cp, AppendAcked(cp, q, last + 1), cp', p, q, last);
  }

  lemma AppendReplyRefines(a: AState, cp: Peer, cp': Peer, p: nat, q: nat, m: AppendMsg, reply: AppendReply) returns (b: AState)
    requires Inv(a) && PeerCoupled(a, cp, p) && q < |a.peers| && q != p
    requires reply.success ==> Ack(a.peers[q], m.term) >= m.prev + |m.entries|
    requires cp.role.Leader? && cp.currentTerm == m.term ==> m.prev + |m.entries| <= cp.CurrIndex()
    requires AppendReplyOutcome(cp, q, m, reply, cp')
    ensures Moves(a, b, p) && PeerCoupled(b, cp', p)
  {
    if reply.term > cp.currentTerm {
      b := AdoptRefines(a, cp, p, reply.term);
    } else if reply.success && cp.currentTerm == m.term && cp.role.Leader? {
      b := AppendAckRefines(a, cp, cp', p, q, m);
    } else {
      b := a;
      QuietlyItself(a);
    }
  }

  ghost predicate InstallReplyOutcome(cp: Peer, q: nat, args: InstallMsg, term: nat, cp': Peer)
    requires |cp.log| >= 1 && q < |cp.nextIndex| == |cp.matchIndex|
  {
    if term > cp.currentTerm then cp' == cp.Adopt(term)
    else if cp.currentTerm != args.term || !cp.role.Leader? then cp' == cp
    else CommitOutcome(InstallAcked(cp, q, args.lastIndex), cp')
  }

  lemma HandleInstallReplyCases(cp: Peer, q: nat, args: InstallMsg, term: nat)
    requires q < |cp.nextIndex| && cp.Sane()
    requires cp.role.Leader? && cp.currentTerm == args.term ==> args.lastIndex <= cp.CurrIndex()
    ensures InstallReplyOutcome(cp, q, args, term, HandleInstallReply(cp, q, args, term))
  {
    if cp.role.Leader? && cp.currentTerm == args.term {
      MedianInLog(InstallAcked(cp, q, args.lastIndex));
    }
  }

  lemma InstallReplyRefines(a: AState, cp: Peer, cp': Peer, p: nat, q: nat, args: InstallMsg, term: nat) returns (b: AState)
    requires Inv(a) && PeerCoupled(a, cp, p) && q < |a.peers| && q != p
    requires term > args.term || Ack(a.peers[q], args.term) >= args.lastIndex
    requires cp.role.Leader? && cp.currentTerm == args.term ==> args.lastIndex <= cp.CurrIndex()
    requires InstallReplyOutcome(cp, q, args, term, cp')
    ensures Moves(a, b, p) && PeerCoupled(b, cp', p)
  {
    if term > cp.currentTerm {
      b := AdoptRefines(a, cp, p, term);
    } else if cp.currentTerm == args.term && cp.role.Leader? {
      b := AckedCommitRefines(a, cp, InstallAcked(cp, q, args.lastIndex), cp', p, q, args.lastIndex);
    } else {
      b := a;
      QuietlyItself(a);
    }
  }

  lemma SuffixCoupled(cp: Peer, ap: APeer, prev: nat)
    requires Mirrors(cp, ap) && cp.lastIncludedIndex <= prev < |ap.log|
    ensures cp.log[cp.ToPhysical(prev)].term == ap.log[prev].term
    ensures cp.log[cp.ToPhysical(prev + 1)..] == Slice(ap.log, prev, |ap.log| - 1)
  {
  }

  lemma HeartbeatIs(a: AState, cp: Peer, p: nat, q: nat)
    requires PeerCoupled(a, cp, p) && cp.role.Leader? && q < |a.peers| && cp.nextIndex[q] > cp.lastIncludedIndex
    ensures cp.nextIndex[q] <= cp.CurrIndex() + 1
    ensures var ap, prev := a.peers[p], cp.nextIndex[q] - 1;
            && prev <= |ap.log| - 1
            && MessageTo(cp, q)
               == Outgoing.SendAppend(AppendMsg(ap.term, p, prev, ap.log[prev].term, Slice(ap.log, prev, |ap.log| - 1), ap.commit))
  {
    SuffixCoupled(cp, a.peers[p], cp.nextIndex[q] - 1);
  }

  /** A heartbeat is the leader's log from some position to its end, with a commit index within it. */
  lemma SendAppendRefines(a: AState, cp: Peer, p: nat, q: nat) returns (b: AState)
    requires Inv(a) && PeerCoupled(a, cp, p) && cp.role.Leader? && q < |a.peers| && cp.nextIndex[q] > cp.lastIncludedIndex
    ensures cp.nextIndex[q] <= cp.CurrIndex() + 1
    ensures Moves(a, b, p) && b.peers == a.peers && MessageTo(cp, q).SendAppend? && MessageTo(cp, q).args in b.appends
    ensures MessageTo(cp, q).args.leader == p
  {
    var ap, prev := a.peers[p], cp.nextIndex[q] - 1;
    var last := |ap.log| - 1;
    HeartbeatIs(a, cp, p, q);
    b := Next(a, Event.SendAppend(p, prev, last, ap.commit));
    QuietlyNext(a, Event.SendAppend(p, prev, last, ap.commit));
  }

  lemma SendInstallRefines(a: AState, cp: Peer, p: nat, q: nat) returns (b: AState, m: AppendMsg)
    requires Inv(a) && PeerCoupled(a, cp, p) && cp.role.Leader? && q < |a.peers| && cp.nextIndex[q] <= cp.lastIncludedIndex
    ensures Moves(a, b, p) && b.peers == a.peers && MessageTo(cp, q).SendInstall?
    ensures m in b.appends && StandsFor(m, MessageTo(cp, q).install) && m.leader == p
  {
    assert PeerOk(a, p);
    assert LeaderOk(a, LastTerm(a.peers[p].log));
    var ap, base := a.peers[p], cp.lastIncludedIndex;
    b := Next(a, Event.SendAppend(p, 0, base, base));
    QuietlyNext(a, Event.SendAppend(p, 0, base, base));
    m := AppendMsg(ap.term, p, 0, ap.log[0].term, Slice(ap.log, 0, base), base);
    assert m.entries[base - 1] == ap.log[base];
  }

  // ---------------------------------------------------------------- clients and the applier

  /** A leader's new entry is one proposal. */
  lemma StartRefines(a: AState, cp: Peer, p: nat, command: Option<Op>)
    requires Inv(a) && PeerCoupled(a, cp, p) && cp.role.Leader?
    ensures Enabled(a, Propose(p, command))
    ensures var b := Next(a, Propose(p, command));
            PeerMoved(a, b, p) && PeerCoupled(b, HandleStart(cp, command).0, p)
  {
    assert PeerOk(a, p);
  }

  lemma ApplyRefines(a: AState, cp: Peer, p: nat) returns (b: AState)
    requires Inv(a) && PeerCoupled(a, cp, p) && cp.lastApplied < cp.commitIndex
    ensures 0 <= cp.ToPhysical(cp.lastApplied + 1) < |cp.log|
    ensures Moves(a, b, p) && PeerCoupled(b, ApplyNext(cp).0, p)
    ensures (cp.lastApplied + 1, ApplyNext(cp).1) in b.applied
  {
    var i := cp.lastApplied + 1;
    assert cp.log[cp.ToPhysical(i)] == a.peers[p].log[i];
    b := Next(a, Deliver(p, i));
    QuietlyNext(a, Deliver(p, i));
  }
}
