/**
 Every event of the abstract protocol keeps the invariant.

 The core is `CandidateHolds`: a candidate with an election quorum holds every entry of an earlier term, unless the
 entry is blocked. If it is not blocked, some voter acknowledged it, held it when voting, and found the candidate up
 to date; the term of the candidate's last entry then leads to a leader that holds it.
 */
module RaftPreservation {
  import opened KvStore
  import opened RaftTypes
  import opened Sets
  import opened AbstractRaft
  import opened RaftInvariant
  import opened RaftStability

  /** The event left logs, acknowledgements and leaders alone, and no new candidate appeared. */
  ghost predicate QuietStep(a: APeer, b: APeer) {
    && b.log == a.log && b.acks == a.acks && b.commit <= a.commit && a.term <= b.term
    && (b.term == a.term ==> a.votedFor == NOBODY || b.votedFor == a.votedFor)
    && (b.role == Follower || (b.role == a.role && b.term == a.term && (b.role.Candidate? ==> b.votedFor == a.votedFor)))
  }

  lemma KeepsAtLaterTerm(s: AState, peer: APeer, peer': APeer)
    requires Keeps(s, peer) && peer'.log == peer.log && peer'.acks == peer.acks && peer.term <= peer'.term
    requires forall t :: t in peer.acks ==> t <= peer.term
    ensures Keeps(s, peer')
  {
    forall t: nat, k: nat | t <= peer'.term && OwnEntry(s, t, k) && 1 <= k <= Ack(peer', t)
      ensures HoldsOrBlocked(s, peer'.log, t, k)
    {
      assert t in peer.acks;
    }
  }

  lemma LowerDurable(s: AState, log: seq<Entry>, c: nat, term: nat, c': nat, term': nat)
    requires Durable(s, log, c, term) && c' <= c && term <= term'
    ensures Durable(s, log, c', term')
  {
    var t: nat, k: nat :| DurableBy(s, log, c, term, t, k);
    assert DurableBy(s, log, c', term', t, k);
  }

  lemma QuietPeerOk(s: AState, s': AState, p: nat)
    requires p < |s.peers| && PeerOk(s, p) && Grows(s, s', p) && s'.leaders == s.leaders
    requires QuietStep(s.peers[p], s'.peers[p])
    ensures PeerOk(s', p)
  {
    var peer, peer' := s.peers[p], s'.peers[p];
    LogOkStable(s, s', p, peer.log);
    KeepsAtLaterTerm(s, peer, peer');
    KeepsStable(s, s', p, peer');
    LowerDurable(s, peer.log, peer.commit, peer.term, peer'.commit, peer'.term);
    DurableStable(s, s', p, peer.log, peer.log, peer'.commit, peer'.term, peer'.term);
    if peer'.role.Candidate? {
      var v :| v in s.votes && v.voter == p && v.req == MyRequest(peer, p);
      assert v in s'.votes;
    }
  }

  /** An event that only changes one peer quietly, and adds messages or history, has just those additions to justify. */
  lemma QuietInv(s: AState, s': AState, p: nat)
    requires Inv(s) && p < |s.peers| == |s'.peers| && s'.peers == s.peers[p := s'.peers[p]] && s'.leaders == s.leaders
    requires QuietStep(s.peers[p], s'.peers[p]) && s.votes <= s'.votes && OneVote(s')
    requires forall v :: v in s'.votes && v !in s.votes ==> VoteOk(s', v)
    requires forall r :: r in s'.requests && r !in s.requests ==> RequestOk(s', r)
    requires forall m :: m in s'.appends && m !in s.appends ==> AppendOk(s', m)
    requires forall a :: a in s'.applied && a !in s.applied ==> Decided(s', a.0, a.1)
    ensures Inv(s')
  {
    assert PeerOk(s, p);
    QuietPeerOk(s, s', p);
    InvFromChanges(s, s', p);
  }

  lemma QuietPreserves(s: AState, e: Event)
    requires Inv(s) && Enabled(s, e) && (e.Bump? || e.StepDown? || e.Restart?)
    ensures Inv(Next(s, e))
  {
    QuietInv(s, Next(s, e), e.p);
  }

  lemma VoteFromPeer(s: AState, p: nat, req: VoteReq)
    requires p < |s.peers| && PeerOk(s, p) && req.term == s.peers[p].term && s.peers[p].votedFor == req.cand
    requires UpToDate(req.lastIndex, req.lastTerm, s.peers[p].log)
    ensures VoteOk(s, Vote(p, req, s.peers[p].log))
  {
  }

  lemma TimeoutPeerOk(s: AState, s': AState, p: nat)
    requires Inv(s) && p < |s.peers| && Enabled(s, Timeout(p)) && s' == Next(s, Timeout(p))
    ensures PeerOk(s', p) && Grows(s, s', p) && NewEntriesBlocked(s, s')
    ensures s'.votes == s.votes + {Vote(p, MyRequest(s'.peers[p], p), s.peers[p].log)}
  {
    var peer, peer' := s.peers[p], s'.peers[p];
    assert PeerOk(s, p);
    var v := Vote(p, MyRequest(peer', p), peer.log);
    assert v in s'.votes;
    LogOkStable(s, s', p, peer.log);
    KeepsAtLaterTerm(s, peer, peer');
    KeepsStable(s, s', p, peer');
    DurableStable(s, s', p, peer.log, peer.log, peer.commit, peer.term, peer'.term);
    if peer'.term in s.leaders {
      assert LeaderOk(s, peer'.term);
    }
  }

  lemma TimeoutPreserves(s: AState, e: Event)
    requires Inv(s) && Enabled(s, e) && e.Timeout?
    ensures Inv(Next(s, e))
  {
    var s', p := Next(s, e), e.p;
    TimeoutPeerOk(s, s', p);
    VoteFromPeer(s', p, MyRequest(s'.peers[p], p));
    forall w | w in s.votes && w.voter == p
      ensures w.req.term < s'.peers[p].term
    {
      assert VoteOk(s, w);
    }
    InvFromChanges(s, s', p);
  }

  lemma AskVotesPreserves(s: AState, e: Event)
    requires Inv(s) && Enabled(s, e) && e.AskVotes?
    ensures Inv(Next(s, e))
  {
    QuietInv(s, Next(s, e), e.p);
  }

  lemma GrantedVoteOk(s: AState, s': AState, p: nat, req: VoteReq)
    requires Inv(s) && p < |s.peers| && Enabled(s, Grant(p, req)) && s' == Next(s, Grant(p, req))
    ensures VoteOk(s', Vote(p, req, s.peers[p].log)) && OneVote(s')
  {
    assert PeerOk(s, p);
    QuietPeerOk(s, s', p);
    VoteFromPeer(s', p, req);
    forall w | w in s.votes && w.voter == p && w.req.term == req.term
      ensures w.req.cand == req.cand
    {
      assert VoteOk(s, w);
    }
  }

  lemma GrantPreserves(s: AState, e: Event)
    requires Inv(s) && Enabled(s, e) && e.Grant?
    ensures Inv(Next(s, e))
  {
    GrantedVoteOk(s, Next(s, e), e.p, e.req);
    assert PeerOk(s, e.p);
    QuietInv(s, Next(s, e), e.p);
  }

  /** What is at or below a peer's commit index is decided. */
  lemma BelowCommitDecided(s: AState, p: nat, i: nat)
    requires Inv(s) && p < |s.peers| && i <= s.peers[p].commit
    ensures i < |s.peers[p].log| && Decided(s, i, s.peers[p].log[i])
  {
    assert PeerOk(s, p);
    var peer := s.peers[p];
    var t: nat, k: nat :| DurableBy(s, peer.log, peer.commit, peer.term, t, k);
    assert DecidedBy(s, i, peer.log[i], t, k);
  }

  lemma DeliverPreserves(s: AState, e: Event)
    requires Inv(s) && Enabled(s, e) && e.Deliver?
    ensures Inv(Next(s, e))
  {
    var s', p := Next(s, e), e.p;
    BelowCommitDecided(s, p, e.i);
    DecidedStable(s, s', p, e.i, s.peers[p].log[e.i]);
    QuietInv(s, s', p);
  }

  lemma SentAppendOk(s: AState, p: nat, prev: nat, last: nat, commit: nat)
    requires Inv(s) && p < |s.peers| && s.peers[p].role.Leader? && prev <= last < |s.peers[p].log|
    requires commit <= last && commit <= s.peers[p].commit
    ensures AppendOk(s, AppendMsg(s.peers[p].term, p, prev, s.peers[p].log[prev].term, Slice(s.peers[p].log, prev, last), commit))
  {
    var peer := s.peers[p];
    assert PeerOk(s, p);
    LowerDurable(s, peer.log, peer.commit, peer.term, commit, peer.term);
  }

  lemma SendAppendPreserves(s: AState, e: Event)
    requires Inv(s) && Enabled(s, e) && e.SendAppend?
    ensures Inv(Next(s, e))
  {
    var s', p := Next(s, e), e.p;
    var peer := s.peers[p];
    SentAppendOk(s, p, e.prev, e.last, e.commit);
    AppendOkStable(s, s', p, AppendMsg(peer.term, p, e.prev, peer.log[e.prev].term, Slice(peer.log, e.prev, e.last), e.commit));
    QuietInv(s, s', p);
  }

  /** A commit quorum of acknowledgements of an entry of the current term makes the leader's log durable up to it. */
  lemma QuorumDurable(s: AState, p: nat, n: nat, quorum: set<nat>)
    requires Inv(s) && p < |s.peers| && Enabled(s, Commit(p, n, quorum))
    ensures Durable(s, s.peers[p].log, n, s.peers[p].term)
  {
    var peer := s.peers[p];
    assert PeerOk(s, p);
    assert CommittedBy(s, peer.term, n, quorum);
    assert DurableBy(s, peer.log, n, peer.term, peer.term, n);
  }

  lemma CommitPeerOk(s: AState, s': AState, p: nat, n: nat)
    requires p < |s.peers| && PeerOk(s, p) && n < |s.peers[p].log| && s.peers[p].role.Leader?
    requires Durable(s, s.peers[p].log, n, s.peers[p].term)
    requires s' == s.(peers := s.peers[p := s.peers[p].(commit := n)])
    ensures Grows(s, s', p) && PeerOk(s', p)
  {
    var peer := s.peers[p];
    DurableStable(s, s', p, peer.log, peer.log, n, peer.term, peer.term);
    LogOkStable(s, s', p, peer.log);
    KeepsStable(s, s', p, s'.peers[p]);
  }

  lemma CommitPreserves(s: AState, e: Event)
    requires Inv(s) && Enabled(s, e) && e.Commit?
    ensures Inv(Next(s, e))
  {
    QuorumDurable(s, e.p, e.n, e.quorum);
    assert PeerOk(s, e.p);
    CommitPeerOk(s, Next(s, e), e.p, e.n);
    InvFromChanges(s, Next(s, e), e.p);
  }

  // ---------------------------------------------------------------- proposing

  ghost predicate Proposed(s: AState, s': AState, p: nat, command: Option<Op>) {
    && Inv(s) && p < |s.peers| && s.peers[p].role.Leader? && Enabled(s, Propose(p, command))
    && s' == Next(s, Propose(p, command))
  }

  lemma ProposeGrows(s: AState, s': AState, p: nat, command: Option<Op>)
    requires Proposed(s, s', p, command)
    ensures Grows(s, s', p) && s.peers[p].term > 0
  {
    var peer, peer' := s.peers[p], s'.peers[p];
    assert PeerOk(s, p);
    forall t: nat
      ensures Ack(peer', t) >= Ack(peer, t) && (t < peer.term ==> Ack(peer', t) == Ack(peer, t))
    {
    }
  }

  /** The electors of a later leader have left the term without the new entry. */
  lemma ProposedBlocked(s: AState, s': AState, p: nat, command: Option<Op>, u: nat)
    requires Proposed(s, s', p, command) && u in s.leaders && u > s.peers[p].term
    ensures Blocked(s', s.peers[p].term, |s.peers[p].log|)
  {
    var T, k := s.peers[p].term, |s.peers[p].log|;
    assert PeerOk(s, p);
    assert LeaderOk(s, u);
    forall q: nat | q in s.leaders[u].voters
      ensures s'.peers[q].term > T && Ack(s'.peers[q], T) < k
    {
      assert PeerOk(s, q);
    }
    assert BlockedBy(s', T, k, s.leaders[u].voters);
  }

  lemma ProposeBlocks(s: AState, s': AState, p: nat, command: Option<Op>)
    requires Proposed(s, s', p, command)
    ensures NewEntriesBlocked(s, s')
  {
    assert PeerOk(s, p);
    forall t: nat, j: nat, u: nat | OwnEntry(s', t, j) && !OwnEntry(s, t, j) && t < u && u in s'.leaders
      ensures Blocked(s', t, j)
    {
      ProposedBlocked(s, s', p, command, u);
    }
  }

  lemma ProposePreserves(s: AState, e: Event)
    requires Inv(s) && Enabled(s, e) && e.Propose?
    ensures Inv(Next(s, e))
  {
    var s', p := Next(s, e), e.p;
    assert Proposed(s, s', p, e.command);
    ProposeGrows(s, s', p, e.command);
    ProposeBlocks(s, s', p, e.command);
    ProposedLogOk(s, s', p, e.command);
    ProposerOk(s, s', p, e.command);
    InvFromChanges(s, s', p);
  }

  lemma ExtendedLogOk(s: AState, s': AState, u: nat, entry: Entry)
    requires u in s.leaders && LeaderLogOk(s, u) && entry.term == u && entry.index == |s.leaders[u].log|
    requires s'.leaders == s.leaders[u := s.leaders[u].(log := s.leaders[u].log + [entry])]
    ensures LeaderLogOk(s', u)
  {
    var log, log' := s.leaders[u].log, s'.leaders[u].log;
    forall i: nat | i < |log'|
      ensures EntryOk(s', log', i)
    {
      if i < |log| {
        assert log'[i] == log[i];
        assert EntryOk(s, log, i);
      }
    }
  }

  lemma ProposedLogOk(s: AState, s': AState, p: nat, command: Option<Op>)
    requires Proposed(s, s', p, command)
    ensures LeaderLogOk(s', s.peers[p].term)
  {
    var u := s.peers[p].term;
    assert PeerOk(s, p);
    assert LeaderOk(s, u);
    ExtendedLogOk(s, s', u, Entry(u, command, |s.peers[p].log|));
  }

  lemma ProposerOk(s: AState, s': AState, p: nat, command: Option<Op>)
    requires Proposed(s, s', p, command)
    ensures PeerOk(s', p)
  {
    var peer, peer' := s.peers[p], s'.peers[p];
    var T := peer.term;
    ProposeGrows(s, s', p, command);
    assert PeerOk(s, p);
    DurableStable(s, s', p, peer.log, peer'.log, peer.commit, T, T);
    forall t: nat, j: nat | t <= T && OwnEntry(s', t, j) && 1 <= j <= Ack(peer', t)
      ensures HoldsOrBlocked(s', peer'.log, t, j)
    {
      if t < T {
        assert LeaderStep(s.leaders[t], s'.leaders[t], p);
        assert OwnEntry(s, t, j);
        HoldsOrBlockedStable(s, s', p, peer.log, peer'.log, t, j);
      } else {
        assert AgreeTo(peer'.log, s'.leaders[T].log, j);
      }
    }
    forall t | t in peer'.acks
      ensures t <= T && t in s'.leaders && peer'.acks[t] < |s'.leaders[t].log|
    {
      if t != T {
        assert LeaderStep(s.leaders[t], s'.leaders[t], p);
      }
    }
  }

  // ---------------------------------------------------------------- accepting entries

  /** Log matching: a log that shares an index and a term with a leader's log shares everything before it. */
  lemma LogMatchesLeader(s: AState, log: seq<Entry>, u: nat, i: nat)
    requires Inv(s) && LogOk(s, log) && u in s.leaders && i < |log| && i < |s.leaders[u].log|
    requires log[i].term == s.leaders[u].log[i].term
    ensures AgreeTo(log, s.leaders[u].log, i)
  {
    var last := LastTerm(log);
    assert LeaderOk(s, u) && LeaderOk(s, last);
    assert EntryOk(s, s.leaders[u].log, i) && EntryOk(s, s.leaders[last].log, i);
  }

  ghost predicate SliceOf(entries: seq<Entry>, prev: nat, log: seq<Entry>) {
    prev + |entries| < |log| && forall i :: 0 <= i < |entries| ==> entries[i] == log[prev + 1 + i]
  }

  /** Where the entries of the leader of term u first differ from the log. */
  lemma MatchedAgrees(s: AState, log: seq<Entry>, u: nat, prev: nat, entries: seq<Entry>)
    requires Inv(s) && LogOk(s, log) && u in s.leaders && prev < |log|
    requires SliceOf(entries, prev, s.leaders[u].log) && log[prev].term == s.leaders[u].log[prev].term
    ensures AgreeTo(log, s.leaders[u].log, prev + Matched(log, prev, entries, 0))
  {
    var r := Matched(log, prev, entries, 0);
    if r > 0 {
      assert log[prev + 1 + (r - 1)].term == entries[r - 1].term;
      assert log[prev + r].term == s.leaders[u].log[prev + r].term;
    }
    LogMatchesLeader(s, log, u, prev + r);
  }

  /** Whatever both logs agree with another log on, the new log agrees with it on too. */
  ghost predicate Absorbs(log: seq<Entry>, leader: seq<Entry>, log': seq<Entry>) {
    forall x: seq<Entry>, k: nat {:trigger AgreeTo(log', x, k)} ::
      AgreeTo(log, x, k) && AgreeTo(leader, x, k) ==> AgreeTo(log', x, k)
  }

  /** A merged log holds the leader's entries, and still holds all that both logs held before. */
  lemma MergeHolds(log: seq<Entry>, leader: seq<Entry>, prev: nat, entries: seq<Entry>)
    requires prev < |log| && SliceOf(entries, prev, leader)
    requires AgreeTo(log, leader, prev + Matched(log, prev, entries, 0))
    ensures AgreeTo(Merge(log, prev, entries), leader, prev + |entries|)
    ensures Merge(log, prev, entries) == log || |Merge(log, prev, entries)| == prev + |entries| + 1
    ensures Absorbs(log, leader, Merge(log, prev, entries))
  {
    var r := Matched(log, prev, entries, 0);
    var log' := Merge(log, prev, entries);
    if r < |entries| {
      var at := prev + 1 + r;
      assert log' == log[..at] + entries[r..];
      forall i | 0 <= i <= prev + |entries|
        ensures log'[i] == leader[i]
      {
        if i >= at {
          assert log'[i] == entries[i - prev - 1];
        }
      }
      forall x: seq<Entry>, k: nat | AgreeTo(log, x, k) && AgreeTo(leader, x, k)
        ensures AgreeTo(log', x, k)
      {
        assert entries[r] == leader[at];
        assert k < at;
      }
    }
  }

  ghost predicate Accepted(s: AState, s': AState, p: nat, m: AppendMsg) {
    && Inv(s) && p < |s.peers| && m in s.appends && Enabled(s, Accept(p, m)) && s' == Next(s, Accept(p, m))
  }

  /** What the follower's log and the leader's log have to do with each other after a merge. */
  ghost predicate Merged(log: seq<Entry>, leader: seq<Entry>, log': seq<Entry>, last: nat) {
    AgreeTo(log', leader, last) && (log' == log || |log'| == last + 1) && Absorbs(log, leader, log')
  }

  lemma MergedLog(s: AState, log: seq<Entry>, m: AppendMsg)
    requires Inv(s) && LogOk(s, log) && m in s.appends && m.prev < |log| && log[m.prev].term == m.prevTerm
    ensures m.term in s.leaders && Merged(log, s.leaders[m.term].log, Merge(log, m.prev, m.entries), m.prev + |m.entries|)
  {
    assert AppendOk(s, m);
    assert SliceOf(m.entries, m.prev, s.leaders[m.term].log);
    MatchedAgrees(s, log, m.term, m.prev, m.entries);
    MergeHolds(log, s.leaders[m.term].log, m.prev, m.entries);
  }

  /** The accepting peer's new log, seen from outside. */
  lemma AcceptedLog(s: AState, s': AState, p: nat, m: AppendMsg)
    requires Accepted(s, s', p, m)
    ensures m.term in s.leaders && Merged(s.peers[p].log, s.leaders[m.term].log, s'.peers[p].log, m.prev + |m.entries|)
    ensures PeerOk(s, p) && LeaderOk(s, m.term) && AppendOk(s, m)
  {
    MergedLog(s, s.peers[p].log, m) by {
      assert PeerOk(s, p);
    }
  }

  lemma AcceptGrows(s: AState, s': AState, p: nat, m: AppendMsg)
    requires Accepted(s, s', p, m)
    ensures Grows(s, s', p) && NewEntriesBlocked(s, s')
    ensures !s.peers[p].role.Leader?
  {
    assert PeerOk(s, p) && AppendOk(s, m);
    var peer, peer' := s.peers[p], s'.peers[p];
    forall t: nat
      ensures Ack(peer', t) >= Ack(peer, t) && (t < peer.term ==> Ack(peer', t) == Ack(peer, t))
    {
    }
  }

  lemma LogOkFromLeader(s: AState, log: seq<Entry>, u: nat)
    requires Inv(s) && u in s.leaders && |log| >= 1 && AgreeTo(log, s.leaders[u].log, |log| - 1)
    ensures LogOk(s, log) && LastTerm(log) <= u
  {
    assert LeaderOk(s, u);
    assert EntryOk(s, s.leaders[u].log, |log| - 1);
  }

  lemma AcceptKeeps(s: AState, s': AState, p: nat, m: AppendMsg)
    requires Accepted(s, s', p, m)
    ensures Keeps(s, s'.peers[p])
  {
    var peer, peer' := s.peers[p], s'.peers[p];
    AcceptedLog(s, s', p, m);
    var leader := s.leaders[m.term].log;
    forall t: nat, k: nat | t <= peer'.term && OwnEntry(s, t, k) && 1 <= k <= Ack(peer', t)
      ensures HoldsOrBlocked(s, peer'.log, t, k)
    {
      if t < m.term {
        assert HoldsOrBlocked(s, peer.log, t, k);
        assert HoldsOrBlocked(s, leader, t, k);
      } else if k <= m.prev + |m.entries| {
        assert AgreeTo(peer'.log, leader, k);
      } else {
        assert HoldsOrBlocked(s, peer.log, t, k);
        assert AgreeTo(leader, leader, k);
      }
    }
  }

  /** What a peer has committed is part of the log of every leader it may follow. */
  lemma DurableInLeader(s: AState, log: seq<Entry>, c: nat, u: nat)
    requires Inv(s) && u in s.leaders && Durable(s, log, c, u)
    ensures AgreeTo(s.leaders[u].log, log, c)
  {
    var t: nat, k: nat :| DurableBy(s, log, c, u, t, k);
    CommittedNotBlocked(s, t, k);
    assert LeaderOk(s, u);
    if t < u {
      assert OwnEntry(s, t, k);
      assert HoldsOrBlocked(s, s.leaders[u].log, t, k);
    }
  }

  lemma MergedDurable(s: AState, log: seq<Entry>, log': seq<Entry>, c: nat, term: nat)
    requires Durable(s, log, c, term) && AgreeTo(log', log, c)
    ensures Durable(s, log', c, term)
  {
    var t: nat, k: nat :| DurableBy(s, log, c, term, t, k);
    assert DurableBy(s, log', c, term, t, k);
  }

  /** Accepting never loses a committed entry, and the new commit index is that of the leader's log. */
  lemma AcceptDurable(s: AState, s': AState, p: nat, m: AppendMsg)
    requires Accepted(s, s', p, m)
    ensures s'.peers[p].commit < |s'.peers[p].log|
    ensures Durable(s, s'.peers[p].log, s'.peers[p].commit, m.term)
    ensures AgreeTo(s'.peers[p].log, s.peers[p].log, s.peers[p].commit)
    ensures s'.peers[p].commit == Max(s.peers[p].commit, m.commit)
  {
    var peer, peer' := s.peers[p], s'.peers[p];
    AcceptedLog(s, s', p, m);
    var leader := s.leaders[m.term].log;
    DurableInLeader(s, peer.log, peer.commit, m.term);
    assert AgreeTo(peer.log, peer.log, peer.commit);
    assert AgreeTo(peer'.log, peer.log, peer.commit);
    MergedDurable(s, peer.log, peer'.log, peer.commit, m.term);
    MergedDurable(s, leader, peer'.log, m.commit, m.term);
  }

  lemma AcceptedPeerOk(s: AState, s': AState, p: nat, m: AppendMsg)
    requires Accepted(s, s', p, m) && Grows(s, s', p) && !s.peers[p].role.Leader?
    ensures PeerOk(s', p)
  {
    var peer, peer' := s.peers[p], s'.peers[p];
    AcceptKeeps(s, s', p, m);
    AcceptDurable(s, s', p, m);
    AcceptAcks(s, s', p, m);
    AcceptLogOk(s, s', p, m);
    LogOkStable(s, s', p, peer'.log);
    KeepsStable(s, s', p, peer');
    DurableStable(s, s', p, peer'.log, peer'.log, peer'.commit, m.term, m.term);
    assert s'.leaders == s.leaders;
  }

  lemma AcceptLogOk(s: AState, s': AState, p: nat, m: AppendMsg)
    requires Accepted(s, s', p, m)
    ensures LogOk(s, s'.peers[p].log) && LastTerm(s'.peers[p].log) <= m.term
  {
    AcceptedLog(s, s', p, m);
    if s'.peers[p].log != s.peers[p].log {
      LogOkFromLeader(s, s'.peers[p].log, m.term);
    }
  }

  lemma AcceptPreserves(s: AState, e: Event)
    requires Inv(s) && Enabled(s, e) && e.Accept?
    ensures Inv(Next(s, e))
  {
    var s', p, m := Next(s, e), e.p, e.msg;
    AcceptGrows(s, s', p, m);
    AcceptedPeerOk(s, s', p, m);
    InvFromChanges(s, s', p);
  }

  lemma AcceptAcks(s: AState, s': AState, p: nat, m: AppendMsg)
    requires Accepted(s, s', p, m)
    ensures forall t :: t in s'.peers[p].acks ==> t <= s'.peers[p].term && t in s.leaders && s'.peers[p].acks[t] < |s.leaders[t].log|
    ensures AgreeTo(s'.peers[p].log, s.leaders[m.term].log, Ack(s'.peers[p], m.term))
  {
    AcceptedLog(s, s', p, m);
    var leader := s.leaders[m.term].log;
    if m.term in s.peers[p].acks {
      assert AgreeTo(leader, leader, s.peers[p].acks[m.term]);
      assert AgreeTo(s'.peers[p].log, leader, s.peers[p].acks[m.term]);
    }
  }

  // ---------------------------------------------------------------- elections

  ghost predicate Elected(s: AState, s': AState, p: nat, voters: set<nat>) {
    && Inv(s) && p < |s.peers| && Enabled(s, Elect(p, voters)) && s' == Next(s, Elect(p, voters))
    && s.peers[p].term !in s.leaders
  }

  /** The two election quorums of one term share a voter, who voted once. */
  lemma SameLeader(s: AState, p: nat, voters: set<nat>, u: nat)
    requires Inv(s) && ElectionQuorum(voters, |s.peers|) && u in s.leaders && u > 0
    requires forall q :: q in voters ==> VotedFor(s, q, u, p)
    ensures s.leaders[u].id == p
  {
    assert LeaderOk(s, u);
    var q := ElectionQuorumsMeet(voters, s.leaders[u].voters, |s.peers|);
    assert VotedFor(s, q, u, p) && VotedFor(s, q, u, s.leaders[u].id);
  }

  /** No term elects twice. */
  lemma NewTerm(s: AState, p: nat, voters: set<nat>)
    requires Inv(s) && p < |s.peers| && Enabled(s, Elect(p, voters))
    ensures s.peers[p].term !in s.leaders
  {
    var T := s.peers[p].term;
    assert PeerOk(s, p);
    forall q | q in voters
      ensures VotedFor(s, q, T, p)
    {
      assert Voted(s, q, MyRequest(s.peers[p], p));
    }
    if T in s.leaders {
      SameLeader(s, p, voters, T);
    }
  }

  lemma ElectGrows(s: AState, s': AState, p: nat, voters: set<nat>)
    requires Elected(s, s', p, voters)
    ensures Grows(s, s', p) && NewEntriesBlocked(s, s')
    ensures s'.leaders[s.peers[p].term].log == s.peers[p].log
    ensures forall t: nat, k: nat :: OwnEntry(s', t, k) ==> OwnEntry(s, t, k)
  {
    var peer, peer' := s.peers[p], s'.peers[p];
    var T := peer.term;
    assert PeerOk(s, p);
    forall k: nat
      ensures !OwnEntry(s', T, k)
    {
      if k < |peer.log| {
        PeerTermsBelow(s, p, k);
      }
    }
    forall t: nat
      ensures Ack(peer', t) >= Ack(peer, t) && (t < T ==> Ack(peer', t) == Ack(peer, t))
    {
    }
  }

  lemma PeerTermsBelow(s: AState, p: nat, k: nat)
    requires Inv(s) && p < |s.peers| && PeerOk(s, p) && k < |s.peers[p].log|
    ensures s.peers[p].log[k].term <= LastTerm(s.peers[p].log)
  {
    assert LeaderOk(s, LastTerm(s.peers[p].log));
  }

  lemma ElectedLogOk(s: AState, s': AState, p: nat, voters: set<nat>)
    requires Elected(s, s', p, voters)
    ensures LeaderLogOk(s', s.peers[p].term)
  {
    assert PeerOk(s, p);
    var log := s.peers[p].log;
    var last := LastTerm(log);
    assert LeaderOk(s, last);
    ElectGrows(s, s', p, voters);
    forall i: nat | i < |log|
      ensures EntryOk(s', log, i)
    {
      assert EntryOk(s, s.leaders[last].log, i);
      assert LeaderStep(s.leaders[log[i].term], s'.leaders[log[i].term], p);
    }
  }

  /** The candidate's log is as good as a voter's: what the voter kept, the candidate holds or nobody can commit. */
  lemma CandidateHolds(s: AState, log: seq<Entry>, v: Vote, t: nat, k: nat)
    requires Inv(s) && LogOk(s, log) && v in s.votes && v.req.lastIndex == |log| - 1 && v.req.lastTerm == LastTerm(log)
    requires v.voter < |s.peers| && OwnEntry(s, t, k) && t < v.req.term && 1 <= k <= Ack(s.peers[v.voter], t)
    ensures HoldsOrBlocked(s, log, t, k)
  {
    assert VoteOk(s, v);
    assert HoldsOrBlocked(s, v.log, t, k);
    if !Blocked(s, t, k) {
      VoterLogBelow(s, v.log, t, k);
      if LastTerm(log) == LastTerm(v.log) {
        assert AgreeTo(log, s.leaders[t].log, k);
      } else {
        LaterLogHolds(s, log, t, k);
      }
    }
  }

  lemma VoterLogBelow(s: AState, log: seq<Entry>, t: nat, k: nat)
    requires Inv(s) && LogOk(s, log) && OwnEntry(s, t, k) && AgreeTo(log, s.leaders[t].log, k)
    ensures t <= LastTerm(log)
  {
    assert LeaderOk(s, LastTerm(log));
  }

  lemma LaterLogHolds(s: AState, log: seq<Entry>, t: nat, k: nat)
    requires Inv(s) && LogOk(s, log) && OwnEntry(s, t, k) && t < LastTerm(log) && !Blocked(s, t, k)
    ensures AgreeTo(log, s.leaders[t].log, k)
  {
    var u := LastTerm(log);
    assert LeaderOk(s, u);
    assert HoldsOrBlocked(s, s.leaders[u].log, t, k);
    assert k < |log| by {
      assert s.leaders[u].log[k].term == t;
      assert s.leaders[u].log[|log| - 1].term == u;
    }
  }

  lemma ElectedComplete(s: AState, s': AState, p: nat, voters: set<nat>)
    requires Elected(s, s', p, voters)
    ensures Complete(s', s.peers[p].term)
  {
    var peer := s.peers[p];
    var T := peer.term;
    assert PeerOk(s, p);
    ElectGrows(s, s', p, voters);
    forall t: nat, k: nat | t < T && OwnEntry(s', t, k)
      ensures HoldsOrBlocked(s', peer.log, t, k)
    {
      assert OwnEntry(s, t, k);
      ElectedHolds(s, p, voters, t, k);
      HoldsOrBlockedStable(s, s', p, peer.log, peer.log, t, k);
    }
  }

  lemma ElectedHolds(s: AState, p: nat, voters: set<nat>, t: nat, k: nat)
    requires Inv(s) && p < |s.peers| && Enabled(s, Elect(p, voters)) && t < s.peers[p].term && OwnEntry(s, t, k)
    ensures HoldsOrBlocked(s, s.peers[p].log, t, k)
  {
    var peer := s.peers[p];
    assert PeerOk(s, p);
    if k == 0 {
      assert LeaderOk(s, t) && LeaderOk(s, LastTerm(peer.log));
    } else if q :| q in voters && Ack(s.peers[q], t) >= k {
      assert Voted(s, q, MyRequest(peer, p));
      var v :| v in s.votes && v.voter == q && v.req == MyRequest(peer, p);
      assert VoteOk(s, v);
      CandidateHolds(s, peer.log, v, t, k);
    } else {
      forall q | q in voters
        ensures s.peers[q].term > t && Ack(s.peers[q], t) < k
      {
        assert Voted(s, q, MyRequest(peer, p));
        var v :| v in s.votes && v.voter == q && v.req == MyRequest(peer, p);
        assert VoteOk(s, v);
      }
      assert BlockedBy(s, t, k, voters);
    }
  }

  lemma ElectedVoters(s: AState, s': AState, p: nat, voters: set<nat>)
    requires Elected(s, s', p, voters)
    ensures VotersOk(s', s.peers[p].term)
  {
    var peer := s.peers[p];
    forall q | q in voters
      ensures s'.peers[q].term >= peer.term && VotedFor(s', q, peer.term, p)
    {
      assert Voted(s, q, MyRequest(peer, p));
      var v :| v in s.votes && v.voter == q && v.req == MyRequest(peer, p);
      assert VoteOk(s, v);
      assert v in s'.votes;
    }
  }

  lemma ElectPreserves(s: AState, e: Event)
    requires Inv(s) && Enabled(s, e) && e.Elect?
    ensures Inv(Next(s, e))
  {
    var s', p := Next(s, e), e.p;
    var peer, peer' := s.peers[p], s'.peers[p];
    NewTerm(s, p, e.voters);
    assert PeerOk(s, p);
    ElectGrows(s, s', p, e.voters);
    ElectedLogOk(s, s', p, e.voters);
    ElectedComplete(s, s', p, e.voters);
    ElectedVoters(s, s', p, e.voters);
    assert LeaderOk(s', peer.term);
    ElectedPeerOk(s, s', p, e.voters);
    InvFromChanges(s, s', p);
  }

  lemma ElectedPeerOk(s: AState, s': AState, p: nat, voters: set<nat>)
    requires Elected(s, s', p, voters)
    ensures PeerOk(s', p)
  {
    var peer, peer' := s.peers[p], s'.peers[p];
    assert PeerOk(s, p);
    ElectGrows(s, s', p, voters);
    LogOkStable(s, s', p, peer.log);
    DurableStable(s, s', p, peer.log, peer.log, peer.commit, peer.term, peer.term);
    forall t: nat, k: nat | t <= peer.term && OwnEntry(s', t, k) && 1 <= k <= Ack(peer', t)
      ensures HoldsOrBlocked(s', peer.log, t, k)
    {
      assert OwnEntry(s, t, k) && t != peer.term;
      assert HoldsOrBlocked(s, peer.log, t, k);
      HoldsOrBlockedStable(s, s', p, peer.log, peer.log, t, k);
    }
    forall t | t in peer'.acks
      ensures t <= peer.term && t in s'.leaders && peer'.acks[t] < |s'.leaders[t].log|
    {
      if t != peer.term {
        assert LeaderStep(s.leaders[t], s'.leaders[t], p);
      }
    }
  }

  // ---------------------------------------------------------------- every event, every run

  lemma NextPreserves(s: AState, e: Event)
    requires Inv(s) && Enabled(s, e)
    ensures Inv(Next(s, e))
  {
    match e
    case Timeout(_) => TimeoutPreserves(s, e);
    case Bump(_, _) => QuietPreserves(s, e);
    case StepDown(_) => QuietPreserves(s, e);
    case AskVotes(_) => AskVotesPreserves(s, e);
    case Grant(_, _) => GrantPreserves(s, e);
    case Elect(_, _) => ElectPreserves(s, e);
    case Propose(_, _) => ProposePreserves(s, e);
    case SendAppend(_, _, _, _) => SendAppendPreserves(s, e);
    case Accept(_, _) => AcceptPreserves(s, e);
    case Commit(_, _, _) => CommitPreserves(s, e);
    case Restart(_, _) => QuietPreserves(s, e);
    case Deliver(_, _) => DeliverPreserves(s, e);
  }

  lemma InitialInv(n: nat)
    requires n >= 1
    ensures Inv(Initial(n))
  {
    var s := Initial(n);
    assert s.leaders[0].voters == Below(n);
    assert LeaderOk(s, 0);
    forall p: nat | p < n
      ensures PeerOk(s, p)
    {
      assert CommittedBy(s, 0, 0, Below(n));
      assert DurableBy(s, [Sentinel()], 0, 0, 0, 0);
    }
  }

  lemma {:induction false} RunPreserves(s: AState, events: seq<Event>)
    requires Inv(s) && ValidRun(s, events)
    ensures Inv(Run(s, events))
    decreases |events|
  {
    if |events| > 0 {
      NextPreserves(s, events[0]);
      RunPreserves(Next(s, events[0]), events[1..]);
    }
  }
}
