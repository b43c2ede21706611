/**
 Everything the invariant says about things that did not change survives any event, because histories only grow.

 A committed entry stays committed, a blocked one stays blocked, and logs of leaders are only extended.

 `InvFromChanges` is what the preservation proofs use: it leaves them with the one peer, message or leader that moved.
 */
module RaftStability {
  import opened RaftTypes
  import opened AbstractRaft
  import opened RaftInvariant

  /** How one event may move the record of a peer. */
  ghost predicate PeerStep(a: APeer, b: APeer) {
    && a.term <= b.term
    && (forall t: nat :: Ack(b, t) >= Ack(a, t))
    && (forall t: nat :: t < a.term ==> Ack(b, t) == Ack(a, t))
    && (b.term == a.term ==> a.votedFor == NOBODY || b.votedFor == a.votedFor)
    && (b.role.Candidate? ==> b.term > a.term || (a.role.Candidate? && b.term == a.term && b.log == a.log))
  }

  /** The log of a leader only grows, and only by the hand of that leader. */
  ghost predicate LeaderStep(a: LeaderRec, b: LeaderRec, actor: nat) {
    && a.id == b.id && a.voters == b.voters && |a.log| <= |b.log|
    && (forall i :: 0 <= i < |a.log| ==> b.log[i] == a.log[i])
    && (a.id != actor ==> a == b)
  }

  ghost predicate Grows(s: AState, s': AState, p: nat) {
    && p < |s.peers| == |s'.peers|
    && (forall q: nat :: q < |s.peers| && q != p ==> s'.peers[q] == s.peers[q])
    && PeerStep(s.peers[p], s'.peers[p])
    && (forall t: nat :: t in s.leaders ==> t in s'.leaders && LeaderStep(s.leaders[t], s'.leaders[t], p))
    && (forall t: nat :: t in s'.leaders && t !in s.leaders ==> s'.leaders[t].id == p)
    && s.votes <= s'.votes
  }

  /** Entries that appear in the log of term t are already blocked as soon as a later leader exists. */
  ghost predicate NewEntriesBlocked(s: AState, s': AState) {
    forall t: nat, k: nat, u: nat ::
      OwnEntry(s', t, k) && !OwnEntry(s, t, k) && t < u && u in s'.leaders ==> Blocked(s', t, k)
  }

  lemma PeersGrow(s: AState, s': AState, p: nat)
    requires Grows(s, s', p)
    ensures forall q: nat :: q < |s.peers| ==> PeerStep(s.peers[q], s'.peers[q])
  {
  }

  lemma BlockedStable(s: AState, s': AState, p: nat, t: nat, k: nat)
    requires Grows(s, s', p) && Blocked(s, t, k)
    ensures Blocked(s', t, k)
  {
    var b :| BlockedBy(s, t, k, b);
    PeersGrow(s, s', p);
    assert BlockedBy(s', t, k, b);
  }

  lemma CommittedStable(s: AState, s': AState, p: nat, t: nat, k: nat)
    requires Grows(s, s', p) && Committed(s, t, k)
    ensures Committed(s', t, k)
  {
    var c :| CommittedBy(s, t, k, c);
    PeersGrow(s, s', p);
    assert CommittedBy(s', t, k, c);
  }

  lemma HoldsOrBlockedStable(s: AState, s': AState, p: nat, log: seq<Entry>, log': seq<Entry>, t: nat, k: nat)
    requires Grows(s, s', p) && HoldsOrBlocked(s, log, t, k)
    requires |log| <= |log'| && forall i :: 0 <= i < |log| ==> log'[i] == log[i]
    ensures HoldsOrBlocked(s', log', t, k)
  {
    if Blocked(s, t, k) {
      BlockedStable(s, s', p, t, k);
    }
  }

  lemma DurableStable(s: AState, s': AState, p: nat, log: seq<Entry>, log': seq<Entry>, c: nat, term: nat, term': nat)
    requires Grows(s, s', p) && Durable(s, log, c, term) && term <= term'
    requires |log| <= |log'| && forall i :: 0 <= i < |log| ==> log'[i] == log[i]
    ensures Durable(s', log', c, term')
  {
    var t: nat, k: nat :| DurableBy(s, log, c, term, t, k);
    CommittedStable(s, s', p, t, k);
    assert DurableBy(s', log', c, term', t, k);
  }

  lemma DecidedStable(s: AState, s': AState, p: nat, i: nat, e: Entry)
    requires Grows(s, s', p) && Decided(s, i, e)
    ensures Decided(s', i, e)
  {
    var t: nat, k: nat :| DecidedBy(s, i, e, t, k);
    CommittedStable(s, s', p, t, k);
    assert DecidedBy(s', i, e, t, k);
  }

  lemma LogOkStable(s: AState, s': AState, p: nat, log: seq<Entry>)
    requires Grows(s, s', p) && LogOk(s, log)
    ensures LogOk(s', log)
  {
    assert LeaderStep(s.leaders[LastTerm(log)], s'.leaders[LastTerm(log)], p);
  }

  lemma KeepsStable(s: AState, s': AState, p: nat, peer: APeer)
    requires Grows(s, s', p) && Keeps(s, peer)
    requires forall t :: t in peer.acks ==> t in s.leaders && peer.acks[t] < |s.leaders[t].log|
    ensures Keeps(s', peer)
  {
    forall t: nat, k: nat | t <= peer.term && OwnEntry(s', t, k) && 1 <= k <= Ack(peer, t)
      ensures HoldsOrBlocked(s', peer.log, t, k)
    {
      assert LeaderStep(s.leaders[t], s'.leaders[t], p);
      assert OwnEntry(s, t, k);
      HoldsOrBlockedStable(s, s', p, peer.log, peer.log, t, k);
    }
  }

  lemma PeerOkStable(s: AState, s': AState, p: nat, q: nat)
    requires Grows(s, s', p) && q < |s.peers| && q != p && PeerOk(s, q)
    ensures PeerOk(s', q)
  {
    var peer := s.peers[q];
    LogOkStable(s, s', p, peer.log);
    KeepsStable(s, s', p, peer);
    DurableStable(s, s', p, peer.log, peer.log, peer.commit, peer.term, peer.term);
    forall t | t in peer.acks
      ensures t in s'.leaders && peer.acks[t] < |s'.leaders[t].log|
    {
      assert LeaderStep(s.leaders[t], s'.leaders[t], p);
    }
    if peer.term in s.leaders {
      assert LeaderStep(s.leaders[peer.term], s'.leaders[peer.term], p);
    }
    if peer.role.Candidate? {
      var v :| v in s.votes && v.voter == q && v.req == MyRequest(peer, q);
      assert v in s'.votes;
    }
  }

  lemma LeaderLogOkStable(s: AState, s': AState, p: nat, u: nat)
    requires Grows(s, s', p) && u in s.leaders && LeaderLogOk(s, u) && s'.leaders[u].log == s.leaders[u].log
    ensures LeaderLogOk(s', u)
  {
    var log := s.leaders[u].log;
    forall i: nat | i < |log|
      ensures EntryOk(s', log, i)
    {
      assert EntryOk(s, log, i);
      assert LeaderStep(s.leaders[log[i].term], s'.leaders[log[i].term], p);
    }
  }

  lemma CompleteStable(s: AState, s': AState, p: nat, u: nat)
    requires Grows(s, s', p) && NewEntriesBlocked(s, s') && u in s.leaders && Complete(s, u)
    ensures Complete(s', u)
  {
    assert LeaderStep(s.leaders[u], s'.leaders[u], p);
    forall t: nat, k: nat | t < u && OwnEntry(s', t, k)
      ensures HoldsOrBlocked(s', s'.leaders[u].log, t, k)
    {
      if OwnEntry(s, t, k) {
        HoldsOrBlockedStable(s, s', p, s.leaders[u].log, s'.leaders[u].log, t, k);
      }
    }
  }

  lemma VotersOkStable(s: AState, s': AState, p: nat, u: nat)
    requires Grows(s, s', p) && u in s.leaders && VotersOk(s, u)
    ensures VotersOk(s', u)
  {
    assert LeaderStep(s.leaders[u], s'.leaders[u], p);
    PeersGrow(s, s', p);
    var rec := s.leaders[u];
    if u > 0 {
      forall q | q in rec.voters
        ensures VotedFor(s', q, u, rec.id)
      {
        var v :| v in s.votes && v.voter == q && v.req.term == u && v.req.cand == rec.id;
        assert v in s'.votes;
      }
    }
  }

  lemma VoteOkStable(s: AState, s': AState, p: nat, v: Vote)
    requires Grows(s, s', p) && VoteOk(s, v)
    requires forall t :: t in s.peers[v.voter].acks ==> t in s.leaders && s.peers[v.voter].acks[t] < |s.leaders[t].log|
    requires v.req.cand as int != NOBODY
    ensures VoteOk(s', v)
  {
    LogOkStable(s, s', p, v.log);
    PeersGrow(s, s', p);
    var a, b := s.peers[v.voter], s'.peers[v.voter];
    assert PeerStep(a, b);
    forall t: nat, k: nat | t < v.req.term && OwnEntry(s', t, k) && 1 <= k <= Ack(b, t)
      ensures HoldsOrBlocked(s', v.log, t, k)
    {
      assert Ack(b, t) == Ack(a, t);
      assert LeaderStep(s.leaders[t], s'.leaders[t], p);
      assert OwnEntry(s, t, k);
      HoldsOrBlockedStable(s, s', p, v.log, v.log, t, k);
    }
  }

  lemma RequestOkStable(s: AState, s': AState, p: nat, r: VoteReq)
    requires Grows(s, s', p) && RequestOk(s, r)
    ensures RequestOk(s', r)
  {
    PeersGrow(s, s', p);
    assert PeerStep(s.peers[r.cand], s'.peers[r.cand]);
  }

  lemma AppendOkStable(s: AState, s': AState, p: nat, m: AppendMsg)
    requires Grows(s, s', p) && AppendOk(s, m)
    ensures AppendOk(s', m)
  {
    assert LeaderStep(s.leaders[m.term], s'.leaders[m.term], p);
    DurableStable(s, s', p, s.leaders[m.term].log, s'.leaders[m.term].log, m.commit, m.term, m.term);
  }

  /** What is left to prove for an event: the things it changed. */
  lemma InvFromChanges(s: AState, s': AState, p: nat)
    requires Inv(s) && Grows(s, s', p) && NewEntriesBlocked(s, s')
    requires PeerOk(s', p)
    requires forall u: nat :: u in s'.leaders && (u !in s.leaders || s'.leaders[u] != s.leaders[u]) ==> LeaderLogOk(s', u)
    requires forall u: nat :: u in s'.leaders && u !in s.leaders ==> LeaderOk(s', u)
    requires s'.leaders[0] == s.leaders[0]
    requires forall v :: v in s'.votes && v !in s.votes ==> VoteOk(s', v)
    requires forall r :: r in s'.requests && r !in s.requests ==> RequestOk(s', r)
    requires forall m :: m in s'.appends && m !in s.appends ==> AppendOk(s', m)
    requires forall a :: a in s'.applied && a !in s.applied ==> Decided(s', a.0, a.1)
    requires OneVote(s')
    ensures Inv(s')
  {
    forall u | u in s'.leaders
      ensures LeaderOk(s', u)
    {
      if u in s.leaders {
        assert LeaderOk(s, u);
        if s'.leaders[u] == s.leaders[u] {
          LeaderLogOkStable(s, s', p, u);
        }
        CompleteStable(s, s', p, u);
        VotersOkStable(s, s', p, u);
      }
    }
    forall q: nat | q < |s'.peers|
      ensures PeerOk(s', q)
    {
      if q != p {
        assert PeerOk(s, q);
        PeerOkStable(s, s', p, q);
      }
    }
    forall v | v in s'.votes
      ensures VoteOk(s', v)
    {
      if v in s.votes {
        assert VoteOk(s, v) && PeerOk(s, v.voter);
        VoteOkStable(s, s', p, v);
      }
    }
    forall r | r in s'.requests
      ensures RequestOk(s', r)
    {
      if r in s.requests {
        RequestOkStable(s, s', p, r);
      }
    }
    forall m | m in s'.appends
      ensures AppendOk(s', m)
    {
      if m in s.appends {
        AppendOkStable(s, s', p, m);
      }
    }
    forall a | a in s'.applied
      ensures Decided(s', a.0, a.1)
    {
      if a in s.applied {
        DecidedStable(s, s', p, a.0, a.1);
      }
    }
  }
}
