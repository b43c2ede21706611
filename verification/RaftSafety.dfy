/** Raft's safety properties, over every run of the compacting cluster, with loss, repetition, reordering and crashes. */
module RaftSafety {
  import opened KvStore
  import opened RaftTypes
  import opened RaftPeer
  import opened RaftCluster
  import opened AbstractRaft
  import opened RaftInvariant
  import opened RaftPreservation
  import opened RaftRuns
  import opened RaftCoupling
  import opened RaftHandlers
  import opened RaftRefinement

  /** The state of some run from the start. */
  ghost predicate Reachable(c: Cluster, n: nat) {
    n >= 1 && exists steps :: Legal(Boot(n), steps) && Trace(Boot(n), steps) == Some(c)
  }

  /** Every reachable cluster stands for a state of the abstract protocol. */
  lemma ReachableCoupled(c: Cluster, n: nat) returns (a: AState)
    requires Reachable(c, n)
    ensures Reaches(Initial(n), a) && Inv(a) && Coupled(c, a)
  {
    var steps :| Legal(Boot(n), steps) && Trace(Boot(n), steps) == Some(c);
    BootCoupled(n);
    a := TraceRefines(Boot(n), Initial(n), steps);
  }

  // ---------------------------------------------------------------- no panic

  /** No run panics, and every peer of every reachable cluster keeps its indices in order. */
  lemma NoPanic(n: nat, steps: seq<Step>)
    requires n >= 1 && Legal(Boot(n), steps)
    ensures Trace(Boot(n), steps).Some?
    ensures forall p :: 0 <= p < |Trace(Boot(n), steps).value.peers| ==> Trace(Boot(n), steps).value.peers[p].Sane()
  {
    BootCoupled(n);
    var a := TraceRefines(Boot(n), Initial(n), steps);
    var c := Trace(Boot(n), steps).value;
    forall p: nat | p < |c.peers|
      ensures c.peers[p].Sane()
    {
      assert PeerCoupled(a, c.peers[p], p);
      CoupledIsSane(a, c.peers[p], p);
    }
  }

  // ---------------------------------------------------------------- elections

  ghost predicate LeadSameTerm(c: Cluster, p: nat, c': Cluster, q: nat) {
    && p < |c.peers| && q < |c'.peers| && c.peers[p].role.Leader? && c'.peers[q].role.Leader?
    && c.peers[p].currentTerm == c'.peers[q].currentTerm
  }

  lemma OneLeader(a: AState, b: AState, p: nat, q: nat)
    requires Inv(a) && Inv(b) && Later(a, b) && p < |a.peers| && q < |b.peers|
    requires a.peers[p].role.Leader? && b.peers[q].role.Leader? && a.peers[p].term == b.peers[q].term
    ensures p == q
  {
    assert PeerOk(a, p) && PeerOk(b, q);
    assert RecordKept(a.leaders[a.peers[p].term], b.leaders[a.peers[p].term]);
  }

  /** One leader per term, even between different moments of a run. */
  lemma ElectionSafety(c: Cluster, n: nat, steps: seq<Step>, p: nat, q: nat)
    requires Reachable(c, n) && Legal(c, steps)
    ensures Trace(c, steps).Some?
    ensures LeadSameTerm(c, p, Trace(c, steps).value, q) ==> p == q
  {
    var a := ReachableCoupled(c, n);
    var b := TraceRefines(c, a, steps);
    var c' := Trace(c, steps).value;
    ReachesLater(a, b);
    if LeadSameTerm(c, p, c', q) {
      assert PeerCoupled(a, c.peers[p], p);
      assert PeerCoupled(b, c'.peers[q], q);
      OneLeader(a, b, p, q);
    }
  }

  // ---------------------------------------------------------------- logs

  /** The entry a peer holds at a logical index. */
  function At(peer: Peer, i: nat): Entry
    requires peer.lastIncludedIndex <= i <= peer.CurrIndex()
  {
    peer.log[i - peer.lastIncludedIndex]
  }

  lemma AtCoupled(a: AState, cp: Peer, p: nat, i: nat)
    requires PeerCoupled(a, cp, p) && cp.lastIncludedIndex <= i <= cp.CurrIndex()
    ensures i < |a.peers[p].log| && At(cp, i).term == a.peers[p].log[i].term
    ensures i > cp.lastIncludedIndex ==> At(cp, i) == a.peers[p].log[i]
  {
  }

  lemma LogsMatch(a: AState, l: seq<Entry>, m: seq<Entry>, i: nat)
    requires Inv(a) && LogOk(a, l) && LogOk(a, m) && i < |l| && i < |m| && l[i].term == m[i].term
    ensures AgreeTo(l, m, i)
  {
    var u := LastTerm(m);
    assert LeaderOk(a, u);
    LogMatchesLeader(a, l, u, i);
  }

  /** An equal term at an index both hold makes the whole logs equal up to there. */
  lemma PeersMatch(c: Cluster, a: AState, p: nat, q: nat, i: nat)
    requires Inv(a) && Coupled(c, a) && p < |c.peers| && q < |c.peers|
    requires c.peers[p].lastIncludedIndex <= i <= c.peers[p].CurrIndex() && c.peers[q].lastIncludedIndex <= i <= c.peers[q].CurrIndex()
    requires At(c.peers[p], i).term == At(c.peers[q], i).term
    ensures PeerCoupled(a, c.peers[p], p) && PeerCoupled(a, c.peers[q], q)
    ensures AgreeTo(a.peers[p].log, a.peers[q].log, i)
  {
    assert PeerCoupled(a, c.peers[p], p) && PeerOk(a, p);
    assert PeerCoupled(a, c.peers[q], q) && PeerOk(a, q);
    AtCoupled(a, c.peers[p], p, i);
    AtCoupled(a, c.peers[q], q, i);
    LogsMatch(a, a.peers[p].log, a.peers[q].log, i);
  }

  /** Log matching across compaction: an equal index and term make everything below equal, as far as both still hold it. */
  lemma LogMatching(c: Cluster, n: nat, p: nat, q: nat, i: nat, j: nat)
    requires Reachable(c, n) && p < |c.peers| && q < |c.peers|
    requires c.peers[p].lastIncludedIndex <= i <= c.peers[p].CurrIndex() && c.peers[q].lastIncludedIndex <= i <= c.peers[q].CurrIndex()
    requires At(c.peers[p], i).term == At(c.peers[q], i).term
    requires c.peers[p].lastIncludedIndex < j <= i && c.peers[q].lastIncludedIndex < j
    ensures At(c.peers[p], j) == At(c.peers[q], j)
  {
    var a := ReachableCoupled(c, n);
    PeersMatch(c, a, p, q, i);
    AtCoupled(a, c.peers[p], p, j);
    AtCoupled(a, c.peers[q], q, j);
  }

  lemma TermsRise(a: AState, log: seq<Entry>, i: nat, j: nat)
    requires Inv(a) && LogOk(a, log) && i <= j < |log|
    ensures log[i].term <= log[j].term <= LastTerm(log)
  {
    assert LeaderOk(a, LastTerm(log));
  }

  /** Entries carry their logical index, terms never fall, none exceeds the current term, and the boundary has the snapshot's term. */
  lemma LogShape(c: Cluster, n: nat, p: nat, i: nat, j: nat)
    requires Reachable(c, n) && p < |c.peers| && c.peers[p].lastIncludedIndex <= i <= j <= c.peers[p].CurrIndex()
    ensures At(c.peers[p], i).index == i && At(c.peers[p], i).term <= At(c.peers[p], j).term <= c.peers[p].currentTerm
    ensures At(c.peers[p], c.peers[p].lastIncludedIndex).term == c.peers[p].lastIncludedTerm
  {
    var a := ReachableCoupled(c, n);
    ShapeCoupled(a, c.peers[p], p, i, j);
  }

  lemma ShapeCoupled(a: AState, cp: Peer, p: nat, i: nat, j: nat)
    requires Inv(a) && PeerCoupled(a, cp, p) && cp.lastIncludedIndex <= i <= j <= cp.CurrIndex()
    ensures At(cp, i).index == i && At(cp, i).term <= At(cp, j).term <= cp.currentTerm
    ensures At(cp, cp.lastIncludedIndex).term == cp.lastIncludedTerm
  {
    assert PeerOk(a, p);
    AtCoupled(a, cp, p, i);
    AtCoupled(a, cp, p, j);
    IndexIsPosition(a, a.peers[p].log, i);
    TermsRise(a, a.peers[p].log, i, j);
  }

  // ---------------------------------------------------------------- commitment

  /** An entry committed in term t is in the log of the leader of every later term, for every cluster size. */
  lemma LeaderCompleteness(a: AState, t: nat, k: nat, u: nat)
    requires Inv(a) && Committed(a, t, k) && u in a.leaders && t <= u
    ensures AgreeTo(a.leaders[u].log, a.leaders[t].log, k)
  {
    CommittedNotBlocked(a, t, k);
    assert LeaderOk(a, u);
    if t < u {
      assert HoldsOrBlocked(a, a.leaders[u].log, t, k);
    }
  }

  /** A leader of term t or later holds the entry that p holds at index i, or has compacted it. */
  ghost predicate HeldByLeader(c: Cluster, p: nat, i: nat, t: nat, q: nat)
    requires p < |c.peers| && q < |c.peers| && c.peers[p].lastIncludedIndex <= i <= c.peers[p].CurrIndex()
  {
    c.peers[q].role.Leader? && c.peers[q].currentTerm >= t ==>
      i <= c.peers[q].CurrIndex() && (c.peers[q].lastIncludedIndex < i ==> At(c.peers[q], i) == At(c.peers[p], i))
  }

  /**
   What any peer has committed was committed by a quorum in some term t, and every leader of term t or later holds it or
   has compacted it.
   */
  lemma LeadersHoldCommitted(c: Cluster, n: nat, p: nat, i: nat) returns (a: AState, t: nat, k: nat)
    requires Reachable(c, n) && p < |c.peers| && c.peers[p].lastIncludedIndex < i <= c.peers[p].commitIndex
    ensures i <= c.peers[p].CurrIndex() && t <= c.peers[p].currentTerm
    ensures Reaches(Initial(n), a) && Coupled(c, a) && DecidedBy(a, i, At(c.peers[p], i), t, k)
    ensures forall q: nat {:trigger HeldByLeader(c, p, i, t, q)} :: q < |c.peers| ==> HeldByLeader(c, p, i, t, q)
  {
    a := ReachableCoupled(c, n);
    t, k := CommitDurable(c, a, p, i);
    forall q: nat | q < |c.peers|
      ensures HeldByLeader(c, p, i, t, q)
    {
      LeaderHolds(c, a, p, q, i, t, k);
    }
  }

  /** What a peer has committed was committed in some term that the peer has reached. */
  lemma CommitDurable(c: Cluster, a: AState, p: nat, i: nat) returns (t: nat, k: nat)
    requires Inv(a) && Coupled(c, a) && p < |c.peers| && c.peers[p].lastIncludedIndex < i <= c.peers[p].commitIndex
    ensures i <= c.peers[p].CurrIndex() && t <= c.peers[p].currentTerm && DecidedBy(a, i, At(c.peers[p], i), t, k)
    ensures p < |a.peers| && DurableBy(a, a.peers[p].log, a.peers[p].commit, a.peers[p].term, t, k)
  {
    assert PeerCoupled(a, c.peers[p], p) && PeerOk(a, p);
    var ap := a.peers[p];
    t, k :| DurableBy(a, ap.log, ap.commit, ap.term, t, k);
    AtCoupled(a, c.peers[p], p, i);
  }

  lemma LeaderHolds(c: Cluster, a: AState, p: nat, q: nat, i: nat, t: nat, k: nat)
    requires Inv(a) && Coupled(c, a) && p < |c.peers| && q < |c.peers|
    requires c.peers[p].lastIncludedIndex < i <= c.peers[p].commitIndex && i <= c.peers[p].CurrIndex()
    requires p < |a.peers| && DurableBy(a, a.peers[p].log, a.peers[p].commit, a.peers[p].term, t, k)
    ensures HeldByLeader(c, p, i, t, q)
  {
    assert PeerCoupled(a, c.peers[p], p);
    assert PeerCoupled(a, c.peers[q], q) && PeerOk(a, q);
    AtCoupled(a, c.peers[p], p, i);
    if c.peers[q].role.Leader? && c.peers[q].currentTerm >= t {
      LeaderCompleteness(a, t, k, a.peers[q].term);
      if c.peers[q].lastIncludedIndex < i {
        AtCoupled(a, c.peers[q], q, i);
      }
    }
  }

  /** Two decided entries at one position are the same entry. */
  lemma DecidedOnce(a: AState, i: nat, e: Entry, f: Entry)
    requires Inv(a) && Decided(a, i, e) && Decided(a, i, f)
    ensures e == f
  {
    var t: nat, k: nat :| DecidedBy(a, i, e, t, k);
    var u: nat, l: nat :| DecidedBy(a, i, f, u, l);
    if t <= u {
      LeaderCompleteness(a, t, k, u);
    } else {
      LeaderCompleteness(a, u, l, t);
    }
  }

  /**
   State machine safety: over every run with loss, repetition, reordering, crashes and compaction, two commands put on
   any apply channels with the same index are the same command.
   */
  lemma StateMachineSafety(c: Cluster, n: nat, p: nat, q: nat, i: nat, x: Option<Op>, y: Option<Op>)
    requires Reachable(c, n) && (p, i, x) in c.delivered && (q, i, y) in c.delivered
    ensures x == y
  {
    var a := ReachableCoupled(c, n);
    assert DeliveredOk(a, (p, i, x)) && DeliveredOk(a, (q, i, y));
    var e: Entry :| (i, e) in a.applied && e.command == x;
    var f: Entry :| (i, f) in a.applied && f.command == y;
    assert Decided(a, (i, e).0, (i, e).1) && Decided(a, (i, f).0, (i, f).1);
    DecidedOnce(a, i, e, f);
  }

  lemma DeliveredIsCommitted(a: AState, p: nat, r: nat, j: nat, x: Option<Op>)
    requires Inv(a) && p < |a.peers| && j <= a.peers[p].commit && DeliveredOk(a, (r, j, x))
    ensures j < |a.peers[p].log| && a.peers[p].log[j].command == x
  {
    BelowCommitDecided(a, p, j);
    var e: Entry :| (j, e) in a.applied && e.command == x;
    assert Decided(a, (j, e).0, (j, e).1);
    DecidedOnce(a, j, e, a.peers[p].log[j]);
  }

  /**
   Log matching below a boundary: where p has compacted, the entry that q still holds is the command that was delivered
   at that index.
   */
  lemma LogMatchingBelow(c: Cluster, n: nat, p: nat, q: nat, i: nat, j: nat, r: nat, x: Option<Op>)
    requires Reachable(c, n) && p < |c.peers| && q < |c.peers|
    requires c.peers[p].lastIncludedIndex <= i <= c.peers[p].CurrIndex() && c.peers[q].lastIncludedIndex < j <= i <= c.peers[q].CurrIndex()
    requires At(c.peers[p], i).term == At(c.peers[q], i).term
    requires j <= c.peers[p].lastIncludedIndex && (r, j, x) in c.delivered
    ensures At(c.peers[q], j).command == x
  {
    var a := ReachableCoupled(c, n);
    PeersMatch(c, a, p, q, i);
    AtCoupled(a, c.peers[q], q, j);
    assert DeliveredOk(a, (r, j, x));
    DeliveredIsCommitted(a, p, r, j, x);
  }

  /** Committed parts of any two peers' logs agree. */
  lemma CommittedAgree(c: Cluster, n: nat, p: nat, q: nat, i: nat)
    requires Reachable(c, n) && p < |c.peers| && q < |c.peers|
    requires c.peers[p].lastIncludedIndex < i <= c.peers[p].commitIndex && c.peers[q].lastIncludedIndex < i <= c.peers[q].commitIndex
    ensures i <= c.peers[p].CurrIndex() && i <= c.peers[q].CurrIndex() && At(c.peers[p], i) == At(c.peers[q], i)
  {
    var a := ReachableCoupled(c, n);
    assert PeerCoupled(a, c.peers[p], p) && PeerCoupled(a, c.peers[q], q);
    AtCoupled(a, c.peers[p], p, i);
    AtCoupled(a, c.peers[q], q, i);
    BelowCommitDecided(a, p, i);
    BelowCommitDecided(a, q, i);
    DecidedOnce(a, i, a.peers[p].log[i], a.peers[q].log[i]);
  }

  // ---------------------------------------------------------------- in flight

  /** Every AppendEntries in flight carries a commit index within what it matches or brings. */
  lemma CommitWithinMessage(c: Cluster, n: nat, call: Packet)
    requires Reachable(c, n) && call in c.net && call.AppendCall?
    ensures call.append.commit <= call.append.prev + |call.append.entries|
  {
    var a := ReachableCoupled(c, n);
    assert PacketOk(a, c.elections, call);
    assert AppendOk(a, call.append);
  }

  lemma AckedAgree(a: AState, p: nat, q: nat, i: nat)
    requires Inv(a) && p < |a.peers| && q < |a.peers| && a.peers[p].role.Leader? && a.peers[q].term == a.peers[p].term
    requires 1 <= i <= Ack(a.peers[q], a.peers[p].term)
    ensures AgreeTo(a.peers[q].log, a.peers[p].log, i)
  {
    assert PeerOk(a, p);
    assert PeerOk(a, q);
  }

  /** Two peers that reach index i hold the same entry there, as far as both still hold it. */
  ghost predicate SameEntry(cp: Peer, cq: Peer, i: nat) {
    && i <= cp.CurrIndex() && i <= cq.CurrIndex()
    && (cp.lastIncludedIndex < i && cq.lastIncludedIndex < i ==> At(cp, i) == At(cq, i))
  }

  /**
   Match indices are sound: a peer with a match index is in the leader's term or has left it for a later one, and until
   then it holds the leader's log through its match index.
   */
  lemma MatchIndexSound(c: Cluster, n: nat, p: nat, q: nat, i: nat)
    requires Reachable(c, n) && p < |c.peers| && q < |c.peers| && q != p && c.peers[p].role.Leader?
    requires q < |c.peers[p].matchIndex| && 1 <= i <= c.peers[p].matchIndex[q]
    ensures i <= c.peers[p].CurrIndex() && c.peers[q].currentTerm >= c.peers[p].currentTerm
    ensures c.peers[q].currentTerm == c.peers[p].currentTerm ==> SameEntry(c.peers[p], c.peers[q], i)
  {
    var a := ReachableCoupled(c, n);
    MatchedTerm(c, a, p, q, i);
    if c.peers[q].currentTerm == c.peers[p].currentTerm {
      MatchedEntry(c, a, p, q, i);
    }
  }

  lemma MatchedTerm(c: Cluster, a: AState, p: nat, q: nat, i: nat)
    requires Inv(a) && Coupled(c, a) && p < |c.peers| && q < |c.peers| && q != p && c.peers[p].role.Leader?
    requires q < |c.peers[p].matchIndex| && 1 <= i <= c.peers[p].matchIndex[q]
    ensures i <= c.peers[p].CurrIndex() && c.peers[q].currentTerm >= c.peers[p].currentTerm
    ensures q < |a.peers| && p < |a.peers| && i <= Ack(a.peers[q], a.peers[p].term)
  {
    assert PeerCoupled(a, c.peers[p], p) && PeerCoupled(a, c.peers[q], q);
    assert PeerOk(a, q);
  }

  lemma MatchedEntry(c: Cluster, a: AState, p: nat, q: nat, i: nat)
    requires Inv(a) && Coupled(c, a) && p < |c.peers| && q < |c.peers| && c.peers[p].role.Leader?
    requires 1 <= i <= Ack(a.peers[q], a.peers[p].term) && c.peers[q].currentTerm == c.peers[p].currentTerm
    ensures SameEntry(c.peers[p], c.peers[q], i)
  {
    assert PeerCoupled(a, c.peers[p], p) && PeerCoupled(a, c.peers[q], q);
    AckedAgree(a, p, q, i);
    if c.peers[p].lastIncludedIndex < i && c.peers[q].lastIncludedIndex < i {
      AtCoupled(a, c.peers[p], p, i);
      AtCoupled(a, c.peers[q], q, i);
    }
  }

  // ---------------------------------------------------------------- commit indices only rise

  /** The rule of the paper: the leader's commit index, bounded by the last new entry. */
  function PaperCommit(commit: nat, m: AppendMsg): nat {
    if m.commit > commit then Min(m.commit, m.prev + |m.entries|) else commit
  }

  lemma AcceptedCommit(a: AState, cp: Peer, p: nat, m: AppendMsg)
    requires Inv(a) && PeerCoupled(a, cp, p) && Enabled(a, Accept(p, m)) && cp.lastIncludedIndex <= m.prev
    ensures AppendAccepted(cp, m).commitIndex == PaperCommit(cp.commitIndex, m)
  {
    assert AppendOk(a, m);
    AcceptDurable(a, Next(a, Accept(p, m)), p, m);
    AppendAcceptedFields(cp, a.peers[p].log, m);
  }

  /** Although a follower bounds its commit index by its own last entry, it computes exactly the paper's rule. */
  lemma AppendCommit(a: AState, cp: Peer, cp': Peer, p: nat, m: AppendMsg, success: bool)
    requires Inv(a) && PeerCoupled(a, cp, p) && m in a.appends && m.leader != p && AppendOutcome(cp, m, cp', success)
    ensures cp'.commitIndex == if success then PaperCommit(cp.commitIndex, m) else cp.commitIndex
  {
    if success {
      var h := HearRefines(a, cp, p, m.term);
      AcceptEnabled(h, Heard(cp, m.term), p, m);
      AcceptedCommit(h, Heard(cp, m.term), p, m);
    }
  }

  /** The same for any call in flight in a reachable cluster. */
  lemma FollowerCommitRule(c: Cluster, n: nat, call: Packet)
    requires Reachable(c, n) && call in c.net && call.AppendCall? && call.dst < |c.peers| && |c.peers[call.dst].log| >= 1
    ensures var peer, (peer', reply) := c.peers[call.dst], HandleAppend(c.peers[call.dst], call.append);
            peer'.commitIndex == if reply.success then PaperCommit(peer.commitIndex, call.append) else peer.commitIndex
  {
    var a := ReachableCoupled(c, n);
    assert PacketOk(a, c.elections, call);
    assert PeerCoupled(a, c.peers[call.dst], call.dst);
    var (peer', reply) := HandleAppend(c.peers[call.dst], call.append);
    HandleAppendCases(c.peers[call.dst], call.append);
    AppendCommit(a, c.peers[call.dst], peer', call.dst, call.append, reply.success);
  }

  lemma AnswerCommitRises(c: Cluster, step: Step)
    requires CanStep(c, step) && InBounds(c, step) && (step.ReceiveAppendAnswer? || step.ReceiveInstallAnswer?)
    ensures After(c, step).peers[Actor(c, step)].commitIndex >= c.peers[Actor(c, step)].commitIndex
  {
    var peer := c.peers[Actor(c, step)];
    if step.ReceiveAppendAnswer? {
      HandleAppendReplyCases(peer, step.answer.src, step.answer.append, step.answer.appendReply);
    } else {
      HandleInstallReplyCases(peer, step.answer.src, step.answer.install, step.answer.term);
    }
  }

  lemma LocalCommitRises(c: Cluster, step: Step)
    requires CanStep(c, step) && InBounds(c, step)
    requires !step.ReceiveAppend? && !step.Restart? && !step.ReceiveAppendAnswer? && !step.ReceiveInstallAnswer?
    ensures After(c, step).peers[Actor(c, step)].commitIndex >= c.peers[Actor(c, step)].commitIndex
  {
  }

  lemma OthersUntouched(c: Cluster, step: Step, p: nat)
    requires CanStep(c, step) && InBounds(c, step) && p < |c.peers| && p != Actor(c, step)
    ensures p < |After(c, step).peers| && After(c, step).peers[p] == c.peers[p]
  {
  }

  /** No step but a restart lowers a commit index: the clamp after a truncation never fires. */
  lemma CommitNeverFalls(c: Cluster, n: nat, step: Step, p: nat)
    requires Reachable(c, n) && CanStep(c, step) && InBounds(c, step) && p < |c.peers| && !step.Restart?
    ensures p < |After(c, step).peers| && After(c, step).peers[p].commitIndex >= c.peers[p].commitIndex
  {
    if p != Actor(c, step) {
      OthersUntouched(c, step, p);
    } else if step.ReceiveAppend? {
      FollowerCommitRule(c, n, step.call);
      CommitWithinMessage(c, n, step.call);
    } else if step.ReceiveAppendAnswer? || step.ReceiveInstallAnswer? {
      AnswerCommitRises(c, step);
    } else {
      LocalCommitRises(c, step);
    }
  }
}
