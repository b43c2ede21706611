/** Log repair without compaction: at most one rejection for each term in the follower's log, and one more. */
module RaftRepair {
  import opened RaftTypes
  import opened Sets
  import opened RaftPeer
  import opened RaftCluster
  import opened AbstractRaft
  import opened RaftInvariant
  import opened RaftCoupling
  import opened RaftRefinement
  import opened RaftSafety

  /** Only the boundary has term 0, and terms never fall. */
  ghost predicate Shaped(log: seq<Entry>) {
    && |log| >= 1 && log[0].term == 0
    && (forall i :: 1 <= i < |log| ==> log[i].term > 0)
    && (forall i, j :: 0 <= i <= j < |log| ==> log[i].term <= log[j].term)
  }

  /** Equal terms at a position mean equal entries up to there, after the boundary. */
  ghost predicate MatchingLogs(l: seq<Entry>, m: seq<Entry>) {
    forall i {:trigger l[i].term, m[i].term} :: 0 <= i < |l| && i < |m| && l[i].term == m[i].term ==> l[1..i + 1] == m[1..i + 1]
  }

  /** A leader and a follower that does not know a later term, neither of which has compacted. */
  ghost predicate Repairable(lp: Peer, q: nat, fp: Peer) {
    && lp.Sane() && lp.role.Leader? && q < |lp.nextIndex|
    && lp.lastIncludedIndex == 0 && fp.lastIncludedIndex == 0 && fp.currentTerm <= lp.currentTerm
    && Shaped(lp.log) && Shaped(fp.log) && MatchingLogs(fp.log, lp.log)
  }

  /** The positive terms among the first n entries. */
  function Terms(log: seq<Entry>, n: nat): set<nat>
    requires n <= |log|
  {
    set i | 0 <= i < n && log[i].term > 0 :: log[i].term
  }

  /** One heartbeat, its handling and the handling of its reply. */
  function Exchange(lp: Peer, q: nat, fp: Peer): (Peer, Peer, bool)
    requires lp.Sane() && lp.role.Leader? && q < |lp.nextIndex| && lp.lastIncludedIndex == 0 && |fp.log| >= 1
  {
    var args := MessageTo(lp, q).args;
    var (fp', reply) := HandleAppend(fp, args);
    (HandleAppendReply(lp, q, args, reply), fp', reply.success)
  }

  /** How many rejections there still can be: one for a log that ends too early, one for each positive term in reach. */
  function Left(lp: Peer, q: nat, fp: Peer): nat
    requires q < |lp.nextIndex|
  {
    (if lp.nextIndex[q] > |fp.log| then 1 else 0) + |Terms(fp.log, Min(lp.nextIndex[q], |fp.log|))|
  }

  /** Backing up to the start of a run of a positive term drops that term from reach. */
  lemma RunDropped(log: seq<Entry>, at: nat, n: nat)
    requires Shaped(log) && at < n <= |log| && log[at].term > 0
    ensures 0 < ConflictStart(log, at) <= at && |Terms(log, ConflictStart(log, at))| < |Terms(log, n)|
  {
    var r := ConflictStart(log, at);
    assert log[at].term in Terms(log, n);
    assert log[at].term !in Terms(log, r) by {
      assert forall i :: 0 <= i < r ==> log[i].term <= log[r - 1].term;
    }
    SmallerSet(Terms(log, r), Terms(log, n), log[at].term);
  }

  /** The message to a follower that is not behind the leader's log: everything from nextIndex on. */
  lemma Asked(lp: Peer, q: nat, fp: Peer)
    requires Repairable(lp, q, fp)
    ensures var prev := lp.nextIndex[q] - 1;
            && MessageTo(lp, q).SendAppend? && prev < |lp.log|
            && var args := MessageTo(lp, q).args;
               && args.term == lp.currentTerm && args.prev == prev && args.prevTerm == lp.log[prev].term
               && args.entries == lp.log[prev + 1..]
  {
  }

  /** What a follower that has not compacted makes of such a message. */
  lemma Heeded(fp: Peer, args: AppendMsg)
    requires fp.lastIncludedIndex == 0 && |fp.log| >= 1 && fp.currentTerm <= args.term
    ensures var (fp', reply) := HandleAppend(fp, args);
            && (reply.success <==> args.prev < |fp.log| && fp.log[args.prev].term == args.prevTerm)
            && (!reply.success ==>
                  && fp'.log == fp.log
                  && reply.conflictIndex == if args.prev >= |fp.log| then |fp.log| else ConflictStart(fp.log, args.prev))
            && (reply.success ==> fp'.log == Merge(fp.log, args.prev, args.entries))
            && fp'.lastIncludedIndex == 0 && fp'.currentTerm == args.term && reply.term <= args.term
  {
  }

  /** The follower's answer to the leader's message. */
  lemma Answered(lp: Peer, q: nat, fp: Peer)
    requires Repairable(lp, q, fp)
    ensures var prev := lp.nextIndex[q] - 1;
            var args := MessageTo(lp, q).args;
            var (fp', reply) := HandleAppend(fp, args);
            && MessageTo(lp, q).SendAppend? && args.term == lp.currentTerm && reply.term <= lp.currentTerm
            && args.prev + |args.entries| == lp.CurrIndex()
            && (reply.success <==> prev < |fp.log| && fp.log[prev].term == lp.log[prev].term)
            && (!reply.success ==>
                  fp'.log == fp.log && reply.conflictIndex == if prev >= |fp.log| then |fp.log| else ConflictStart(fp.log, prev))
            && (reply.success ==> fp'.log == Merge(fp.log, prev, lp.log[prev + 1..]))
            && fp'.lastIncludedIndex == 0 && fp'.currentTerm == lp.currentTerm
  {
    Asked(lp, q, fp);
    Heeded(fp, MessageTo(lp, q).args);
  }

  /** A rejection leaves the follower's log and lowers the leader's nextIndex to where the follower points. */
  lemma Rejected(lp: Peer, q: nat, fp: Peer)
    requires Repairable(lp, q, fp) && !Exchange(lp, q, fp).2
    ensures var (lp', fp', _) := Exchange(lp, q, fp);
            var prev := lp.nextIndex[q] - 1;
            && fp'.log == fp.log && fp'.lastIncludedIndex == 0 && fp'.currentTerm == lp.currentTerm
            && (prev < |fp.log| ==> fp.log[prev].term > 0)
            && lp' == lp.(nextIndex := lp.nextIndex[q := if prev >= |fp.log| then |fp.log| else ConflictStart(fp.log, prev)])
  {
    Answered(lp, q, fp);
    var prev := lp.nextIndex[q] - 1;
    if prev < |fp.log| && prev > 0 {
      RunDropped(fp.log, prev, lp.nextIndex[q]);
    }
  }

  /** A rejection uses up one of the rejections left. */
  lemma RejectionCounts(lp: Peer, q: nat, fp: Peer)
    requires Repairable(lp, q, fp) && !Exchange(lp, q, fp).2
    ensures var (lp', fp', _) := Exchange(lp, q, fp);
            && Repairable(lp', q, fp') && fp'.log == fp.log && lp'.log == lp.log
            && lp'.nextIndex[q] < lp.nextIndex[q] && Left(lp', q, fp') < Left(lp, q, fp)
  {
    Rejected(lp, q, fp);
    var prev := lp.nextIndex[q] - 1;
    if prev < |fp.log| {
      RunDropped(fp.log, prev, lp.nextIndex[q]);
    }
  }

  /** After the boundary, the follower's log starts with the leader's. */
  ghost predicate Repaired(l: seq<Entry>, f: seq<Entry>) {
    |l| >= 1 && |f| >= 1 && l[1..] <= f[1..]
  }

  lemma MergeRepairs(f: seq<Entry>, l: seq<Entry>, prev: nat)
    requires MatchingLogs(f, l) && prev < |f| && prev < |l| && f[prev].term == l[prev].term
    ensures Repaired(l, Merge(f, prev, l[prev + 1..]))
  {
    var entries := l[prev + 1..];
    var i := Matched(f, prev, entries, 0);
    var last := prev + i;
    assert f[last].term == l[last].term by {
      if i > 0 {
        assert f[prev + 1 + (i - 1)].term == entries[i - 1].term;
      }
    }
    assert f[1..last + 1] == l[1..last + 1];
    var r := Merge(f, prev, entries);
    assert r[1..last + 1] == l[1..last + 1];
    if i < |entries| {
      assert l[1..] == l[1..last + 1] + entries[i..];
      assert r[1..] == r[1..last + 1] + entries[i..];
    } else {
      assert l[1..] == l[1..last + 1];
    }
  }

  /** Repeat until the follower accepts: the number of rejections, and the follower then. */
  function Repair(lp: Peer, q: nat, fp: Peer): (nat, Peer)
    requires Repairable(lp, q, fp)
    decreases lp.nextIndex[q]
  {
    var (lp', fp', success) := Exchange(lp, q, fp);
    if success then (0, fp')
    else
      RejectionCounts(lp, q, fp);
      var (n, repaired) := Repair(lp', q, fp');
      (n + 1, repaired)
  }

  lemma AcceptanceRepairs(lp: Peer, q: nat, fp: Peer)
    requires Repairable(lp, q, fp) && Exchange(lp, q, fp).2
    ensures Repaired(lp.log, Exchange(lp, q, fp).1.log)
  {
    Answered(lp, q, fp);
    MergeRepairs(fp.log, lp.log, lp.nextIndex[q] - 1);
  }

  lemma {:induction false} RepairLeft(lp: Peer, q: nat, fp: Peer)
    requires Repairable(lp, q, fp)
    ensures Repair(lp, q, fp).0 <= Left(lp, q, fp) && Repaired(lp.log, Repair(lp, q, fp).1.log)
    decreases lp.nextIndex[q]
  {
    if Exchange(lp, q, fp).2 {
      AcceptanceRepairs(lp, q, fp);
    } else {
      RejectionCounts(lp, q, fp);
      RepairLeft(Exchange(lp, q, fp).0, q, Exchange(lp, q, fp).1);
    }
  }

  /** At most one rejection more than there are positive terms in the follower's log; then it holds the leader's log. */
  lemma RepairBound(lp: Peer, q: nat, fp: Peer)
    requires Repairable(lp, q, fp)
    ensures Repair(lp, q, fp).0 <= 1 + |Terms(fp.log, |fp.log|)|
    ensures Repaired(lp.log, Repair(lp, q, fp).1.log)
  {
    RepairLeft(lp, q, fp);
    NoLarger(Terms(fp.log, Min(lp.nextIndex[q], |fp.log|)), Terms(fp.log, |fp.log|));
  }

  // ---------------------------------------------------------------- in every run

  lemma PositiveTerm(a: AState, log: seq<Entry>, i: nat)
    requires Inv(a) && LogOk(a, log) && 1 <= i < |log|
    ensures log[i].term > 0
  {
    var u := LastTerm(log);
    assert LeaderOk(a, u);
    assert EntryOk(a, a.leaders[u].log, i);
  }

  lemma UncompactedPositive(c: Cluster, a: AState, p: nat)
    requires Inv(a) && Coupled(c, a) && p < |c.peers| && c.peers[p].lastIncludedIndex == 0
    ensures |c.peers[p].log| >= 1 && c.peers[p].log[0].term == 0
    ensures forall i :: 1 <= i < |c.peers[p].log| ==> c.peers[p].log[i].term > 0
  {
    var log := c.peers[p].log;
    assert PeerCoupled(a, c.peers[p], p) && PeerOk(a, p);
    assert LeaderLogOk(a, LastTerm(a.peers[p].log)) by {
      assert LeaderOk(a, LastTerm(a.peers[p].log));
    }
    forall i: nat | 1 <= i < |log|
      ensures log[i].term > 0
    {
      PositiveTerm(a, a.peers[p].log, i);
    }
  }

  lemma UncompactedShaped(c: Cluster, n: nat, p: nat)
    requires Reachable(c, n) && p < |c.peers| && c.peers[p].lastIncludedIndex == 0
    ensures Shaped(c.peers[p].log)
  {
    var a := ReachableCoupled(c, n);
    UncompactedPositive(c, a, p);
    UncompactedSorted(c, n, p);
  }

  lemma UncompactedSorted(c: Cluster, n: nat, p: nat)
    requires Reachable(c, n) && p < |c.peers| && c.peers[p].lastIncludedIndex == 0
    ensures forall i, j :: 0 <= i <= j < |c.peers[p].log| ==> c.peers[p].log[i].term <= c.peers[p].log[j].term
  {
    forall i: nat, j: nat | i <= j < |c.peers[p].log|
      ensures c.peers[p].log[i].term <= c.peers[p].log[j].term
    {
      LogShape(c, n, p, i, j);
    }
  }

  lemma UncompactedMatch(c: Cluster, n: nat, p: nat, q: nat)
    requires Reachable(c, n) && p < |c.peers| && q < |c.peers| && c.peers[p].lastIncludedIndex == 0 && c.peers[q].lastIncludedIndex == 0
    ensures MatchingLogs(c.peers[q].log, c.peers[p].log)
  {
    var l, f := c.peers[p].log, c.peers[q].log;
    forall i: nat | i < |f| && i < |l| && f[i].term == l[i].term
      ensures f[1..i + 1] == l[1..i + 1]
    {
      forall j: nat | 1 <= j <= i
        ensures f[j] == l[j]
      {
        LogMatching(c, n, p, q, i, j);
      }
    }
  }

  /** The premises of repair hold between the leader and any follower of any reachable cluster without compaction. */
  lemma ReachableRepairable(c: Cluster, n: nat, p: nat, q: nat)
    requires Reachable(c, n) && p < |c.peers| && q < |c.peers| && c.peers[p].role.Leader?
    requires c.peers[p].lastIncludedIndex == 0 && c.peers[q].lastIncludedIndex == 0 && c.peers[q].currentTerm <= c.peers[p].currentTerm
    ensures Repairable(c.peers[p], q, c.peers[q])
  {
    UncompactedShaped(c, n, p);
    UncompactedShaped(c, n, q);
    UncompactedMatch(c, n, p, q);
    var a := ReachableCoupled(c, n);
    assert PeerCoupled(a, c.peers[p], p);
    CoupledIsSane(a, c.peers[p], p);
  }
}
