/** The inductive invariant of the abstract protocol and what it rests on: quorums that meet, and histories that only grow. */
module RaftInvariant {
  import opened RaftTypes
  import opened Sets
  import opened AbstractRaft

  // ---------------------------------------------------------------- quorums

  /** Any commit quorum meets any election quorum, although half of an even cluster can commit. */
  lemma QuorumsMeet(commit: set<nat>, election: set<nat>, n: nat) returns (q: nat)
    requires CommitQuorum(commit, n) && ElectionQuorum(election, n)
    ensures q in commit && q in election
  {
    if commit !! election {
      assert |commit + election| == |commit| + |election|;
      NoLarger(commit + election, Below(n));
    }
    q :| q in commit && q in election;
  }

  lemma ElectionQuorumsMeet(a: set<nat>, b: set<nat>, n: nat) returns (q: nat)
    requires ElectionQuorum(a, n) && ElectionQuorum(b, n)
    ensures q in a && q in b
  {
    q := QuorumsMeet(a, b, n);
  }

  // ---------------------------------------------------------------- committed and blocked entries

  /** Entry k of the log of term t, made in term t, is on a commit quorum of peers that acknowledged it in term t. */
  ghost predicate CommittedBy(s: AState, t: nat, k: nat, quorum: set<nat>) {
    OwnEntry(s, t, k) && CommitQuorum(quorum, |s.peers|) && forall q :: q in quorum ==> Ack(s.peers[q], t) >= k
  }

  ghost predicate Committed(s: AState, t: nat, k: nat) {
    exists quorum :: CommittedBy(s, t, k, quorum)
  }

  /** The leader of term t made its entry k itself. */
  ghost predicate OwnEntry(s: AState, t: nat, k: nat) {
    t in s.leaders && k < |s.leaders[t].log| && s.leaders[t].log[k].term == t
  }

  /** An election quorum has left term t without acknowledging entry k: it can never be committed in term t. */
  ghost predicate BlockedBy(s: AState, t: nat, k: nat, quorum: set<nat>) {
    ElectionQuorum(quorum, |s.peers|) && forall q :: q in quorum ==> s.peers[q].term > t && Ack(s.peers[q], t) < k
  }

  ghost predicate Blocked(s: AState, t: nat, k: nat) {
    exists quorum :: BlockedBy(s, t, k, quorum)
  }

  lemma CommittedNotBlocked(s: AState, t: nat, k: nat)
    requires Committed(s, t, k)
    ensures !Blocked(s, t, k)
  {
    var c :| CommittedBy(s, t, k, c);
    forall b | ElectionQuorum(b, |s.peers|)
      ensures !BlockedBy(s, t, k, b)
    {
      var q := QuorumsMeet(c, b, |s.peers|);
    }
  }

  /** `log` holds entry k of term t and everything before it, unless that entry is blocked. */
  ghost predicate HoldsOrBlocked(s: AState, log: seq<Entry>, t: nat, k: nat) {
    t in s.leaders && (AgreeTo(log, s.leaders[t].log, k) || Blocked(s, t, k))
  }

  /** Positions 0..c of `log` are those of an entry committed in a term no later than `term`. */
  ghost predicate DurableBy(s: AState, log: seq<Entry>, c: nat, term: nat, t: nat, k: nat) {
    t <= term && c <= k && Committed(s, t, k) && AgreeTo(log, s.leaders[t].log, c)
  }

  ghost predicate Durable(s: AState, log: seq<Entry>, c: nat, term: nat) {
    exists t: nat, k: nat :: DurableBy(s, log, c, term, t, k)
  }

  // ---------------------------------------------------------------- the invariant

  /** A log is a copy of a prefix of the log of the leader that made its last entry. */
  ghost predicate LogOk(s: AState, log: seq<Entry>) {
    |log| >= 1 && LastTerm(log) in s.leaders && AgreeTo(log, s.leaders[LastTerm(log)].log, |log| - 1)
  }

  /** Up to its entry i, the log is the log of the leader that made entry i. */
  ghost predicate EntryOk(s: AState, log: seq<Entry>, i: nat)
    requires i < |log|
  {
    log[i].term in s.leaders && AgreeTo(log, s.leaders[log[i].term].log, i)
  }

  ghost predicate LeaderLogOk(s: AState, u: nat)
    requires u in s.leaders
  {
    var log := s.leaders[u].log;
    && |log| >= 1 && log[0] == Sentinel()
    && (forall i :: 0 <= i < |log| ==> log[i].index == i && log[i].term <= u)
    && (forall i, j :: 0 <= i <= j < |log| ==> log[i].term <= log[j].term)
    && (forall i: nat {:trigger EntryOk(s, log, i)} :: i < |log| ==> EntryOk(s, log, i))
  }

  ghost predicate Complete(s: AState, u: nat)
    requires u in s.leaders
  {
    forall t: nat, k: nat :: t < u && OwnEntry(s, t, k) ==> HoldsOrBlocked(s, s.leaders[u].log, t, k)
  }

  ghost predicate VotersOk(s: AState, u: nat)
    requires u in s.leaders
  {
    var rec := s.leaders[u];
    && ElectionQuorum(rec.voters, |s.peers|)
    && (forall q :: q in rec.voters ==> s.peers[q].term >= u)
    && (u > 0 ==>
          && rec.id < |s.peers| && s.peers[rec.id].term >= u
          && (s.peers[rec.id].term == u ==> !s.peers[rec.id].role.Candidate?)
          && forall q :: q in rec.voters ==> VotedFor(s, q, u, rec.id))
  }

  ghost predicate VotedFor(s: AState, q: nat, u: nat, cand: nat) {
    exists v :: v in s.votes && v.voter == q && v.req.term == u && v.req.cand == cand
  }

  ghost predicate LeaderOk(s: AState, u: nat)
    requires u in s.leaders
  {
    LeaderLogOk(s, u) && Complete(s, u) && VotersOk(s, u)
  }

  ghost predicate Keeps(s: AState, peer: APeer)
  {
    forall t: nat, k: nat :: t <= peer.term && OwnEntry(s, t, k) && 1 <= k <= Ack(peer, t) ==> HoldsOrBlocked(s, peer.log, t, k)
  }

  ghost predicate PeerOk(s: AState, p: nat)
    requires p < |s.peers|
  {
    var peer := s.peers[p];
    && LogOk(s, peer.log) && LastTerm(peer.log) <= peer.term
    && (forall t :: t in peer.acks ==> t <= peer.term && t in s.leaders && peer.acks[t] < |s.leaders[t].log|)
    && (peer.term in peer.acks ==> AgreeTo(peer.log, s.leaders[peer.term].log, peer.acks[peer.term]))
    && (peer.role.Leader? ==>
          && peer.term in s.leaders && s.leaders[peer.term].id == p && s.leaders[peer.term].log == peer.log
          && Ack(peer, peer.term) >= |peer.log| - 1)
    && (peer.role.Candidate? ==>
          && LastTerm(peer.log) < peer.term && peer.votedFor == p
          && (peer.term in s.leaders ==> s.leaders[peer.term].id != p)
          && Voted(s, p, MyRequest(peer, p)))
    && Keeps(s, peer)
    && peer.commit < |peer.log| && Durable(s, peer.log, peer.commit, peer.term)
  }

  ghost predicate VoteKeeps(s: AState, v: Vote)
    requires v.voter < |s.peers|
  {
    forall t: nat, k: nat :: t < v.req.term && OwnEntry(s, t, k) && 1 <= k <= Ack(s.peers[v.voter], t) ==> HoldsOrBlocked(s, v.log, t, k)
  }

  ghost predicate VoteOk(s: AState, v: Vote) {
    && v.voter < |s.peers| && s.peers[v.voter].term >= v.req.term
    && (s.peers[v.voter].term == v.req.term ==> s.peers[v.voter].votedFor == v.req.cand)
    && LogOk(s, v.log) && UpToDate(v.req.lastIndex, v.req.lastTerm, v.log)
    && VoteKeeps(s, v)
  }

  ghost predicate RequestOk(s: AState, r: VoteReq) {
    && r.cand < |s.peers| && s.peers[r.cand].term >= r.term
    && (s.peers[r.cand].term == r.term && s.peers[r.cand].role.Candidate? ==>
          |s.peers[r.cand].log| >= 1 && r == MyRequest(s.peers[r.cand], r.cand))
  }

  ghost predicate AppendOk(s: AState, m: AppendMsg) {
    && m.term in s.leaders && s.leaders[m.term].id == m.leader
    && var log := s.leaders[m.term].log;
    && m.prev + |m.entries| < |log| && log[m.prev].term == m.prevTerm
    && (forall i :: 0 <= i < |m.entries| ==> m.entries[i] == log[m.prev + 1 + i])
    && m.commit <= m.prev + |m.entries| && Durable(s, log, m.commit, m.term)
  }

  /** Entry e at position i is committed: it lies at or below an entry that a commit quorum holds. */
  ghost predicate DecidedBy(s: AState, i: nat, e: Entry, t: nat, k: nat) {
    i <= k && Committed(s, t, k) && s.leaders[t].log[i] == e
  }

  ghost predicate Decided(s: AState, i: nat, e: Entry) {
    exists t: nat, k: nat :: DecidedBy(s, i, e, t, k)
  }

  ghost predicate OneVote(s: AState) {
    forall v, w :: v in s.votes && w in s.votes && v.voter == w.voter && v.req.term == w.req.term ==> v.req.cand == w.req.cand
  }

  ghost predicate Inv(s: AState) {
    && |s.peers| >= 1
    && 0 in s.leaders && s.leaders[0].log == [Sentinel()] && s.leaders[0].id == |s.peers|
    && (forall u {:trigger LeaderOk(s, u)} :: u in s.leaders ==> LeaderOk(s, u))
    && (forall p: nat {:trigger PeerOk(s, p)} :: p < |s.peers| ==> PeerOk(s, p))
    && (forall v {:trigger VoteOk(s, v)} :: v in s.votes ==> VoteOk(s, v))
    && (forall r {:trigger RequestOk(s, r)} :: r in s.requests ==> RequestOk(s, r))
    && (forall m {:trigger AppendOk(s, m)} :: m in s.appends ==> AppendOk(s, m))
    && (forall a {:trigger Decided(s, a.0, a.1)} :: a in s.applied ==> Decided(s, a.0, a.1))
    && OneVote(s)
  }
}
