/**
 The protocol without compaction: every peer keeps its whole log, messages are never removed
 (so they may be lost, repeated and reordered at will), and each locked section is one event.
 `acks`, `votes`, `leaders` and `applied` are history: what each peer has held in each term, who
 voted for whom with which log, the log of the leader of each term, and what was put on apply channels.
 */
module AbstractRaft {
  import opened KvStore
  import opened RaftTypes
  import opened Sets

  datatype APeer = APeer(role: Role, term: nat, votedFor: int, log: seq<Entry>, commit: nat, acks: map<nat, nat>)

  datatype Vote = Vote(voter: nat, req: VoteReq, log: seq<Entry>)

  datatype LeaderRec = LeaderRec(id: nat, log: seq<Entry>, voters: set<nat>)

  datatype AState = AState(
    peers: seq<APeer>,
    requests: set<VoteReq>,
    votes: set<Vote>,
    appends: set<AppendMsg>,
    leaders: map<nat, LeaderRec>,
    applied: set<(nat, Entry)>)

  datatype Event =
    | Timeout(p: nat)
    | Bump(p: nat, term: nat)
    | StepDown(p: nat)
    | AskVotes(p: nat)
    | Grant(p: nat, req: VoteReq)
    | Elect(p: nat, voters: set<nat>)
    | Propose(p: nat, command: Option<Op>)
    | SendAppend(p: nat, prev: nat, last: nat, commit: nat)
    | Accept(p: nat, msg: AppendMsg)
    | Commit(p: nat, n: nat, quorum: set<nat>)
    | Restart(p: nat, commit: nat)
    | Deliver(p: nat, i: nat)

  function Sentinel(): Entry { Entry(0, None, 0) }

  function Ack(peer: APeer, t: nat): nat {
    if t in peer.acks then peer.acks[t] else 0
  }

  /** Enough votes to lead: more than half. */
  ghost predicate ElectionQuorum(q: set<nat>, n: nat) {
    (forall x :: x in q ==> x < n) && |q| > n / 2
  }

  /** Enough copies to commit: n - floor(n/2), only half of an even cluster. */
  ghost predicate CommitQuorum(q: set<nat>, n: nat) {
    (forall x :: x in q ==> x < n) && |q| >= n - n / 2
  }

  function MyRequest(peer: APeer, p: nat): VoteReq
    requires |peer.log| >= 1
  {
    VoteReq(p, peer.term, |peer.log| - 1, LastTerm(peer.log))
  }

  ghost predicate Voted(s: AState, q: nat, req: VoteReq) {
    exists v :: v in s.votes && v.voter == q && v.req == req
  }

  ghost predicate Enabled(s: AState, e: Event) {
    e.p < |s.peers| && |s.peers[e.p].log| >= 1 && Guard(s, e, s.peers[e.p])
  }

  ghost predicate Guard(s: AState, e: Event, peer: APeer)
    requires |peer.log| >= 1
  {
    match e
    case Timeout(_) => !peer.role.Leader?
    case Bump(_, term) => term > peer.term
    case StepDown(_) => peer.role.Candidate?
    case AskVotes(_) => true
    case Grant(p, req) =>
      req in s.requests && req.cand != p && req.term == peer.term
      && (peer.votedFor == NOBODY || peer.votedFor == req.cand) && UpToDate(req.lastIndex, req.lastTerm, peer.log)
    case Elect(p, voters) =>
      peer.role.Candidate? && ElectionQuorum(voters, |s.peers|)
      && forall q :: q in voters ==> Voted(s, q, MyRequest(peer, p))
    case Propose(_, _) => peer.role.Leader? && peer.term in s.leaders
    case SendAppend(_, prev, last, commit) => peer.role.Leader? && prev <= last < |peer.log| && commit <= last && commit <= peer.commit
    case Accept(p, msg) =>
      msg in s.appends && msg.leader != p && msg.term == peer.term
      && msg.prev < |peer.log| && peer.log[msg.prev].term == msg.prevTerm
    case Commit(_, n, quorum) =>
      peer.role.Leader? && peer.commit < n < |peer.log| && peer.log[n].term == peer.term && CommitQuorum(quorum, |s.peers|)
      && forall q :: q in quorum ==> Ack(s.peers[q], peer.term) >= n
    case Restart(_, commit) => commit <= peer.commit
    case Deliver(_, i) => i <= peer.commit && i < |peer.log|
  }

  function Slice(log: seq<Entry>, prev: nat, last: nat): seq<Entry>
    requires prev <= last < |log|
  {
    log[prev + 1..last + 1]
  }

  /** How event e changes the record of the peer it is about. */
  ghost function NextPeer(s: AState, e: Event): APeer
    requires Enabled(s, e)
  {
    var peer := s.peers[e.p];
    match e
    case Timeout(p) => peer.(role := Candidate, term := peer.term + 1, votedFor := p)
    case Bump(_, term) => peer.(role := Follower, term := term, votedFor := NOBODY)
    case StepDown(_) => peer.(role := Follower)
    case AskVotes(_) => peer
    case Grant(_, req) => peer.(votedFor := req.cand)
    case Elect(_, _) => peer.(role := Leader, acks := peer.acks[peer.term := |peer.log| - 1])
    case Propose(_, command) =>
      peer.(log := peer.log + [Entry(peer.term, command, |peer.log|)], acks := peer.acks[peer.term := |peer.log|])
    case SendAppend(_, _, _, _) => peer
    case Accept(_, msg) =>
      var log := Merge(peer.log, msg.prev, msg.entries);
      peer.(role := if peer.role.Candidate? then Follower else peer.role,
            log := log,
            acks := peer.acks[msg.term := Max(Ack(peer, msg.term), msg.prev + |msg.entries|)],
            commit := Max(peer.commit, Min(msg.commit, |log| - 1)))
    case Commit(_, n, _) => peer.(commit := n)
    case Restart(_, commit) => peer.(role := Follower, commit := commit)
    case Deliver(_, _) => peer
  }

  ghost function Next(s: AState, e: Event): AState
    requires Enabled(s, e)
  {
    var peer := s.peers[e.p];
    var s' := s.(peers := s.peers[e.p := NextPeer(s, e)]);
    match e
    case Timeout(p) =>
      s'.(votes := s.votes + {Vote(p, VoteReq(p, peer.term + 1, |peer.log| - 1, LastTerm(peer.log)), peer.log)})
    case AskVotes(p) => s'.(requests := s.requests + {MyRequest(peer, p)})
    case Grant(p, req) => s'.(votes := s.votes + {Vote(p, req, peer.log)})
    case Elect(p, voters) => s'.(leaders := s.leaders[peer.term := LeaderRec(p, peer.log, voters)])
    case Propose(p, command) =>
      s'.(leaders := s.leaders[peer.term := s.leaders[peer.term].(log := peer.log + [Entry(peer.term, command, |peer.log|)])])
    case SendAppend(p, prev, last, commit) =>
      s'.(appends := s.appends + {AppendMsg(peer.term, p, prev, peer.log[prev].term, Slice(peer.log, prev, last), commit)})
    case Deliver(_, i) => s'.(applied := s.applied + {(i, peer.log[i])})
    case _ => s'
  }

  ghost function Initial(n: nat): AState {
    AState(seq(n, _ => APeer(Follower, 0, NOBODY, [Sentinel()], 0, map[])), {}, {}, {},
           map[0 := LeaderRec(n, [Sentinel()], Below(n))], {})
  }

  ghost predicate ValidRun(s: AState, events: seq<Event>)
    decreases |events|
  {
    |events| > 0 ==> Enabled(s, events[0]) && ValidRun(Next(s, events[0]), events[1..])
  }

  ghost function Run(s: AState, events: seq<Event>): AState
    requires ValidRun(s, events)
    decreases |events|
  {
    if |events| == 0 then s else Run(Next(s, events[0]), events[1..])
  }
}
