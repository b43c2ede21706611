/**
 The cluster of compacting peers. Calls and replies may be lost, repeated, delayed and reordered: the network only
 gains packets, and a packet may be handled any number of times. Each step is one locked section of one peer.
 A reply travels with the arguments of its call, as the sender's goroutine keeps them. A vote reply is counted
 once, by the goroutine that made the call.
 */
module RaftCluster {
  import opened KvStore
  import opened Services
  import opened RaftTypes
  import opened RaftPeer
  import opened Sets

  /** One run of callElection: its arguments, the votes counted, the peers still to answer, and those that were counted. */
  datatype Election = Election(args: VoteReq, votes: nat, waiting: set<nat>, counted: set<nat>)

  datatype Packet =
    | VoteAnswer(election: nat, src: nat, voteReply: VoteReply)
    | AppendCall(dst: nat, append: AppendMsg)
    | AppendAnswer(src: nat, append: AppendMsg, appendReply: AppendReply)
    | InstallCall(dst: nat, install: InstallMsg)
    | InstallAnswer(src: nat, install: InstallMsg, term: nat)

  /** `delivered` records every command put on an apply channel: the peer, the index and the command. */
  datatype Cluster = Cluster(peers: seq<Peer>, elections: seq<Election>, net: set<Packet>, delivered: set<(nat, nat, Option<Op>)>)

  datatype Step =
    | Tick(p: nat)
    | CallElection(p: nat)
    | ReceiveVote(election: nat, p: nat)
    | ReceiveVoteAnswer(vote: Packet)
    | Send(p: nat, q: nat)
    | Start(p: nat, command: Option<Op>)
    | ReceiveAppend(call: Packet)
    | ReceiveAppendAnswer(answer: Packet)
    | ReceiveInstall(call: Packet)
    | ReceiveInstallAnswer(answer: Packet)
    | Apply(p: nat)
    | SnapshotSent(p: nat)
    | Snapshot(p: nat, index: nat, data: Data)
    | Restart(p: nat)

  function Others(n: nat, p: nat): set<nat> {
    set q | q in Below(n) && q != p
  }

  /** The peer whose lock the step holds. */
  function Actor(c: Cluster, step: Step): nat
    requires step.ReceiveVoteAnswer? ==> step.vote.VoteAnswer? && step.vote.election < |c.elections|
    requires step.ReceiveAppend? ==> step.call.AppendCall?
    requires step.ReceiveInstall? ==> step.call.InstallCall?
    requires step.ReceiveAppendAnswer? ==> step.answer.AppendAnswer?
    requires step.ReceiveInstallAnswer? ==> step.answer.InstallAnswer?
  {
    match step
    case ReceiveVoteAnswer(vote) => c.elections[vote.election].args.cand
    case ReceiveAppend(call) => call.dst
    case ReceiveInstall(call) => call.dst
    case ReceiveAppendAnswer(answer) => answer.append.leader
    case ReceiveInstallAnswer(answer) => answer.install.leader
    case _ => step.p
  }

  ghost predicate WellFormed(c: Cluster, step: Step) {
    && (step.ReceiveVote? ==> step.election < |c.elections|)
    && (step.ReceiveVoteAnswer? ==> step.vote.VoteAnswer? && step.vote.election < |c.elections| && step.vote in c.net)
    && (step.ReceiveAppend? ==> step.call.AppendCall? && step.call in c.net)
    && (step.ReceiveInstall? ==> step.call.InstallCall? && step.call in c.net)
    && (step.ReceiveAppendAnswer? ==> step.answer.AppendAnswer? && step.answer in c.net)
    && (step.ReceiveInstallAnswer? ==> step.answer.InstallAnswer? && step.answer in c.net)
    && Actor(c, step) < |c.peers|
  }

  /** When the step can happen. The service snapshots only indices that were delivered to it. */
  ghost predicate CanStep(c: Cluster, step: Step) {
    WellFormed(c, step) && var peer := c.peers[Actor(c, step)];
    (match step
     case Tick(_) => !peer.role.Leader?
     case ReceiveVote(e, p) => p != c.elections[e].args.cand
     case ReceiveVoteAnswer(vote) => vote.src in c.elections[vote.election].waiting
     case Send(p, q) => peer.role.Leader? && q != p && q < |c.peers|
     case Apply(_) => peer.lastApplied < peer.commitIndex
     case SnapshotSent(_) => peer.pending.Some?
     case Snapshot(_, index, _) => index <= peer.lastApplied
     case _ => true)
  }

  /** Every slice access of the step is in bounds; otherwise the peer panics. */
  ghost predicate InBounds(c: Cluster, step: Step)
    requires WellFormed(c, step)
  {
    var peer := c.peers[Actor(c, step)];
    && |peer.log| >= 1
    && (match step
        case Send(_, q) =>
          q < |peer.nextIndex| && (peer.nextIndex[q] > peer.lastIncludedIndex ==> peer.nextIndex[q] <= peer.CurrIndex() + 1)
        case ReceiveAppendAnswer(AppendAnswer(src, args, _)) =>
          && peer.Sane() && src < |peer.nextIndex|
          && (peer.role.Leader? && peer.currentTerm == args.term ==> args.prev + |args.entries| <= peer.CurrIndex())
        case ReceiveInstallAnswer(InstallAnswer(src, args, _)) =>
          && peer.Sane() && src < |peer.nextIndex|
          && (peer.role.Leader? && peer.currentTerm == args.term ==> args.lastIndex <= peer.CurrIndex())
        case Apply(_) => 0 <= peer.ToPhysical(peer.lastApplied + 1) < |peer.log|
        case _ => true)
  }

  ghost function AfterVoteAnswer(c: Cluster, vote: Packet): Cluster
    requires WellFormed(c, ReceiveVoteAnswer(vote)) && InBounds(c, ReceiveVoteAnswer(vote))
  {
    var e := c.elections[vote.election];
    var p := e.args.cand;
    var (peer, votes) := HandleVoteReply(c.peers[p], e.args.term, e.votes, vote.voteReply);
    c.(peers := c.peers[p := peer],
       elections := c.elections[vote.election :=
         Election(e.args, votes, e.waiting - {vote.src}, if votes > e.votes then e.counted + {vote.src} else e.counted)])
  }

  ghost function After(c: Cluster, step: Step): Cluster
    requires CanStep(c, step) && InBounds(c, step)
  {
    var p := Actor(c, step);
    var peer := c.peers[p];
    match step
    case Tick(_) => c.(peers := c.peers[p := peer.ConvertToCandidate()])
    case CallElection(_) => c.(elections := c.elections + [Election(ElectionArgs(peer), 1, Others(|c.peers|, p), {})])
    case ReceiveVote(e, _) =>
      var (peer', reply) := HandleVote(peer, c.elections[e].args);
      c.(peers := c.peers[p := peer'], net := c.net + {VoteAnswer(e, p, reply)})
    case ReceiveVoteAnswer(vote) => AfterVoteAnswer(c, vote)
    case Send(_, q) =>
      (match MessageTo(peer, q)
       case SendAppend(args) => c.(net := c.net + {AppendCall(q, args)})
       case SendInstall(args) => c.(net := c.net + {InstallCall(q, args)}))
    case Start(_, command) => c.(peers := c.peers[p := HandleStart(peer, command).0])
    case ReceiveAppend(call) =>
      var (peer', reply) := HandleAppend(peer, call.append);
      c.(peers := c.peers[p := peer'], net := c.net + {AppendAnswer(p, call.append, reply)})
    case ReceiveAppendAnswer(answer) =>
      c.(peers := c.peers[p := HandleAppendReply(peer, answer.src, answer.append, answer.appendReply)])
    case ReceiveInstall(call) =>
      var (peer', term) := HandleInstall(peer, call.install);
      c.(peers := c.peers[p := peer'], net := c.net + {InstallAnswer(p, call.install, term)})
    case ReceiveInstallAnswer(answer) =>
      c.(peers := c.peers[p := HandleInstallReply(peer, answer.src, answer.install, answer.term)])
    case Apply(_) =>
      var (peer', entry) := ApplyNext(peer);
      c.(peers := c.peers[p := peer'], delivered := c.delivered + {(p, peer.lastApplied + 1, entry.command)})
    case SnapshotSent(_) => c.(peers := c.peers[p := peer.(pending := None)])
    case Snapshot(_, index, data) => c.(peers := c.peers[p := TakeSnapshot(peer, index, data)])
    case Restart(_) => c.(peers := c.peers[p := Make(p, |c.peers|, peer.disk)])
  }

  /** What delivering a command changes. */
  lemma Applied(c: Cluster, p: nat)
    requires p < |c.peers|
    requires var peer := c.peers[p]; peer.lastApplied < peer.commitIndex && 0 <= peer.ToPhysical(peer.lastApplied + 1) < |peer.log|
    ensures CanStep(c, Apply(p)) && InBounds(c, Apply(p))
    ensures var i := c.peers[p].lastApplied + 1;
            After(c, Apply(p)) == c.(peers := c.peers[p := ApplyNext(c.peers[p]).0],
                                     delivered := c.delivered + {(p, i, ApplyNext(c.peers[p]).1.command)})
  {
  }

  ghost function Boot(n: nat): Cluster {
    Cluster(seq(n, i requires 0 <= i < n => Make(i, n, Disk(None, None))), [], {}, {})
  }

  /** The cluster after the steps, or None when one of them panicked. */
  ghost function Trace(c: Cluster, steps: seq<Step>): Option<Cluster>
    decreases |steps|
  {
    if |steps| == 0 then Some(c)
    else if CanStep(c, steps[0]) && InBounds(c, steps[0]) then Trace(After(c, steps[0]), steps[1..])
    else None
  }

  /** Each step can happen where it happens; nothing is assumed about bounds. */
  ghost predicate Legal(c: Cluster, steps: seq<Step>)
    decreases |steps|
  {
    |steps| > 0 ==>
      CanStep(c, steps[0]) && (InBounds(c, steps[0]) ==> Legal(After(c, steps[0]), steps[1..]))
  }
}
