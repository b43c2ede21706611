/** The peer as the object it is: every method updates the fields in place and is proved to do what its section does. */
module RaftNode {
  import opened KvStore
  import opened Services
  import opened RaftTypes
  import opened RaftPeer
  import R = RaftRules

  /** The messages of one broadcast from peer q on, in order. */
  function Broadcast(p: Peer, q: nat): (out: seq<(nat, Outgoing)>)
    requires p.Sane() && p.role.Leader? && q <= |p.nextIndex|
    ensures forall to: nat, m :: (to, m) in out <==> q <= to < |p.nextIndex| && to != p.me && m == MessageTo(p, to)
    decreases |p.nextIndex| - q
  {
    if q == |p.nextIndex| then []
    else if q == p.me then Broadcast(p, q + 1)
    else [(q, MessageTo(p, q))] + Broadcast(p, q + 1)
  }

  class Raft {
    const me: nat
    var state: Role
    var log: seq<Entry>
    var currentTerm: nat
    var votedFor: int
    var commitIndex: nat
    var lastApplied: nat
    const nextIndex: array<nat>
    const matchIndex: array<nat>
    var lastIncludedIndex: nat
    var lastIncludedTerm: nat
    var snapshotPending: Option<PendingSnapshot>
    var persister: Disk

    ghost predicate Valid()
      reads this
    {
      |log| >= 1 && me < nextIndex.Length == matchIndex.Length && nextIndex != matchIndex
    }

    /** The fields as one value. */
    ghost function State(): Peer
      reads this, nextIndex, matchIndex
    {
      Peer(me, state, log, currentTerm, votedFor, commitIndex, lastApplied, nextIndex[..], matchIndex[..],
           lastIncludedIndex, lastIncludedTerm, snapshotPending, persister)
    }

    /** A peer that starts, or restarts from what it saved. */
    constructor (me: nat, n: nat, persister: Disk)
      requires me < n && (persister.state.Some? ==> |persister.state.value.log| >= 1)
      ensures Valid() && fresh(nextIndex) && fresh(matchIndex)
      ensures State() == Make(me, n, persister) && R.RestartRule(me, n, persister, State())
    {
      R.RestartByRule(me, n, persister);
      this.me := me;
      state := Follower;
      currentTerm, votedFor := 0, NOBODY;
      commitIndex, lastApplied := 0, 0;
      nextIndex := new nat[n](_ => 1);
      matchIndex := new nat[n](_ => 0);
      log := [Entry(0, None, 0)];
      lastIncludedIndex, lastIncludedTerm := 0, 0;
      snapshotPending := None;
      this.persister := persister;
      new;
      assert nextIndex[..] == seq(n, _ => 1) && matchIndex[..] == seq(n, _ => 0);
      ReadPersist();
      if this.persister.snapshot.Some? {
        lastApplied := lastIncludedIndex;
        commitIndex := lastIncludedIndex;
        snapshotPending := Some(PendingSnapshot(this.persister.snapshot, lastIncludedTerm, lastIncludedIndex));
      }
    }

    method ReadPersist()
      modifies this
      ensures persister == old(persister) && state == old(state) && commitIndex == old(commitIndex)
      ensures lastApplied == old(lastApplied) && snapshotPending == old(snapshotPending)
      ensures persister.state.None? ==>
        log == old(log) && currentTerm == old(currentTerm) && votedFor == old(votedFor)
        && lastIncludedIndex == old(lastIncludedIndex) && lastIncludedTerm == old(lastIncludedTerm)
      ensures persister.state.Some? ==> persister.state.value == Saved(currentTerm, votedFor, log, lastIncludedIndex, lastIncludedTerm)
    {
      if persister.state.None? {
        return;
      }
      var saved := persister.state.value;
      currentTerm := saved.currentTerm;
      votedFor := saved.votedFor;
      log := saved.log;
      lastIncludedIndex := saved.lastIncludedIndex;
      lastIncludedTerm := saved.lastIncludedTerm;
    }

    method Persist(snapshot: Option<Data>)
      requires Valid()
      modifies this
      ensures Valid() && State() == old(State()).Persist(snapshot)
    {
      persister := Disk(Some(Saved(currentTerm, votedFor, log, lastIncludedIndex, lastIncludedTerm)), snapshot);
    }

    // -------------------------------------------------------------- roles

    method ConvertToFollower()
      requires Valid()
      modifies this
      ensures Valid() && State() == old(State()).ConvertToFollower()
    {
      votedFor := NOBODY;
      state := Follower;
      Persist(persister.snapshot);
    }

    method StepDown(term: nat)
      requires Valid()
      modifies this
      ensures Valid() && State() == old(State()).StepDown(term)
    {
      if term > currentTerm {
        currentTerm := term;
        votedFor := NOBODY;
      }
      state := Follower;
      Persist(persister.snapshot);
    }

    /** What the ticker does when the election timeout has passed. */
    method ConvertToCandidate()
      requires Valid()
      modifies this
      ensures Valid() && State() == old(State()).ConvertToCandidate() && R.CandidacyRule(old(State()), State())
    {
      R.CandidacyByRule(State());
      state := Candidate;
      currentTerm := currentTerm + 1;
      votedFor := me;
      Persist(persister.snapshot);
    }

    method ConvertToLeader()
      requires Valid()
      modifies this, nextIndex, matchIndex
      ensures Valid() && State() == old(State()).ConvertToLeader()
    {
      state := Leader;
      var peer := 0;
      while peer < nextIndex.Length
        invariant 0 <= peer <= nextIndex.Length
        invariant forall q :: 0 <= q < peer ==> nextIndex[q] == lastIncludedIndex + |log| && matchIndex[q] == 0
        modifies nextIndex, matchIndex
      {
        nextIndex[peer] := lastIncludedIndex + |log|;
        matchIndex[peer] := 0;
        peer := peer + 1;
      }
    }

    // -------------------------------------------------------------- AppendEntries

    /** The first entry of the conflicting term around physical position at. */
    method ScanConflict(at: nat) returns (i: nat)
      requires Valid() && at < |log|
      ensures i == ConflictStart(log, at)
    {
      var conflictTerm := log[at].term;
      i := at;
      while i > 0 && log[i - 1].term == conflictTerm
        invariant i <= at && log[i].term == conflictTerm && ConflictStart(log, i) == ConflictStart(log, at)
      {
        i := i - 1;
      }
    }

    /** How many of the entries the log already has after physical position prev. */
    method ScanMatched(prev: nat, entries: seq<Entry>) returns (i: nat)
      requires Valid() && prev < |log|
      ensures i == Matched(log, prev, entries, 0)
    {
      i := 0;
      while i < |entries|
        invariant i <= |entries| && Matched(log, prev, entries, i) == Matched(log, prev, entries, 0)
      {
        var at := prev + 1 + i;
        if at >= |log| {
          break;
        }
        if log[at].term != entries[i].term {
          break;
        }
        i := i + 1;
      }
    }

    /** Take over what the log lacks of the entries that follow position prev. */
    method TakeEntries(prev: nat, entries: seq<Entry>)
      requires Valid() && prev < |log|
      modifies this
      ensures Valid()
      ensures State() == Taken(old(State()), prev, entries)
    {
      var i := ScanMatched(prev, entries);
      if i < |entries| {
        log := log[..prev + 1 + i];
        log := log + entries[i..];
        Persist(persister.snapshot);
      }
    }

    /** The commit index stays within the log, and follows the leader's. */
    method FollowCommit(leaderCommit: nat)
      requires Valid()
      modifies this
      ensures Valid() && State() == CommitFollowed(old(State()), leaderCommit)
    {
      var last := lastIncludedIndex + |log| - 1;
      if commitIndex > last {
        commitIndex := last;
      }
      if leaderCommit > commitIndex {
        commitIndex := Min(leaderCommit, last);
      }
    }

    /** The consistency check passed: the entries, then the commit index. */
    method AcceptEntries(args: AppendMsg)
      requires Valid() && 0 <= State().ToPhysical(args.prev) < |log|
      modifies this
      ensures Valid() && State() == AppendAccepted(old(State()), args)
    {
      TakeEntries(args.prev - lastIncludedIndex, args.entries);
      FollowCommit(args.commit);
    }

    /** How AppendEntries begins: whether the sender's term is over, or else the sender is followed. */
    method HearLeader(term: nat) returns (stale: bool)
      requires Valid()
      modifies this
      ensures Valid() && stale == (term < old(currentTerm))
      ensures State() == if stale then old(State()) else Heard(old(State()), term)
    {
      if term > currentTerm {
        currentTerm := term;
        ConvertToFollower();
      }
      if term < currentTerm {
        return true;
      }
      if term == currentTerm && state.Candidate? {
        StepDown(term);
      }
      return false;
    }

    method AppendEntries(args: AppendMsg) returns (reply: AppendReply)
      requires Valid()
      modifies this
      ensures Valid() && (State(), reply) == HandleAppend(old(State()), args)
      ensures R.AppendRule(old(State()), args, State(), reply)
    {
      R.AppendByRule(State(), args);
      var term := currentTerm;
      var stale := HearLeader(args.term);
      if stale {
        return AppendReply(term, false, 0);
      }
      var prev := args.prev - lastIncludedIndex;
      if prev < 0 {
        return AppendReply(term, false, lastIncludedIndex + 1);
      }
      if prev >= |log| {
        return AppendReply(term, false, lastIncludedIndex + |log|);
      }
      if args.prevTerm != log[prev].term {
        var i := ScanConflict(prev);
        return AppendReply(term, false, lastIncludedIndex + i);
      }
      AcceptEntries(args);
      reply := AppendReply(term, true, 0);
    }

    // -------------------------------------------------------------- agreement

    method UpdateCommitIndex()
      requires Valid() && (state.Leader? ==> State().Sane())
      modifies this
      ensures Valid()
      ensures old(state).Leader? ==> MedianMatch(old(State())) <= old(State()).CurrIndex()
      ensures State() == UpdateCommit(old(State()))
      ensures old(state).Leader? ==> R.CommitRule(old(State()), matchIndex[..], commitIndex)
    {
      if !state.Leader? {
        return;
      }
      MedianInLog(State());
      R.CommitByRule(State());
      var peers := matchIndex[..];
      peers := peers[me := lastIncludedIndex + |log| - 1];
      peers := Sorted(peers);
      var n := peers[|peers| / 2];
      if n > commitIndex && log[n - lastIncludedIndex].term == currentTerm {
        commitIndex := n;
      }
    }

    /** The applier's next command, when one is committed and not yet applied. */
    method TakeCommitted() returns (entry: Option<Entry>)
      requires Valid() && (lastApplied < commitIndex ==> 0 <= State().ToPhysical(lastApplied + 1) < |log|)
      modifies this
      ensures Valid()
      ensures old(lastApplied >= commitIndex) ==> entry.None? && State() == old(State())
      ensures old(lastApplied < commitIndex) ==> entry.Some? && (State(), entry.value) == ApplyNext(old(State()))
      ensures R.ApplyRule(old(State()), State(), entry)
    {
      if lastApplied >= commitIndex {
        return None;
      }
      lastApplied := lastApplied + 1;
      entry := Some(log[lastApplied - lastIncludedIndex]);
    }

    // -------------------------------------------------------------- heartbeats

    /** One round of the broadcast: the snapshot, or the log from nextIndex on. */
    method MessageFor(peer: nat) returns (message: Outgoing)
      requires Valid() && State().Sane() && state.Leader? && peer < nextIndex.Length
      ensures message == MessageTo(State(), peer) && R.MessageRule(State(), peer, message)
    {
      assert State().nextIndex[peer] <= State().CurrIndex() + 1;
      R.MessageByRule(State(), peer);
      if nextIndex[peer] <= lastIncludedIndex {
        return SendInstall(InstallMsg(currentTerm, me, lastIncludedIndex, lastIncludedTerm, persister.snapshot));
      }
      var prev := nextIndex[peer] - 1;
      var entries := log[nextIndex[peer] - lastIncludedIndex..];
      message := SendAppend(AppendMsg(currentTerm, me, prev, log[prev - lastIncludedIndex].term, entries, commitIndex));
    }

    method BroadcastHeartbeats() returns (out: seq<(nat, Outgoing)>)
      requires Valid() && State().Sane() && state.Leader?
      ensures out == Broadcast(State(), 0)
    {
      ghost var p := State();
      out := [];
      var peer := 0;
      while peer < nextIndex.Length
        invariant 0 <= peer <= |p.nextIndex|
        invariant out + Broadcast(p, peer) == Broadcast(p, 0)
      {
        if peer != me {
          var message := MessageFor(peer);
          ghost var rest := Broadcast(p, peer + 1);
          assert Broadcast(p, peer) == [(peer, message)] + rest;
          assert out + ([(peer, message)] + rest) == out + [(peer, message)] + rest;
          out := out + [(peer, message)];
        }
        peer := peer + 1;
      }
    }

    /** A success raises both indices, never lowers them. */
    method RaiseIndices(peer: nat, newNext: nat)
      requires Valid() && peer < nextIndex.Length && newNext > 0
      modifies nextIndex, matchIndex
      ensures Valid() && State() == AppendAcked(old(State()), peer, newNext)
      ensures matchIndex[..] == old(matchIndex[..])[peer := Max(old(matchIndex[peer]), newNext - 1)]
      ensures nextIndex[..] == old(nextIndex[..])[peer := Max(old(nextIndex[peer]), newNext)]
    {
      var newMatch := newNext - 1;
      if newMatch > matchIndex[peer] {
        matchIndex[peer] := newMatch;
      }
      if newNext > nextIndex[peer] {
        nextIndex[peer] := newNext;
      }
    }

    method ReceiveAppendReply(peer: nat, args: AppendMsg, reply: AppendReply)
      requires Valid() && State().Sane() && peer < nextIndex.Length
      requires state.Leader? && currentTerm == args.term ==> args.prev + |args.entries| <= State().CurrIndex()
      modifies this, nextIndex, matchIndex
      ensures Valid() && State() == HandleAppendReply(old(State()), peer, args, reply)
      ensures R.AppendReplyRule(old(State()), peer, args, reply, State())
    {
      R.AppendReplyByRule(State(), peer, args, reply);
      if reply.term > currentTerm {
        currentTerm := reply.term;
        ConvertToFollower();
        return;
      }
      if currentTerm != args.term || !state.Leader? {
        return;
      }
      if reply.success {
        RaiseIndices(peer, args.prev + |args.entries| + 1);
        UpdateCommitIndex();
      } else if 0 < reply.conflictIndex < nextIndex[peer] {
        nextIndex[peer] := reply.conflictIndex;
      }
    }

    method ReceiveInstallReply(peer: nat, args: InstallMsg, term: nat)
      requires Valid() && State().Sane() && peer < nextIndex.Length
      requires state.Leader? && currentTerm == args.term ==> args.lastIndex <= State().CurrIndex()
      modifies this, nextIndex, matchIndex
      ensures Valid() && State() == HandleInstallReply(old(State()), peer, args, term)
      ensures R.InstallReplyRule(old(State()), peer, args, term, State())
    {
      R.InstallReplyByRule(State(), peer, args, term);
      if term > currentTerm {
        currentTerm := term;
        ConvertToFollower();
        return;
      }
      if currentTerm != args.term || !state.Leader? {
        return;
      }
      if args.lastIndex > matchIndex[peer] {
        matchIndex[peer] := args.lastIndex;
        nextIndex[peer] := args.lastIndex + 1;
      }
      assert State() == InstallAcked(old(State()), peer, args.lastIndex);
      UpdateCommitIndex();
    }

    // -------------------------------------------------------------- elections

    method RequestVote(args: VoteReq) returns (reply: VoteReply)
      requires Valid()
      modifies this
      ensures Valid() && (State(), reply) == HandleVote(old(State()), args) && R.VoteRule(old(State()), args, State(), reply)
    {
      R.VoteByRule(State(), args);
      var lastLogIndex := lastIncludedIndex + |log| - 1;
      var lastLogTerm := log[lastLogIndex - lastIncludedIndex].term;
      if args.term > currentTerm {
        currentTerm := args.term;
        ConvertToFollower();
      }
      reply := VoteReply(currentTerm, false);
      if args.lastTerm < lastLogTerm || (args.lastTerm == lastLogTerm && args.lastIndex < lastLogIndex) {
        return;
      }
      if args.term < currentTerm || (votedFor != NOBODY && votedFor != args.cand) {
        return;
      }
      votedFor := args.cand;
      Persist(persister.snapshot);
      reply := VoteReply(currentTerm, true);
    }

    method CallElection() returns (args: VoteReq)
      requires Valid()
      ensures args == ElectionArgs(State())
      ensures args == VoteReq(me, currentTerm, R.Last(State()), R.EntryAt(State(), R.Last(State())).term)
    {
      var lastLogIndex := lastIncludedIndex + |log| - 1;
      args := VoteReq(me, currentTerm, lastLogIndex, log[lastLogIndex - lastIncludedIndex].term);
    }

    /** One reply of the election of term electionTerm, which had votesReceived votes. */
    method ReceiveVoteReply(electionTerm: nat, votesReceived: nat, reply: VoteReply) returns (votes: nat)
      requires Valid()
      modifies this, nextIndex, matchIndex
      ensures Valid() && (State(), votes) == HandleVoteReply(old(State()), electionTerm, votesReceived, reply)
      ensures R.VoteReplyRule(old(State()), electionTerm, votesReceived, reply, State(), votes)
    {
      R.VoteReplyByRule(State(), electionTerm, votesReceived, reply);
      votes := votesReceived;
      if currentTerm < reply.term {
        currentTerm := reply.term;
        ConvertToFollower();
        return;
      }
      if currentTerm != electionTerm || !state.Candidate? {
        return;
      }
      if reply.granted {
        votes := votes + 1;
        if votes > nextIndex.Length / 2 {
          ConvertToLeader();
        }
      }
    }

    // -------------------------------------------------------------- snapshots

    method Snapshot(index: nat, snapshot: Data)
      requires Valid()
      modifies this
      ensures Valid() && State() == TakeSnapshot(old(State()), index, snapshot)
      ensures R.SnapshotRule(old(State()), index, snapshot, State())
    {
      R.SnapshotByRule(State(), index, snapshot);
      if index <= lastIncludedIndex || index > lastIncludedIndex + |log| - 1 {
        return;
      }
      var at := index - lastIncludedIndex;
      lastIncludedTerm := log[at].term;
      log := log[at..];
      lastIncludedIndex := index;
      Persist(Some(snapshot));
    }

    /** The snapshot is newer than the peer's own: keep what follows it if the log agrees there, else start over from it. */
    method TakeOver(args: InstallMsg)
      requires Valid() && args.lastIndex > lastIncludedIndex
      modifies this
      ensures Valid() && State() == Installed(old(State()), args) && R.TakenOver(old(State()), args, State())
    {
      R.TakenOverByRule(State(), args);
      var at := args.lastIndex - lastIncludedIndex;
      if at < |log| && args.lastTerm == log[at].term {
        log := log[at..];
      } else {
        log := [Entry(args.lastTerm, None, args.lastIndex)];
      }
      lastIncludedIndex := args.lastIndex;
      lastIncludedTerm := args.lastTerm;
      if commitIndex < args.lastIndex {
        commitIndex := args.lastIndex;
      }
      if lastApplied < args.lastIndex {
        lastApplied := args.lastIndex;
      }
      Persist(args.data);
      snapshotPending := Some(PendingSnapshot(args.data, args.lastTerm, args.lastIndex));
    }

    method InstallSnapShot(args: InstallMsg) returns (replyTerm: nat)
      requires Valid()
      modifies this
      ensures Valid() && (State(), replyTerm) == HandleInstall(old(State()), args)
      ensures R.InstallRule(old(State()), args, State(), replyTerm)
    {
      R.InstallByRule(State(), args);
      replyTerm := currentTerm;
      if args.term < currentTerm {
        return;
      }
      if args.term > currentTerm {
        currentTerm := args.term;
        ConvertToFollower();
      }
      if args.term == currentTerm && state.Candidate? {
        StepDown(args.term);
      }
      if args.lastIndex <= lastIncludedIndex {
        return;
      }
      TakeOver(args);
    }

    // -------------------------------------------------------------- clients

    method Start(command: Option<Op>) returns (result: StartResult, out: seq<(nat, Outgoing)>)
      requires Valid() && State().Sane()
      modifies this
      ensures Valid() && (State(), result) == HandleStart(old(State()), command) && R.StartRule(old(State()), command, State(), result)
      ensures result.isLeader ==> State().Sane() && state.Leader? && out == Broadcast(State(), 0)
      ensures !result.isLeader ==> out == []
    {
      R.StartByRule(State(), command);
      if !state.Leader? {
        return StartResult(-1, -1, false), [];
      }
      var entry := Entry(currentTerm, command, lastIncludedIndex + |log|);
      log := log + [entry];
      Persist(persister.snapshot);
      out := BroadcastHeartbeats();
      result := StartResult(entry.index, currentTerm, true);
    }
  }
}
