/** What each handler of a peer changes, exactly when, and answers, said without the handlers, by logical index. */
module RaftRules {
  import opened KvStore
  import opened Services
  import opened RaftTypes
  import opened RaftPeer

  // ---------------------------------------------------------------- what the rules speak of

  function Last(p: Peer): int {
    p.lastIncludedIndex + |p.log| - 1
  }

  /** The entry at logical index i, which the peer holds, the boundary included. */
  function EntryAt(p: Peer, i: int): Entry
    requires p.lastIncludedIndex <= i <= Last(p)
  {
    p.log[i - p.lastIncludedIndex]
  }

  predicate Holds(p: Peer, i: int, term: nat) {
    p.lastIncludedIndex <= i <= Last(p) && EntryAt(p, i).term == term
  }

  /** What is on disk is what would be lost. */
  predicate OnDisk(p: Peer, snapshot: Option<Data>) {
    p.disk == Disk(Some(Saved(p.currentTerm, p.votedFor, p.log, p.lastIncludedIndex, p.lastIncludedTerm)), snapshot)
  }

  /** A later term was heard of: the peer is a follower in it, and has no vote there. */
  predicate NewTerm(p: Peer, term: nat, p': Peer) {
    && p' == p.(currentTerm := term, role := Follower, votedFor := NOBODY, disk := p'.disk)
    && OnDisk(p', p.disk.snapshot)
  }

  /** The leader of a term at least as late was heard: a later term is new, and a candidate gives up but keeps its vote. */
  predicate HeardFrom(p: Peer, term: nat, p': Peer) {
    if term > p.currentTerm then NewTerm(p, term, p')
    else if p.role.Candidate? then p' == p.(role := Follower, disk := p'.disk) && OnDisk(p', p.disk.snapshot)
    else p' == p
  }

  // ---------------------------------------------------------------- votes

  /** The candidate's last entry is of a later term, or of the same term and not at a lower index. */
  predicate UpToDateWith(p: Peer, lastTerm: nat, lastIndex: nat)
    requires |p.log| >= 1
  {
    var mine := EntryAt(p, Last(p)).term;
    lastTerm > mine || (lastTerm == mine && lastIndex >= Last(p))
  }

  /** The vote is free: the term is new, or nobody or this very candidate has it. */
  predicate VoteFree(p: Peer, args: VoteReq) {
    args.term > p.currentTerm || (args.term == p.currentTerm && p.votedFor in {NOBODY, args.cand})
  }

  ghost predicate VoteRule(p: Peer, args: VoteReq, p': Peer, reply: VoteReply)
    requires |p.log| >= 1
  {
    && (reply.granted <==> VoteFree(p, args) && UpToDateWith(p, args.lastTerm, args.lastIndex))
    && reply.term == Max(p.currentTerm, args.term)
    && p' == p.(currentTerm := reply.term, role := p'.role, votedFor := p'.votedFor, disk := p'.disk)
    && p'.role == (if args.term > p.currentTerm then Follower else p.role)
    && p'.votedFor == (if reply.granted then args.cand else if args.term > p.currentTerm then NOBODY else p.votedFor)
    && (if reply.granted || args.term > p.currentTerm then OnDisk(p', p.disk.snapshot) else p'.disk == p.disk)
  }

  lemma VoteByRule(p: Peer, args: VoteReq)
    requires |p.log| >= 1
    ensures VoteRule(p, args, HandleVote(p, args).0, HandleVote(p, args).1)
  {
  }

  /** A vote counts for the election's own candidate only, and more than half of the peers make a leader. */
  ghost predicate VoteReplyRule(p: Peer, electionTerm: nat, votes: nat, reply: VoteReply, p': Peer, votes': nat) {
    var counts := reply.term <= p.currentTerm == electionTerm && p.role.Candidate? && reply.granted;
    && votes' == (if counts then votes + 1 else votes)
    && (reply.term > p.currentTerm ==> NewTerm(p, reply.term, p'))
    && (counts && 2 * (votes + 1) > |p.nextIndex| ==>
          && p' == p.(role := Leader, nextIndex := p'.nextIndex, matchIndex := p'.matchIndex)
          && |p'.nextIndex| == |p.nextIndex| && |p'.matchIndex| == |p.matchIndex|
          && (forall q :: 0 <= q < |p'.nextIndex| ==> p'.nextIndex[q] == Last(p) + 1)
          && (forall q :: 0 <= q < |p'.matchIndex| ==> p'.matchIndex[q] == 0))
    && (reply.term <= p.currentTerm && !(counts && 2 * (votes + 1) > |p.nextIndex|) ==> p' == p)
  }

  lemma VoteReplyByRule(p: Peer, electionTerm: nat, votes: nat, reply: VoteReply)
    requires |p.log| >= 1
    ensures var (p', votes') := HandleVoteReply(p, electionTerm, votes, reply);
            VoteReplyRule(p, electionTerm, votes, reply, p', votes')
  {
  }

  ghost predicate CandidacyRule(p: Peer, p': Peer) {
    && p' == p.(role := Candidate, currentTerm := p.currentTerm + 1, votedFor := p.me, disk := p'.disk)
    && OnDisk(p', p.disk.snapshot)
  }

  lemma CandidacyByRule(p: Peer)
    requires |p.log| >= 1
    ensures CandidacyRule(p, p.ConvertToCandidate())
    ensures ElectionArgs(p) == VoteReq(p.me, p.currentTerm, Last(p), EntryAt(p, Last(p)).term)
  {
  }

  // ---------------------------------------------------------------- AppendEntries

  /** The boundary or entry the message follows is there. */
  predicate Follows(p: Peer, args: AppendMsg) {
    args.term >= p.currentTerm && Holds(p, args.prev, args.prevTerm)
  }

  /** Where the leader is pointed to: past a boundary that is too late, past a log that is too short, or to the conflict's term. */
  ghost predicate PointsTo(p: Peer, args: AppendMsg, index: nat) {
    if args.prev < p.lastIncludedIndex then index == p.lastIncludedIndex + 1
    else if args.prev > Last(p) then index == Last(p) + 1
    else
      && p.lastIncludedIndex <= index <= args.prev
      && (forall i :: index <= i <= args.prev ==> EntryAt(p, i).term == EntryAt(p, args.prev).term)
      && (index > p.lastIncludedIndex ==> EntryAt(p, index - 1).term != EntryAt(p, args.prev).term)
  }

  /** Entry m is the first of the message's that the log lacks; everything from there on is the message's. */
  ghost predicate TakesFrom(p: Peer, args: AppendMsg, m: nat, log': seq<Entry>)
    requires args.prev >= p.lastIncludedIndex
  {
    && m <= |args.entries| && args.prev + m <= Last(p)
    && (forall i {:trigger args.entries[i]} :: 0 <= i < m ==> Holds(p, args.prev + 1 + i, args.entries[i].term))
    && (m < |args.entries| ==> !Holds(p, args.prev + 1 + m, args.entries[m].term))
    && log' == if m < |args.entries| then p.log[..args.prev + 1 + m - p.lastIncludedIndex] + args.entries[m..] else p.log
  }

  ghost predicate Takes(p: Peer, args: AppendMsg, log': seq<Entry>)
    requires args.prev >= p.lastIncludedIndex
  {
    exists m: nat :: TakesFrom(p, args, m, log')
  }

  /** The entries are taken, saved if they change the log, and the commit index follows, within the log. */
  ghost predicate Accepted(p: Peer, args: AppendMsg, p': Peer)
  {
    && p.lastIncludedIndex <= args.prev && Takes(p, args, p'.log) && |p'.log| >= 1
    && p'.commitIndex == Min(Max(p.commitIndex, args.commit), p.lastIncludedIndex + |p'.log| - 1)
    && p' == p.(log := p'.log, commitIndex := p'.commitIndex, disk := p'.disk)
    && ((p'.log == p.log && p'.disk == p.disk) || OnDisk(p', p.disk.snapshot))
  }

  ghost predicate AppendRule(p: Peer, args: AppendMsg, p': Peer, reply: AppendReply)
    requires |p.log| >= 1
  {
    && reply.term == p.currentTerm && (reply.success <==> Follows(p, args))
    && (args.term < p.currentTerm ==> p' == p && reply.conflictIndex == 0)
    && (args.term >= p.currentTerm && !reply.success ==> HeardFrom(p, args.term, p') && PointsTo(p, args, reply.conflictIndex))
    && (reply.success ==> exists h :: HeardFrom(p, args.term, h) && Accepted(h, args, p'))
  }

  lemma TakenByRule(p: Peer, args: AppendMsg)
    requires p.lastIncludedIndex <= args.prev <= Last(p)
    ensures Takes(p, args, Merge(p.log, args.prev - p.lastIncludedIndex, args.entries))
    ensures |Merge(p.log, args.prev - p.lastIncludedIndex, args.entries)| >= 1
  {
    var prev := args.prev - p.lastIncludedIndex;
    var m := Matched(p.log, prev, args.entries, 0);
    forall i | 0 <= i < m
      ensures Holds(p, args.prev + 1 + i, args.entries[i].term)
    {
      assert p.log[prev + 1 + i].term == args.entries[i].term;
    }
    assert TakesFrom(p, args, m, Merge(p.log, prev, args.entries));
  }

  lemma HeardByRule(p: Peer, term: nat)
    requires term >= p.currentTerm
    ensures HeardFrom(p, term, Heard(p, term))
    ensures Heard(p, term) == p.(currentTerm := term, role := Heard(p, term).role, votedFor := Heard(p, term).votedFor, disk := Heard(p, term).disk)
    ensures Heard(p, term).disk.snapshot == p.disk.snapshot
  {
  }

  lemma RejectedByRule(p: Peer, args: AppendMsg)
    requires |p.log| >= 1 && !Follows(p, args)
    ensures AppendRule(p, args, HandleAppend(p, args).0, HandleAppend(p, args).1)
  {
    if args.term >= p.currentTerm {
      HeardByRule(p, args.term);
    }
  }

  lemma TakenWhenAccepted(p: Peer, args: AppendMsg)
    requires |p.log| >= 1 && p.lastIncludedIndex <= args.prev <= Last(p)
    ensures Accepted(p, args, AppendAccepted(p, args))
  {
    TakenByRule(p, args);
    AcceptedFields(p, args.prev - p.lastIncludedIndex, args);
    SameTakes(p, args, Merge(p.log, args.prev - p.lastIncludedIndex, args.entries), AppendAccepted(p, args).log);
  }

  lemma SameTakes(p: Peer, args: AppendMsg, log: seq<Entry>, log': seq<Entry>)
    requires p.lastIncludedIndex <= args.prev && Takes(p, args, log) && log' == log
    ensures Takes(p, args, log')
  {
  }

  lemma AcceptedFields(p: Peer, prev: nat, args: AppendMsg)
    requires prev < |p.log| && p.ToPhysical(args.prev) == prev && |Merge(p.log, prev, args.entries)| >= 1
    ensures var p', log := AppendAccepted(p, args), Merge(p.log, prev, args.entries);
            && p' == p.(log := log, commitIndex := p'.commitIndex, disk := p'.disk)
            && p'.commitIndex == Min(Max(p.commitIndex, args.commit), p.lastIncludedIndex + |log| - 1)
            && ((p'.disk == p.disk && log == p.log) || OnDisk(p', p.disk.snapshot))
  {
  }

  lemma AcceptedByRule(p: Peer, args: AppendMsg)
    requires |p.log| >= 1 && Follows(p, args)
    ensures AppendRule(p, args, HandleAppend(p, args).0, HandleAppend(p, args).1)
  {
    var h := Heard(p, args.term);
    HeardByRule(p, args.term);
    TakenWhenAccepted(h, args);
    assert HandleAppend(p, args) == (AppendAccepted(h, args), AppendReply(p.currentTerm, true, 0));
  }

  lemma AppendByRule(p: Peer, args: AppendMsg)
    requires |p.log| >= 1
    ensures AppendRule(p, args, HandleAppend(p, args).0, HandleAppend(p, args).1)
  {
    if Follows(p, args) {
      AcceptedByRule(p, args);
    } else {
      RejectedByRule(p, args);
    }
  }

  // ---------------------------------------------------------------- replies and commitment

  /** How far peer q has got: the leader itself to its last entry. */
  function Reach(p: Peer, matches: seq<nat>, q: nat): int
    requires q < |matches|
  {
    if q == p.me then Last(p) else matches[q]
  }

  ghost function ReachedBy(p: Peer, matches: seq<nat>, v: nat): set<nat> {
    set q: nat | q < |matches| && Reach(p, matches, q) >= v
  }

  /** N - floor(N/2) peers have reached v. */
  ghost predicate Enough(p: Peer, matches: seq<nat>, v: nat) {
    |ReachedBy(p, matches, v)| >= |matches| - |matches| / 2
  }

  ghost predicate Largest(p: Peer, matches: seq<nat>, v: nat) {
    Enough(p, matches, v) && forall w: nat :: w > v ==> !Enough(p, matches, w)
  }

  /** The largest index that enough peers have reached is committed, if it is new and its entry is of the current term. */
  ghost predicate CommitRule(p: Peer, matches: seq<nat>, commit': nat) {
    exists v: nat ::
      Largest(p, matches, v) && commit' == if v > p.commitIndex && Holds(p, v, p.currentTerm) then v else p.commitIndex
  }

  lemma CommitByRule(p: Peer)
    requires |p.log| >= 1 && p.me < |p.matchIndex| && p.role.Leader? && p.lastIncludedIndex <= p.commitIndex
    requires MedianMatch(p) <= Last(p)
    ensures CommitRule(p, p.matchIndex, UpdateCommit(p).commitIndex)
    ensures UpdateCommit(p) == p.(commitIndex := UpdateCommit(p).commitIndex)
  {
    var n, s := MedianMatch(p), Matches(p);
    forall v: nat
      ensures Enough(p, p.matchIndex, v) <==> v <= n
    {
      assert ReachedBy(p, p.matchIndex, v) == Reached(s, v);
      ReachedSize(s, v);
      MedianIsLargest(s, v);
    }
    assert Largest(p, p.matchIndex, n);
  }

  /** What a leader makes of peer q having reached index n, given how that sets its nextIndex. */
  ghost predicate Acknowledged(p: Peer, q: nat, n: nat, next: nat, p': Peer)
    requires q < |p.matchIndex| && q < |p.nextIndex|
  {
    && p' == p.(matchIndex := p.matchIndex[q := Max(p.matchIndex[q], n)], nextIndex := p.nextIndex[q := next],
                commitIndex := p'.commitIndex)
    && CommitRule(p, p'.matchIndex, p'.commitIndex)
  }

  ghost predicate AppendReplyRule(p: Peer, q: nat, args: AppendMsg, reply: AppendReply, p': Peer)
    requires q < |p.matchIndex| && q < |p.nextIndex|
  {
    if reply.term > p.currentTerm then NewTerm(p, reply.term, p')
    else if !p.role.Leader? || p.currentTerm != args.term then p' == p
    else if reply.success then
      Acknowledged(p, q, args.prev + |args.entries|, Max(p.nextIndex[q], args.prev + |args.entries| + 1), p')
    else
      p' == p.(nextIndex := p.nextIndex[q := if 0 < reply.conflictIndex < p.nextIndex[q] then reply.conflictIndex else p.nextIndex[q]])
  }

  ghost predicate InstallReplyRule(p: Peer, q: nat, args: InstallMsg, term: nat, p': Peer)
    requires q < |p.matchIndex| && q < |p.nextIndex|
  {
    if term > p.currentTerm then NewTerm(p, term, p')
    else if !p.role.Leader? || p.currentTerm != args.term then p' == p
    else
      Acknowledged(p, q, args.lastIndex, if args.lastIndex > p.matchIndex[q] then args.lastIndex + 1 else p.nextIndex[q], p')
  }

  /** Raising matchIndex[q] and setting nextIndex[q], then committing, is what the rule says. */
  lemma AcknowledgedByRule(p: Peer, q: nat, n: nat, next: nat, p1: Peer)
    requires p.Sane() && q < |p.nextIndex| && p.role.Leader? && n <= p.CurrIndex()
    requires p1 == p.(matchIndex := p.matchIndex[q := Max(p.matchIndex[q], n)], nextIndex := p.nextIndex[q := next])
    ensures MedianMatch(p1) <= p1.CurrIndex() && Acknowledged(p, q, n, next, UpdateCommit(p1))
  {
    MatchesInLog(p1);
    CommitByRule(p1);
    var v: nat :| Largest(p1, p1.matchIndex, v)
      && UpdateCommit(p1).commitIndex == if v > p1.commitIndex && Holds(p1, v, p1.currentTerm) then v else p1.commitIndex;
    LargestAlike(p, p1, v);
  }

  lemma MatchesInLog(p: Peer)
    requires |p.log| >= 1 && p.me < |p.matchIndex| && forall r :: 0 <= r < |p.matchIndex| ==> p.matchIndex[r] <= p.CurrIndex()
    ensures MedianMatch(p) <= p.CurrIndex()
  {
    MedianIsLargest(Matches(p), 0);
  }

  lemma LargestAlike(p: Peer, p1: Peer, v: nat)
    requires p1.me == p.me && p1.lastIncludedIndex == p.lastIncludedIndex && p1.log == p.log && Largest(p1, p1.matchIndex, v)
    ensures Largest(p, p1.matchIndex, v)
  {
    forall w: nat
      ensures Enough(p, p1.matchIndex, w) <==> Enough(p1, p1.matchIndex, w)
    {
      assert ReachedBy(p, p1.matchIndex, w) == ReachedBy(p1, p1.matchIndex, w);
    }
  }

  lemma AppendReplyByRule(p: Peer, q: nat, args: AppendMsg, reply: AppendReply)
    requires p.Sane() && q < |p.nextIndex|
    requires p.role.Leader? && p.currentTerm == args.term ==> args.prev + |args.entries| <= p.CurrIndex()
    ensures AppendReplyRule(p, q, args, reply, HandleAppendReply(p, q, args, reply))
  {
    if reply.term <= p.currentTerm == args.term && p.role.Leader? && reply.success {
      var n := args.prev + |args.entries|;
      var p1 := AppendAcked(p, q, n + 1);
      assert p.matchIndex[q := p.matchIndex[q]] == p.matchIndex && p.nextIndex[q := p.nextIndex[q]] == p.nextIndex;
      AcknowledgedByRule(p, q, n, Max(p.nextIndex[q], n + 1), p1);
    }
  }

  lemma InstallReplyByRule(p: Peer, q: nat, args: InstallMsg, term: nat)
    requires p.Sane() && q < |p.nextIndex|
    requires p.role.Leader? && p.currentTerm == args.term ==> args.lastIndex <= p.CurrIndex()
    ensures InstallReplyRule(p, q, args, term, HandleInstallReply(p, q, args, term))
  {
    if term <= p.currentTerm == args.term && p.role.Leader? {
      var n := args.lastIndex;
      var p1 := InstallAcked(p, q, n);
      assert p.matchIndex[q := p.matchIndex[q]] == p.matchIndex && p.nextIndex[q := p.nextIndex[q]] == p.nextIndex;
      AcknowledgedByRule(p, q, n, if n > p.matchIndex[q] then n + 1 else p.nextIndex[q], p1);
    }
  }

  /** So a leader whose last entry is of its own term commits all of its log with the acknowledgement that makes enough. */
  lemma EnoughCommitsAll(p: Peer, q: nat, args: AppendMsg, reply: AppendReply)
    requires p.Sane() && q < |p.nextIndex| && p.role.Leader? && reply.term <= p.currentTerm == args.term && reply.success
    requires args.prev + |args.entries| <= p.CurrIndex() && EntryAt(p, Last(p)).term == p.currentTerm
    requires Enough(p, p.matchIndex[q := Max(p.matchIndex[q], args.prev + |args.entries|)], Last(p))
    ensures HandleAppendReply(p, q, args, reply).commitIndex == Last(p)
  {
    var p' := HandleAppendReply(p, q, args, reply);
    AppendReplyByRule(p, q, args, reply);
    var v: nat :| Largest(p, p'.matchIndex, v)
      && p'.commitIndex == if v > p.commitIndex && Holds(p, v, p.currentTerm) then v else p.commitIndex;
    NobodyBeyond(p, p'.matchIndex);
  }

  lemma NobodyBeyond(p: Peer, matches: seq<nat>)
    requires |matches| > 0 && forall r :: 0 <= r < |matches| ==> matches[r] <= Last(p)
    ensures forall w: nat :: w > Last(p) ==> !Enough(p, matches, w)
  {
    forall w: nat | w > Last(p)
      ensures !Enough(p, matches, w)
    {
      assert ReachedBy(p, matches, w) == {};
    }
  }

  // ---------------------------------------------------------------- what a leader sends, and takes from clients

  /** A peer whose next entry is compacted away is sent the snapshot, any other everything from its next entry on. */
  ghost predicate MessageRule(p: Peer, q: nat, message: Outgoing)
    requires |p.log| >= 1 && q < |p.nextIndex| && p.nextIndex[q] <= Last(p) + 1
  {
    var next := p.nextIndex[q];
    if next <= p.lastIncludedIndex then
      message == SendInstall(InstallMsg(p.currentTerm, p.me, p.lastIncludedIndex, p.lastIncludedTerm, p.disk.snapshot))
    else
      && message.SendAppend?
      && var m := message.args;
         && m.term == p.currentTerm && m.leader == p.me && m.commit == p.commitIndex
         && m.prev == next - 1 && m.prevTerm == EntryAt(p, next - 1).term
         && |m.entries| == Last(p) + 1 - next
         && forall i {:trigger m.entries[i]} :: 0 <= i < |m.entries| ==> m.entries[i] == EntryAt(p, next + i)
  }

  lemma MessageByRule(p: Peer, q: nat)
    requires |p.log| >= 1 && q < |p.nextIndex| && p.nextIndex[q] <= Last(p) + 1
    ensures MessageRule(p, q, MessageTo(p, q))
  {
  }

  /** A leader appends the command at the next index, in its term; others refuse and stay as they are. */
  ghost predicate StartRule(p: Peer, command: Option<Op>, p': Peer, result: StartResult) {
    if p.role.Leader? then
      && result == StartResult(Last(p) + 1, p.currentTerm, true)
      && |p'.log| == |p.log| + 1 && p'.log[..|p.log|] == p.log
      && p'.log[|p.log|].term == p.currentTerm && p'.log[|p.log|].command == command && p'.log[|p.log|].index == Last(p) + 1
      && p' == p.(log := p'.log, disk := p'.disk) && OnDisk(p', p.disk.snapshot)
    else p' == p && result == StartResult(-1, -1, false)
  }

  lemma StartByRule(p: Peer, command: Option<Op>)
    requires |p.log| >= 1
    ensures StartRule(p, command, HandleStart(p, command).0, HandleStart(p, command).1)
  {
  }

  // ---------------------------------------------------------------- snapshots

  /** From index on, the peer is as it was; what is below is only in the snapshot. */
  ghost predicate CutAt(p: Peer, index: nat, log': seq<Entry>) {
    && p.lastIncludedIndex <= index <= Last(p) && |log'| == Last(p) - index + 1
    && forall i {:trigger log'[i]} :: 0 <= i < |log'| ==> log'[i] == EntryAt(p, index + i)
  }

  ghost predicate SnapshotRule(p: Peer, index: nat, data: Data, p': Peer)
    requires |p.log| >= 1
  {
    if p.lastIncludedIndex < index <= Last(p) then
      && CutAt(p, index, p'.log)
      && p' == p.(log := p'.log, lastIncludedIndex := index, lastIncludedTerm := EntryAt(p, index).term, disk := p'.disk)
      && OnDisk(p', Some(data))
    else p' == p
  }

  lemma SnapshotByRule(p: Peer, index: nat, data: Data)
    requires |p.log| >= 1
    ensures SnapshotRule(p, index, data, TakeSnapshot(p, index, data))
  {
  }

  /**
   A snapshot newer than the peer's own becomes its boundary: what follows is kept exactly if the peer holds the
   snapshot's last entry, the service is owed it, and neither index stays below it.
   */
  ghost predicate TakenOver(p: Peer, args: InstallMsg, p': Peer)
  {
    && (if Holds(p, args.lastIndex, args.lastTerm) then CutAt(p, args.lastIndex, p'.log)
        else |p'.log| == 1 && p'.log[0].term == args.lastTerm && p'.log[0].index == args.lastIndex && p'.log[0].command.None?)
    && p' == p.(log := p'.log, lastIncludedIndex := args.lastIndex, lastIncludedTerm := args.lastTerm,
                commitIndex := Max(p.commitIndex, args.lastIndex), lastApplied := Max(p.lastApplied, args.lastIndex),
                pending := Some(PendingSnapshot(args.data, args.lastTerm, args.lastIndex)), disk := p'.disk)
    && OnDisk(p', args.data)
  }

  ghost predicate InstallRule(p: Peer, args: InstallMsg, p': Peer, replyTerm: nat) {
    && replyTerm == p.currentTerm
    && if args.term < p.currentTerm then p' == p
       else exists h :: HeardFrom(p, args.term, h) && if args.lastIndex > p.lastIncludedIndex then TakenOver(h, args, p') else p' == h
  }

  lemma TakenOverByRule(p: Peer, args: InstallMsg)
    requires |p.log| >= 1 && args.lastIndex > p.lastIncludedIndex
    ensures TakenOver(p, args, Installed(p, args))
  {
  }

  lemma InstallByRule(p: Peer, args: InstallMsg)
    requires |p.log| >= 1
    ensures InstallRule(p, args, HandleInstall(p, args).0, HandleInstall(p, args).1)
  {
    if args.term >= p.currentTerm {
      HeardByRule(p, args.term);
      var h := Heard(p, args.term);
      if args.lastIndex > p.lastIncludedIndex {
        TakenOverByRule(h, args);
      }
      assert HeardFrom(p, args.term, h);
    }
  }

  // ---------------------------------------------------------------- the applier, and restarting

  /** The next committed entry is taken if there is one. */
  ghost predicate ApplyRule(p: Peer, p': Peer, entry: Option<Entry>) {
    if p.lastApplied < p.commitIndex then
      && p.lastIncludedIndex <= p.lastApplied + 1 <= Last(p)
      && entry == Some(EntryAt(p, p.lastApplied + 1)) && p' == p.(lastApplied := p.lastApplied + 1)
    else entry.None? && p' == p
  }

  /** A peer starts as a follower that knows what was saved; with a snapshot, it has applied that and owes it to the service. */
  ghost predicate RestartRule(me: nat, n: nat, disk: Disk, p: Peer) {
    && p.me == me && p.role.Follower? && p.disk == disk && p.nextIndex == seq(n, _ => 1) && p.matchIndex == seq(n, _ => 0)
    && (match disk.state
        case Some(saved) => OnDisk(p, disk.snapshot)
        case None =>
          && p.currentTerm == 0 && p.votedFor == NOBODY && p.log == [Entry(0, None, 0)]
          && p.lastIncludedIndex == 0 && p.lastIncludedTerm == 0)
    && (match disk.snapshot
        case Some(data) =>
          && p.commitIndex == p.lastApplied == p.lastIncludedIndex
          && p.pending == Some(PendingSnapshot(disk.snapshot, p.lastIncludedTerm, p.lastIncludedIndex))
        case None => p.commitIndex == p.lastApplied == 0 && p.pending.None?)
  }

  lemma RestartByRule(me: nat, n: nat, disk: Disk)
    ensures RestartRule(me, n, disk, Make(me, n, disk))
  {
  }
}
