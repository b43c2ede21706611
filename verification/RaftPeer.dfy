/** One compacting peer, and each of its locked sections; position i of `log` is logical index lastIncludedIndex + i. */
module RaftPeer {
  import opened KvStore
  import opened Services
  import opened RaftTypes

  datatype Saved = Saved(currentTerm: nat, votedFor: int, log: seq<Entry>, lastIncludedIndex: nat, lastIncludedTerm: nat)

  /** What survives a crash. */
  datatype Disk = Disk(state: Option<Saved>, snapshot: Option<Data>)

  datatype PendingSnapshot = PendingSnapshot(data: Option<Data>, term: nat, index: nat)

  datatype Peer = Peer(
    me: nat,
    role: Role,
    log: seq<Entry>,
    currentTerm: nat,
    votedFor: int,
    commitIndex: nat,
    lastApplied: nat,
    nextIndex: seq<nat>,
    matchIndex: seq<nat>,
    lastIncludedIndex: nat,
    lastIncludedTerm: nat,
    pending: Option<PendingSnapshot>,
    disk: Disk)
  {
    function CurrIndex(): int { lastIncludedIndex + |log| - 1 }

    function ToPhysical(logical: nat): int { logical - lastIncludedIndex }

    /** What keeps every slice access of the peer in bounds. */
    predicate Sane() {
      && |log| >= 1 && me < |nextIndex| == |matchIndex|
      && lastIncludedIndex <= lastApplied <= commitIndex <= CurrIndex()
      && (role.Leader? ==>
            && (forall q :: 0 <= q < |nextIndex| ==> 1 <= nextIndex[q] <= CurrIndex() + 1)
            && (forall q :: 0 <= q < |matchIndex| ==> matchIndex[q] <= CurrIndex()))
    }

    function Persist(snapshot: Option<Data>): Peer {
      this.(disk := Disk(Some(Saved(currentTerm, votedFor, log, lastIncludedIndex, lastIncludedTerm)), snapshot))
    }

    function ConvertToFollower(): Peer {
      this.(votedFor := NOBODY, role := Follower).Persist(disk.snapshot)
    }

    /** A message of a later term: adopt the term and forget the vote. */
    function Adopt(term: nat): Peer {
      if term > currentTerm then this.(currentTerm := term).ConvertToFollower() else this
    }

    function StepDown(term: nat): Peer {
      var p := if term > currentTerm then this.(currentTerm := term, votedFor := NOBODY) else this;
      p.(role := Follower).Persist(disk.snapshot)
    }

    function ConvertToCandidate(): Peer {
      this.(role := Candidate, currentTerm := currentTerm + 1, votedFor := me).Persist(disk.snapshot)
    }

    function ConvertToLeader(): Peer
      requires |log| >= 1
    {
      this.(role := Leader,
            nextIndex := seq(|nextIndex|, _ => CurrIndex() + 1),
            matchIndex := seq(|matchIndex|, _ => 0))
    }
  }

  // ---------------------------------------------------------------- AppendEntries

  /** The peer after hearing from the leader of the current term: the term is adopted and a candidate gives up. */
  function Heard(cp: Peer, term: nat): Peer {
    var p1 := cp.Adopt(term);
    if p1.role.Candidate? then p1.StepDown(term) else p1
  }

  /** The first position of the run of entries around position i that share its term. */
  function ConflictStart(log: seq<Entry>, i: nat): (r: nat)
    requires i < |log|
    ensures r <= i && (forall j :: r <= j <= i ==> log[j].term == log[i].term)
    ensures r > 0 ==> log[r - 1].term != log[i].term
  {
    if i > 0 && log[i - 1].term == log[i].term then ConflictStart(log, i - 1) else i
  }

  /** The peer takes over what its log lacks of the entries that follow physical position prev. */
  function Taken(p: Peer, prev: nat, entries: seq<Entry>): Peer
    requires prev < |p.log|
  {
    if Matched(p.log, prev, entries, 0) < |entries|
    then p.(log := Merge(p.log, prev, entries)).Persist(p.disk.snapshot) else p
  }

  /** The commit index stays within the log, and follows the leader's. */
  function CommitFollowed(p: Peer, leaderCommit: nat): Peer
    requires |p.log| >= 1
  {
    var last := p.lastIncludedIndex + |p.log| - 1;
    var commit := Min(p.commitIndex, last);
    p.(commitIndex := if leaderCommit > commit then Min(leaderCommit, last) else commit)
  }

  function AppendAccepted(p: Peer, args: AppendMsg): Peer
    requires |p.log| >= 1 && 0 <= p.ToPhysical(args.prev) < |p.log|
  {
    CommitFollowed(Taken(p, p.ToPhysical(args.prev), args.entries), args.commit)
  }

  function HandleAppend(p: Peer, args: AppendMsg): (Peer, AppendReply)
    requires |p.log| >= 1
  {
    var term := p.currentTerm;
    if args.term < p.currentTerm then (p, AppendReply(term, false, 0)) else
    var p2 := Heard(p, args.term);
    var prev := p2.ToPhysical(args.prev);
    if prev < 0 then (p2, AppendReply(term, false, p2.lastIncludedIndex + 1)) else
    if prev >= |p2.log| then (p2, AppendReply(term, false, p2.lastIncludedIndex + |p2.log|)) else
    if args.prevTerm != p2.log[prev].term
    then (p2, AppendReply(term, false, p2.lastIncludedIndex + ConflictStart(p2.log, prev))) else
    (AppendAccepted(p2, args), AppendReply(term, true, 0))
  }

  // ---------------------------------------------------------------- commit

  function Insert(x: nat, s: seq<nat>): (r: seq<nat>)
    ensures |r| == |s| + 1
  {
    if |s| == 0 || x <= s[0] then [x] + s else [s[0]] + Insert(x, s[1..])
  }

  /** The integers in ascending order. */
  function Sorted(s: seq<nat>): (r: seq<nat>)
    ensures |r| == |s|
  {
    if |s| == 0 then [] else Insert(s[0], Sorted(s[1..]))
  }

  function Matches(p: Peer): seq<nat>
    requires |p.log| >= 1 && p.me < |p.matchIndex|
  {
    p.matchIndex[p.me := p.CurrIndex()]
  }

  function MedianMatch(p: Peer): nat
    requires |p.log| >= 1 && p.me < |p.matchIndex|
  {
    Sorted(Matches(p))[|p.matchIndex| / 2]
  }

  function UpdateCommit(p: Peer): Peer
    requires |p.log| >= 1 && p.me < |p.matchIndex|
    requires p.role.Leader? && MedianMatch(p) > p.commitIndex ==> 0 <= p.ToPhysical(MedianMatch(p)) < |p.log|
  {
    if !p.role.Leader? then p else
    var n := MedianMatch(p);
    if n > p.commitIndex && p.log[p.ToPhysical(n)].term == p.currentTerm then p.(commitIndex := n) else p
  }

  // ---------------------------------------------------------------- heartbeats and their replies

  datatype Outgoing = SendAppend(args: AppendMsg) | SendInstall(install: InstallMsg)

  /** What the leader sends to peer q: a snapshot when its next entry is compacted away, else the rest of the log. */
  function MessageTo(p: Peer, q: nat): Outgoing
    requires |p.log| >= 1 && q < |p.nextIndex|
    requires p.nextIndex[q] > p.lastIncludedIndex ==> p.nextIndex[q] <= p.CurrIndex() + 1
  {
    if p.nextIndex[q] <= p.lastIncludedIndex then
      SendInstall(InstallMsg(p.currentTerm, p.me, p.lastIncludedIndex, p.lastIncludedTerm, p.disk.snapshot))
    else
      var prev := p.nextIndex[q] - 1;
      SendAppend(AppendMsg(p.currentTerm, p.me, prev, p.log[p.ToPhysical(prev)].term,
                           p.log[p.ToPhysical(p.nextIndex[q])..], p.commitIndex))
  }

  /** Peer q acknowledged entries up to next - 1. */
  function AppendAcked(p: Peer, q: nat, next: nat): Peer
    requires q < |p.nextIndex| && q < |p.matchIndex|
  {
    var p1 := if next > p.matchIndex[q] + 1 then p.(matchIndex := p.matchIndex[q := next - 1]) else p;
    if next > p1.nextIndex[q] then p1.(nextIndex := p1.nextIndex[q := next]) else p1
  }

  /** Peer q acknowledged the snapshot at lastIndex. */
  function InstallAcked(p: Peer, q: nat, lastIndex: nat): Peer
    requires q < |p.nextIndex| && q < |p.matchIndex|
  {
    if lastIndex > p.matchIndex[q]
    then p.(matchIndex := p.matchIndex[q := lastIndex], nextIndex := p.nextIndex[q := lastIndex + 1])
    else p
  }

  function HandleAppendReply(p: Peer, q: nat, args: AppendMsg, reply: AppendReply): Peer
    requires p.Sane() && q < |p.nextIndex|
    requires p.role.Leader? && p.currentTerm == args.term ==> args.prev + |args.entries| <= p.CurrIndex()
  {
    if reply.term > p.currentTerm then p.Adopt(reply.term) else
    if p.currentTerm != args.term || !p.role.Leader? then p else
    if reply.success then
      var p1 := AppendAcked(p, q, args.prev + |args.entries| + 1);
      MedianInLog(p1);
      UpdateCommit(p1)
    else if 0 < reply.conflictIndex < p.nextIndex[q] then p.(nextIndex := p.nextIndex[q := reply.conflictIndex])
    else p
  }

  function HandleInstallReply(p: Peer, q: nat, args: InstallMsg, term: nat): Peer
    requires p.Sane() && q < |p.nextIndex|
    requires p.role.Leader? && p.currentTerm == args.term ==> args.lastIndex <= p.CurrIndex()
  {
    if term > p.currentTerm then p.Adopt(term) else
    if p.currentTerm != args.term || !p.role.Leader? then p else
    var p1 := InstallAcked(p, q, args.lastIndex);
    MedianInLog(p1);
    UpdateCommit(p1)
  }

  // ---------------------------------------------------------------- elections

  function HandleVote(p: Peer, args: VoteReq): (Peer, VoteReply)
    requires |p.log| >= 1
  {
    var p1 := p.Adopt(args.term);
    if args.lastTerm < LastTerm(p1.log) || (args.lastTerm == LastTerm(p1.log) && args.lastIndex < p1.CurrIndex())
    then (p1, VoteReply(p1.currentTerm, false)) else
    if args.term < p1.currentTerm || (p1.votedFor != NOBODY && p1.votedFor != args.cand)
    then (p1, VoteReply(p1.currentTerm, false)) else
    (p1.(votedFor := args.cand).Persist(p1.disk.snapshot), VoteReply(p1.currentTerm, true))
  }

  function ElectionArgs(p: Peer): VoteReq
    requires |p.log| >= 1
  {
    VoteReq(p.me, p.currentTerm, p.CurrIndex(), LastTerm(p.log))
  }

  /** The reply to one vote request of an election that had `votes` votes so far: the peer, and the new count. */
  function HandleVoteReply(p: Peer, electionTerm: nat, votes: nat, reply: VoteReply): (Peer, nat)
    requires |p.log| >= 1
  {
    if p.currentTerm < reply.term then (p.Adopt(reply.term), votes) else
    if p.currentTerm != electionTerm || !p.role.Candidate? then (p, votes) else
    if !reply.granted then (p, votes) else
    (if votes + 1 > |p.nextIndex| / 2 then p.ConvertToLeader() else p, votes + 1)
  }

  // ---------------------------------------------------------------- snapshots

  function TakeSnapshot(p: Peer, index: nat, data: Data): Peer
    requires |p.log| >= 1
  {
    if index <= p.lastIncludedIndex || index > p.CurrIndex() then p else
    var at := p.ToPhysical(index);
    p.(lastIncludedTerm := p.log[at].term, log := p.log[at..], lastIncludedIndex := index).Persist(Some(data))
  }

  function Installed(p: Peer, args: InstallMsg): Peer
    requires |p.log| >= 1 && args.lastIndex > p.lastIncludedIndex
  {
    var at := p.ToPhysical(args.lastIndex);
    var log := if at < |p.log| && args.lastTerm == p.log[at].term then p.log[at..]
               else [Entry(args.lastTerm, None, args.lastIndex)];
    p.(log := log, lastIncludedIndex := args.lastIndex, lastIncludedTerm := args.lastTerm,
       commitIndex := Max(p.commitIndex, args.lastIndex), lastApplied := Max(p.lastApplied, args.lastIndex))
     .Persist(args.data)
     .(pending := Some(PendingSnapshot(args.data, args.lastTerm, args.lastIndex)))
  }

  /** The peer and the term it replies with. */
  function HandleInstall(p: Peer, args: InstallMsg): (Peer, nat)
    requires |p.log| >= 1
  {
    if args.term < p.currentTerm then (p, p.currentTerm) else
    var p2 := Heard(p, args.term);
    if args.lastIndex <= p2.lastIncludedIndex then (p2, p.currentTerm) else
    (Installed(p2, args), p.currentTerm)
  }

  // ---------------------------------------------------------------- clients, the applier, restart

  datatype StartResult = StartResult(index: int, term: int, isLeader: bool)

  function HandleStart(p: Peer, command: Option<Op>): (Peer, StartResult)
    requires |p.log| >= 1
  {
    if !p.role.Leader? then (p, StartResult(-1, -1, false)) else
    var index := p.CurrIndex() + 1;
    (p.(log := p.log + [Entry(p.currentTerm, command, index)]).Persist(p.disk.snapshot), StartResult(index, p.currentTerm, true))
  }

  /** The next committed entry for the service, when there is one. */
  function ApplyNext(p: Peer): (Peer, Entry)
    requires p.lastApplied < p.commitIndex && 0 <= p.ToPhysical(p.lastApplied + 1) < |p.log|
  {
    (p.(lastApplied := p.lastApplied + 1), p.log[p.ToPhysical(p.lastApplied + 1)])
  }

  function Make(me: nat, n: nat, disk: Disk): Peer {
    var p := Peer(me, Follower, [Entry(0, None, 0)], 0, NOBODY, 0, 0, seq(n, _ => 1), seq(n, _ => 0), 0, 0, None, disk);
    var p1 := match disk.state
      case None => p
      case Some(s) => p.(currentTerm := s.currentTerm, votedFor := s.votedFor, log := s.log,
                         lastIncludedIndex := s.lastIncludedIndex, lastIncludedTerm := s.lastIncludedTerm);
    if disk.snapshot.None? then p1 else
    p1.(lastApplied := p1.lastIncludedIndex, commitIndex := p1.lastIncludedIndex,
        pending := Some(PendingSnapshot(disk.snapshot, p1.lastIncludedTerm, p1.lastIncludedIndex)))
  }

  // ---------------------------------------------------------------- the median of the matches

  function CountAtLeast(s: seq<nat>, v: nat): (c: nat)
    ensures c <= |s|
  {
    if |s| == 0 then 0 else (if s[0] >= v then 1 else 0) + CountAtLeast(s[1..], v)
  }

  predicate Ascending(s: seq<nat>) {
    forall i, j :: 0 <= i <= j < |s| ==> s[i] <= s[j]
  }

  lemma {:induction false} InsertAscending(x: nat, s: seq<nat>)
    requires Ascending(s)
    ensures Ascending(Insert(x, s))
    ensures forall y :: y in Insert(x, s) <==> y == x || y in s
  {
    if |s| > 0 && x > s[0] {
      InsertAscending(x, s[1..]);
      assert s == [s[0]] + s[1..];
      var r := Insert(x, s[1..]);
      forall i, j | 0 <= i <= j < |r| + 1
        ensures ([s[0]] + r)[i] <= ([s[0]] + r)[j]
      {
        if i == 0 < j {
          assert r[j - 1] in r;
        }
      }
    }
  }

  lemma {:induction false} InsertCount(x: nat, s: seq<nat>, v: nat)
    ensures CountAtLeast(Insert(x, s), v) == CountAtLeast(s, v) + (if x >= v then 1 else 0)
  {
    if |s| > 0 && x > s[0] {
      InsertCount(x, s[1..], v);
      assert Insert(x, s)[1..] == Insert(x, s[1..]);
    } else {
      assert Insert(x, s)[1..] == s;
    }
  }

  /** Sorting yields an ascending sequence with the same elements, counted at every level. */
  lemma {:induction false} SortedOk(s: seq<nat>, v: nat)
    ensures Ascending(Sorted(s)) && (forall y :: y in Sorted(s) <==> y in s)
    ensures CountAtLeast(Sorted(s), v) == CountAtLeast(s, v)
  {
    if |s| > 0 {
      SortedOk(s[1..], v);
      InsertAscending(s[0], Sorted(s[1..]));
      InsertCount(s[0], Sorted(s[1..]), v);
      assert s == [s[0]] + s[1..];
    }
  }

  /** In an ascending sequence the elements from position i on are exactly those at least as large as any level between. */
  lemma {:induction false} CountSuffix(s: seq<nat>, i: nat, v: nat)
    requires Ascending(s) && i <= |s| && (i < |s| ==> s[i] >= v)
    ensures CountAtLeast(s, v) >= |s| - i
    ensures i > 0 && s[i - 1] < v ==> CountAtLeast(s, v) == |s| - i
  {
    if |s| > 0 {
      CountSuffix(s[1..], if i > 0 then i - 1 else 0, v);
    }
  }

  lemma {:induction false} CountSnoc(s: seq<nat>, x: nat, v: nat)
    ensures CountAtLeast(s + [x], v) == CountAtLeast(s, v) + (if x >= v then 1 else 0)
  {
    if |s| > 0 {
      CountSnoc(s[1..], x, v);
      assert (s + [x])[1..] == s[1..] + [x];
    } else {
      assert s + [x] == [x];
    }
  }

  /** The peers that have reached index v. */
  ghost function Reached(s: seq<nat>, v: nat): set<nat> {
    set q: nat | q < |s| && s[q] >= v
  }

  lemma ReachedSnoc(s: seq<nat>, v: nat)
    requires |s| > 0
    ensures var k := |s| - 1; |Reached(s, v)| == |Reached(s[..k], v)| + if s[k] >= v then 1 else 0
  {
    var k := |s| - 1;
    assert Reached(s, v) == if s[k] >= v then Reached(s[..k], v) + {k} else Reached(s[..k], v);
  }

  lemma {:induction false} ReachedSize(s: seq<nat>, v: nat)
    ensures |Reached(s, v)| == CountAtLeast(s, v)
    decreases |s|
  {
    if |s| > 0 {
      var k := |s| - 1;
      ReachedSize(s[..k], v);
      CountSnoc(s[..k], s[k], v);
      assert s[..k] + [s[k]] == s;
      ReachedSnoc(s, v);
    } else {
      assert Reached(s, v) == {};
    }
  }

  /** The index the leader commits is the largest one that n - floor(n/2) peers have reached. */
  lemma MedianIsLargest(s: seq<nat>, v: nat)
    requires |s| >= 1
    ensures Sorted(s)[|s| / 2] in s
    ensures v <= Sorted(s)[|s| / 2] <==> CountAtLeast(s, v) >= |s| - |s| / 2
  {
    var r, h := Sorted(s), |s| / 2;
    SortedOk(s, v);
    assert r[h] in r;
    if v <= r[h] {
      CountSuffix(r, h, v);
    } else {
      LastBelow(r, v, h);
    }
  }

  lemma {:induction false} LastBelow(r: seq<nat>, v: nat, h: nat)
    requires Ascending(r) && h < |r| && r[h] < v
    ensures CountAtLeast(r, v) < |r| - h
    decreases |r| - h
  {
    if h + 1 < |r| && r[h + 1] < v {
      LastBelow(r, v, h + 1);
    } else {
      CountSuffix(r, h + 1, v);
    }
  }

  lemma MedianInLog(p: Peer)
    requires p.Sane() && p.role.Leader?
    ensures MedianMatch(p) <= p.CurrIndex()
  {
    MedianIsLargest(Matches(p), 0);
  }
}
