/**
 How a compacting peer represents a peer of the abstract protocol. Compaction is a stuttering step. Installing a snapshot
 is accepting the leader's log from its first entry on: no committed entry is lost, nor one counted as matched.
 */
module RaftCoupling {
  import opened Services
  import opened RaftTypes
  import opened RaftPeer
  import opened AbstractRaft
  import opened RaftInvariant
  import opened RaftPreservation
  import opened RaftRuns

  /** The peer's log is what is left of the whole log after compaction; only the boundary may have lost its command. */
  ghost predicate Compacts(log: seq<Entry>, base: nat, whole: seq<Entry>) {
    && base < |whole| && |log| == |whole| - base
    && log[0].term == whole[base].term && log[0].index == base
    && forall i {:trigger log[i]} :: 1 <= i < |log| ==> log[i] == whole[base + i]
  }

  /** What the peer saved is what it would lose. Only a peer that compacted has a snapshot. */
  ghost predicate DiskOk(cp: Peer) {
    && (cp.disk.snapshot.None? <==> cp.lastIncludedIndex == 0)
    && match cp.disk.state
       case None =>
         cp.currentTerm == 0 && cp.votedFor == NOBODY && cp.log == [Sentinel()] && cp.lastIncludedIndex == 0 && cp.lastIncludedTerm == 0
       case Some(s) =>
         s == Saved(cp.currentTerm, cp.votedFor, cp.log, cp.lastIncludedIndex, cp.lastIncludedTerm)
  }

  ghost predicate Mirrors(cp: Peer, ap: APeer) {
    && cp.role == ap.role && cp.currentTerm == ap.term && cp.votedFor == ap.votedFor && cp.commitIndex == ap.commit
    && Compacts(cp.log, cp.lastIncludedIndex, ap.log) && cp.lastIncludedTerm == cp.log[0].term
    && cp.lastIncludedIndex <= cp.lastApplied <= cp.commitIndex < |ap.log|
    && DiskOk(cp)
  }

  /** The leader's indices are backed by acknowledgements of the current term. */
  ghost predicate IndicesOk(a: AState, cp: Peer) {
    && |cp.nextIndex| == |cp.matchIndex| == |a.peers|
    && (cp.role.Leader? ==>
          && (forall q: nat {:trigger cp.nextIndex[q]} :: q < |a.peers| ==> 1 <= cp.nextIndex[q] <= cp.CurrIndex() + 1)
          && (forall q: nat {:trigger cp.matchIndex[q]} :: q < |a.peers| ==>
                cp.matchIndex[q] <= cp.CurrIndex() && (q != cp.me ==> cp.matchIndex[q] <= Ack(a.peers[q], cp.currentTerm))))
  }

  ghost predicate PeerCoupled(a: AState, cp: Peer, p: nat) {
    p < |a.peers| && cp.me == p && Mirrors(cp, a.peers[p]) && IndicesOk(a, cp)
  }

  lemma CoupledIsSane(a: AState, cp: Peer, p: nat)
    requires PeerCoupled(a, cp, p)
    ensures cp.Sane()
  {
  }

  lemma CoupledLater(a: AState, b: AState, cp: Peer, p: nat)
    requires PeerCoupled(a, cp, p) && Later(a, b) && b.peers[p] == a.peers[p]
    ensures PeerCoupled(b, cp, p)
  {
    if cp.role.Leader? {
      forall q: nat | q < |b.peers| && q != cp.me
        ensures cp.matchIndex[q] <= Ack(b.peers[q], cp.currentTerm)
      {
        assert cp.matchIndex[q] <= Ack(a.peers[q], cp.currentTerm);
      }
    }
  }

  // ---------------------------------------------------------------- terms

  /** Only peer p has moved. */
  ghost predicate OnlyPeer(a: AState, b: AState, p: nat) {
    p < |a.peers| == |b.peers| && b == a.(peers := a.peers[p := b.peers[p]])
  }

  lemma OnlyPeerThen(a: AState, b: AState, c: AState, p: nat)
    requires OnlyPeer(a, b, p) && OnlyPeer(b, c, p)
    ensures OnlyPeer(a, c, p)
  {
  }

  ghost predicate PeerMoved(a: AState, b: AState, p: nat) {
    p < |a.peers| == |b.peers| && b.peers == a.peers[p := b.peers[p]]
  }

  /** A run without proposals during which no peer but p moved. */
  ghost predicate Moves(a: AState, b: AState, p: nat) {
    Quietly(a, b) && PeerMoved(a, b, p)
  }

  lemma AdoptRefines(a: AState, cp: Peer, p: nat, term: nat) returns (b: AState)
    requires Inv(a) && PeerCoupled(a, cp, p)
    ensures Quietly(a, b) && Inv(b) && OnlyPeer(a, b, p) && PeerCoupled(b, cp.Adopt(term), p)
    ensures b.peers[p].log == a.peers[p].log && b.peers[p].acks == a.peers[p].acks
  {
    if term > cp.currentTerm {
      assert PeerOk(a, p);
      b := Next(a, Bump(p, term));
      QuietlyNext(a, Bump(p, term));
    } else {
      b := a;
      QuietlyItself(a);
    }
    QuietlyLater(a, b);
  }

  lemma StepDownRefines(a: AState, cp: Peer, p: nat) returns (b: AState)
    requires Inv(a) && PeerCoupled(a, cp, p) && cp.role.Candidate?
    ensures Quietly(a, b) && Inv(b) && OnlyPeer(a, b, p) && PeerCoupled(b, cp.StepDown(cp.currentTerm), p)
    ensures b.peers[p].log == a.peers[p].log && b.peers[p].term == a.peers[p].term
  {
    assert PeerOk(a, p);
    b := Next(a, Event.StepDown(p));
    QuietlyNext(a, Event.StepDown(p));
    QuietlyLater(a, b);
  }

  lemma HearRefines(a: AState, cp: Peer, p: nat, term: nat) returns (b: AState)
    requires Inv(a) && PeerCoupled(a, cp, p) && term >= cp.currentTerm
    ensures Quietly(a, b) && Inv(b) && OnlyPeer(a, b, p) && PeerCoupled(b, Heard(cp, term), p)
    ensures b.peers[p].log == a.peers[p].log && b.peers[p].term == term
  {
    var m := AdoptRefines(a, cp, p, term);
    b := m;
    if cp.Adopt(term).role.Candidate? {
      b := StepDownRefines(m, cp.Adopt(term), p);
      QuietlyThen(a, m, b);
      OnlyPeerThen(a, m, b, p);
    }
  }

  // ---------------------------------------------------------------- AppendEntries

  lemma {:induction false} MatchedShift(log: seq<Entry>, base: nat, whole: seq<Entry>, prev: nat, entries: seq<Entry>, i: nat)
    requires Compacts(log, base, whole) && base <= prev < |whole| && i <= |entries|
    ensures Matched(log, prev - base, entries, i) == Matched(whole, prev, entries, i)
    decreases |entries| - i
  {
    if i < |entries| && prev + 1 + i < |whole| {
      assert log[prev - base + 1 + i] == whole[prev + 1 + i];
      MatchedShift(log, base, whole, prev, entries, i + 1);
    }
  }

  /** Merging commutes with compaction. */
  lemma MergeShift(log: seq<Entry>, base: nat, whole: seq<Entry>, prev: nat, entries: seq<Entry>)
    requires Compacts(log, base, whole) && base <= prev < |whole|
    ensures Compacts(Merge(log, prev - base, entries), base, Merge(whole, prev, entries))
  {
    MatchedShift(log, base, whole, prev, entries, 0);
    var r := Matched(whole, prev, entries, 0);
    var log', whole' := Merge(log, prev - base, entries), Merge(whole, prev, entries);
    if r < |entries| {
      forall i | 1 <= i < |log'|
        ensures log'[i] == whole'[base + i]
      {
        if i < prev - base + 1 + r {
          assert log'[i] == log[i];
        }
      }
    }
  }

  /** Taking entries over touches the log and what is saved of it. */
  lemma TakenFields(cp: Peer, prev: nat, entries: seq<Entry>)
    requires prev < |cp.log| && DiskOk(cp)
    ensures var cp' := Taken(cp, prev, entries);
            && cp'.log == Merge(cp.log, prev, entries) && |cp'.log| >= 1 && cp'.log[0] == cp.log[0]
            && DiskOk(cp') && cp' == cp.(log := cp'.log, disk := cp'.disk)
  {
    MergeKeepsHead(cp.log, prev, entries);
  }

  /** The accepting section, field by field; the clamp on the commit index does not fire. */
  lemma AcceptedFields(cp: Peer, prev: nat, m: AppendMsg)
    requires m.prev == cp.lastIncludedIndex + prev && prev < |cp.log| && DiskOk(cp)
    requires Max(cp.commitIndex, m.commit) < cp.lastIncludedIndex + |Merge(cp.log, prev, m.entries)|
    ensures var cp', log := AppendAccepted(cp, m), Merge(cp.log, prev, m.entries);
            && cp'.log == log && |log| >= 1 && log[0] == cp.log[0] && cp'.commitIndex == Max(cp.commitIndex, m.commit)
            && DiskOk(cp') && cp' == cp.(log := cp'.log, commitIndex := cp'.commitIndex, disk := cp'.disk)
  {
    TakenFields(cp, prev, m.entries);
  }

  lemma AppendAcceptedFields(cp: Peer, whole: seq<Entry>, m: AppendMsg)
    requires Compacts(cp.log, cp.lastIncludedIndex, whole) && DiskOk(cp) && cp.lastIncludedIndex <= m.prev < |whole|
    requires Max(cp.commitIndex, m.commit) < |Merge(whole, m.prev, m.entries)|
    ensures var cp' := AppendAccepted(cp, m);
            && Compacts(cp'.log, cp.lastIncludedIndex, Merge(whole, m.prev, m.entries)) && cp'.log[0] == cp.log[0]
            && cp'.commitIndex == Max(cp.commitIndex, m.commit) && DiskOk(cp')
            && cp' == cp.(log := cp'.log, commitIndex := cp'.commitIndex, disk := cp'.disk)
  {
    var prev, whole' := m.prev - cp.lastIncludedIndex, Merge(whole, m.prev, m.entries);
    MergeShift(cp.log, cp.lastIncludedIndex, whole, m.prev, m.entries);
    AcceptedFields(cp, prev, m);
    SameCompacts(AppendAccepted(cp, m).log, Merge(cp.log, prev, m.entries), cp.lastIncludedIndex, whole');
  }

  lemma SameCompacts(log: seq<Entry>, same: seq<Entry>, base: nat, whole: seq<Entry>)
    requires Compacts(same, base, whole) && log == same
    ensures Compacts(log, base, whole)
  {
  }

  lemma AppendAcceptedRefines(a: AState, cp: Peer, p: nat, m: AppendMsg)
    requires Inv(a) && PeerCoupled(a, cp, p) && Enabled(a, Accept(p, m)) && cp.lastIncludedIndex <= m.prev
    requires !cp.role.Candidate?
    ensures PeerCoupled(Next(a, Accept(p, m)), AppendAccepted(cp, m), p)
    ensures Ack(Next(a, Accept(p, m)).peers[p], m.term) >= m.prev + |m.entries|
  {
    var b := Next(a, Accept(p, m));
    AcceptDurable(a, b, p, m);
    AppendAcceptedFields(cp, a.peers[p].log, m);
    AcceptGrows(a, b, p, m);
    assert b.peers[p].commit == Max(cp.commitIndex, m.commit);
    assert Mirrors(AppendAccepted(cp, m), b.peers[p]);
  }

  lemma MergeKeepsHead(log: seq<Entry>, prev: nat, entries: seq<Entry>)
    requires prev < |log|
    ensures |Merge(log, prev, entries)| >= 1 && Merge(log, prev, entries)[0] == log[0]
  {
  }

  /** The ways an AppendEntries call can go: out of date, accepted, or just heard from the leader. */
  ghost predicate AppendOutcome(cp: Peer, m: AppendMsg, cp': Peer, success: bool) {
    if m.term < cp.currentTerm then cp' == cp && !success
    else
      var hp := Heard(cp, m.term);
      if success then
        && 0 <= hp.ToPhysical(m.prev) < |hp.log| && hp.log[hp.ToPhysical(m.prev)].term == m.prevTerm
        && cp' == AppendAccepted(hp, m)
      else cp' == hp
  }

  lemma HandleAppendCases(cp: Peer, m: AppendMsg)
    requires |cp.log| >= 1
    ensures AppendOutcome(cp, m, HandleAppend(cp, m).0, HandleAppend(cp, m).1.success)
  {
  }

  lemma AcceptStepRefines(a: AState, cp: Peer, p: nat, m: AppendMsg) returns (b: AState)
    requires Inv(a) && PeerCoupled(a, cp, p) && m in a.appends && m.leader != p && m.term == cp.currentTerm && !cp.role.Candidate?
    requires 0 <= cp.ToPhysical(m.prev) < |cp.log| && cp.log[cp.ToPhysical(m.prev)].term == m.prevTerm
    ensures Quietly(a, b) && OnlyPeer(a, b, p) && PeerCoupled(b, AppendAccepted(cp, m), p)
    ensures Ack(b.peers[p], m.term) >= m.prev + |m.entries|
  {
    AcceptEnabled(a, cp, p, m);
    AppendAcceptedRefines(a, cp, p, m);
    b := Next(a, Accept(p, m));
    QuietlyNext(a, Accept(p, m));
  }

  lemma AppendRefines(a: AState, cp: Peer, cp': Peer, p: nat, m: AppendMsg, success: bool) returns (b: AState)
    requires Inv(a) && PeerCoupled(a, cp, p) && m in a.appends && m.leader != p && AppendOutcome(cp, m, cp', success)
    ensures Quietly(a, b) && OnlyPeer(a, b, p) && PeerCoupled(b, cp', p)
    ensures success ==> Ack(b.peers[p], m.term) >= m.prev + |m.entries|
  {
    if m.term < cp.currentTerm {
      b := a;
      QuietlyItself(a);
    } else {
      var h := HearRefines(a, cp, p, m.term);
      b := h;
      if success {
        b := AcceptStepRefines(h, Heard(cp, m.term), p, m);
        QuietlyThen(a, h, b);
        OnlyPeerThen(a, h, b, p);
      }
    }
  }

  lemma AcceptEnabled(a: AState, cp: Peer, p: nat, m: AppendMsg)
    requires PeerCoupled(a, cp, p) && m in a.appends && m.leader != p && m.term == cp.currentTerm
    requires 0 <= cp.ToPhysical(m.prev) < |cp.log| && cp.log[cp.ToPhysical(m.prev)].term == m.prevTerm
    ensures Enabled(a, Accept(p, m))
  {
  }

  // ---------------------------------------------------------------- InstallSnapshot

  /** The AppendEntries that a snapshot stands for: the leader's log from its first entry up to the snapshot. */
  ghost predicate StandsFor(m: AppendMsg, args: InstallMsg) {
    && m.term == args.term && m.leader == args.leader && m.prev == 0 && m.prevTerm == 0 && m.commit == args.lastIndex
    && |m.entries| == args.lastIndex >= 1 && m.entries[args.lastIndex - 1].term == args.lastTerm && args.data.Some?
  }

  /** The leader's log up to position last is already part of the log: accepting it changes nothing. */
  lemma MergeKnown(log: seq<Entry>, leader: seq<Entry>, entries: seq<Entry>)
    requires AgreeTo(log, leader, |entries|) && SliceOf(entries, 0, leader)
    ensures Merge(log, 0, entries) == log
  {
    forall i | 0 <= i < |entries|
      ensures 1 + i < |log| && log[1 + i] == entries[i]
    {
      assert log[1 + i] == leader[1 + i];
    }
  }

  lemma InstallEnabled(a: AState, cp: Peer, p: nat, m: AppendMsg)
    requires Inv(a) && PeerCoupled(a, cp, p) && m in a.appends && m.leader != p && m.term == cp.currentTerm
    requires m.prev == 0 && m.prevTerm == 0
    ensures Enabled(a, Accept(p, m)) && m.term in a.leaders && SliceOf(m.entries, 0, a.leaders[m.term].log)
  {
    assert PeerOk(a, p);
    assert AppendOk(a, m);
    assert LeaderOk(a, LastTerm(a.peers[p].log));
  }

  /** A snapshot no newer than the peer's own changes nothing, and is acknowledged all the same. */
  lemma OldInstallRefines(a: AState, cp: Peer, p: nat, m: AppendMsg, args: InstallMsg)
    requires Inv(a) && PeerCoupled(a, cp, p) && m in a.appends && StandsFor(m, args) && m.leader != p && m.term == cp.currentTerm
    requires args.lastIndex <= cp.lastIncludedIndex && !cp.role.Candidate?
    ensures Enabled(a, Accept(p, m)) && PeerCoupled(Next(a, Accept(p, m)), cp, p)
    ensures Ack(Next(a, Accept(p, m)).peers[p], m.term) >= args.lastIndex
  {
    InstallEnabled(a, cp, p, m);
    var b, ap := Next(a, Accept(p, m)), a.peers[p];
    assert PeerOk(a, p);
    assert m.term in a.leaders;
    DurableInLeader(a, ap.log, ap.commit, m.term);
    assert AgreeTo(ap.log, a.leaders[m.term].log, |m.entries|);
    MergeKnown(ap.log, a.leaders[m.term].log, m.entries);
    AcceptGrows(a, b, p, m);
  }

  /** The log an installing peer is left with, against the merged whole log. */
  lemma InstalledCompacts(cp: Peer, log: seq<Entry>, leader: seq<Entry>, log': seq<Entry>, args: InstallMsg)
    requires Compacts(cp.log, cp.lastIncludedIndex, log) && cp.lastIncludedIndex < args.lastIndex
    requires Merged(log, leader, log', args.lastIndex) && leader[args.lastIndex].term == args.lastTerm
    requires args.lastIndex < |log| ==> log[args.lastIndex].index == args.lastIndex
    requires args.lastIndex < |log| && log[args.lastIndex].term == args.lastTerm ==> log' == log
    ensures Compacts(Installed(cp, args).log, args.lastIndex, log') && Installed(cp, args).log[0].term == args.lastTerm
  {
    var last, at := args.lastIndex, cp.ToPhysical(args.lastIndex);
    if last < |log| {
      assert cp.log[at] == log[last];
    }
    if last < |log| && log[last].term == args.lastTerm {
      assert Installed(cp, args).log == cp.log[at..];
    } else {
      assert log'[last] == leader[last];
      assert log' != log;
    }
  }

  lemma NewInstallLog(a: AState, cp: Peer, p: nat, m: AppendMsg, args: InstallMsg)
    requires Inv(a) && PeerCoupled(a, cp, p) && m in a.appends && StandsFor(m, args) && m.leader != p && m.term == cp.currentTerm
    requires args.lastIndex > cp.lastIncludedIndex
    ensures Enabled(a, Accept(p, m))
    ensures Compacts(Installed(cp, args).log, args.lastIndex, Next(a, Accept(p, m)).peers[p].log)
    ensures Installed(cp, args).log[0].term == args.lastTerm
  {
    InstallEnabled(a, cp, p, m);
    var log, leader := a.peers[p].log, a.leaders[m.term].log;
    var last := args.lastIndex;
    assert PeerOk(a, p);
    MergedLog(a, log, m);
    assert leader[last] == m.entries[last - 1];
    if last < |log| {
      IndexIsPosition(a, log, last);
      if log[last].term == args.lastTerm {
        LogMatchesLeader(a, log, m.term, last);
        MergeKnown(log, leader, m.entries);
      }
    }
    InstalledCompacts(cp, log, leader, Merge(log, 0, m.entries), args);
  }

  /** Every entry carries its position. */
  lemma IndexIsPosition(a: AState, log: seq<Entry>, i: nat)
    requires Inv(a) && LogOk(a, log) && i < |log|
    ensures log[i].index == i
  {
    assert LeaderOk(a, LastTerm(log));
  }

  lemma NewInstallRefines(a: AState, cp: Peer, p: nat, m: AppendMsg, args: InstallMsg)
    requires Inv(a) && PeerCoupled(a, cp, p) && m in a.appends && StandsFor(m, args) && m.leader != p && m.term == cp.currentTerm
    requires args.lastIndex > cp.lastIncludedIndex && !cp.role.Candidate?
    ensures Enabled(a, Accept(p, m)) && PeerCoupled(Next(a, Accept(p, m)), Installed(cp, args), p)
    ensures Ack(Next(a, Accept(p, m)).peers[p], m.term) >= args.lastIndex
  {
    NewInstallLog(a, cp, p, m, args);
    var b := Next(a, Accept(p, m));
    AcceptDurable(a, b, p, m);
    AcceptGrows(a, b, p, m);
  }

  lemma InstallStepRefines(a: AState, cp: Peer, p: nat, m: AppendMsg, args: InstallMsg) returns (b: AState)
    requires Inv(a) && PeerCoupled(a, cp, p) && m in a.appends && StandsFor(m, args) && m.leader != p
    requires m.term == cp.currentTerm && !cp.role.Candidate?
    ensures Quietly(a, b) && OnlyPeer(a, b, p) && Ack(b.peers[p], m.term) >= args.lastIndex
    ensures PeerCoupled(b, if args.lastIndex <= cp.lastIncludedIndex then cp else Installed(cp, args), p)
  {
    if args.lastIndex <= cp.lastIncludedIndex {
      OldInstallRefines(a, cp, p, m, args);
    } else {
      NewInstallRefines(a, cp, p, m, args);
    }
    b := Next(a, Accept(p, m));
    QuietlyNext(a, Accept(p, m));
  }

  /** The ways an InstallSnapshot call can go: out of date, nothing new, or a new boundary. */
  ghost predicate InstallOutcome(cp: Peer, args: InstallMsg, cp': Peer, term: nat) {
    if args.term < cp.currentTerm then cp' == cp && term > args.term
    else
      var hp := Heard(cp, args.term);
      |hp.log| >= 1 && cp' == if args.lastIndex <= hp.lastIncludedIndex then hp else Installed(hp, args)
  }

  lemma HandleInstallCases(cp: Peer, args: InstallMsg)
    requires |cp.log| >= 1
    ensures InstallOutcome(cp, args, HandleInstall(cp, args).0, HandleInstall(cp, args).1)
  {
  }

  lemma InstallRefines(a: AState, cp: Peer, cp': Peer, p: nat, m: AppendMsg, args: InstallMsg, term: nat) returns (b: AState)
    requires Inv(a) && PeerCoupled(a, cp, p) && m in a.appends && StandsFor(m, args) && m.leader != p
    requires InstallOutcome(cp, args, cp', term)
    ensures Quietly(a, b) && OnlyPeer(a, b, p) && PeerCoupled(b, cp', p)
    ensures term > args.term || Ack(b.peers[p], args.term) >= args.lastIndex
  {
    if m.term < cp.currentTerm {
      b := a;
      QuietlyItself(a);
    } else {
      var h := HearRefines(a, cp, p, m.term);
      b := InstallStepRefines(h, Heard(cp, m.term), p, m, args);
      QuietlyThen(a, h, b);
      OnlyPeerThen(a, h, b, p);
    }
  }

  // ---------------------------------------------------------------- compaction and restart

  /** Taking a snapshot of delivered entries is invisible to the protocol. */
  lemma SnapshotStutters(a: AState, cp: Peer, p: nat, index: nat, data: Data)
    requires PeerCoupled(a, cp, p) && index <= cp.lastApplied && Inv(a)
    ensures PeerCoupled(a, TakeSnapshot(cp, index, data), p)
  {
    if cp.lastIncludedIndex < index <= cp.CurrIndex() {
      assert PeerOk(a, p);
      IndexIsPosition(a, a.peers[p].log, index);
    }
  }

  lemma RestartRefines(a: AState, cp: Peer, p: nat)
    requires Inv(a) && PeerCoupled(a, cp, p)
    ensures Enabled(a, Event.Restart(p, cp.lastIncludedIndex))
    ensures PeerCoupled(Next(a, Event.Restart(p, cp.lastIncludedIndex)), Make(p, |a.peers|, cp.disk), p)
  {
    assert PeerOk(a, p);
  }
}
