/**
 Every replica's store is the fold of the committed commands up to its index, and so is every snapshot: the one the
 reader is about to save, the one on disk, the one owed to the service and the ones in flight. Crashes, restarts,
 snapshots and installs all keep this.
 */
module RsmFold {
  import opened KvStore
  import opened Services
  import opened RaftTypes
  import opened Sets
  import opened RaftPeer
  import opened AbstractRaft
  import opened RaftInvariant
  import opened RaftPreservation
  import opened RaftRuns
  import opened RaftCoupling
  import opened RaftRefinement
  import opened RaftSafety
  import C = RaftCluster
  import opened RsmSystem

  // ---------------------------------------------------------------- decided states

  /** d is the store after the committed commands 1..i. */
  ghost predicate DecidedStateBy(v: Service, a: AState, i: nat, d: Data, t: nat, k: nat) {
    i <= k && Committed(a, t, k) && d == StateAt(v, a.leaders[t].log, i)
  }

  ghost predicate DecidedState(v: Service, a: AState, i: nat, d: Data) {
    exists t: nat, k: nat :: DecidedStateBy(v, a, i, d, t, k)
  }

  lemma {:induction false} StateAtAgree(v: Service, l: seq<Entry>, m: seq<Entry>, i: nat)
    requires AgreeTo(l, m, i)
    ensures StateAt(v, l, i) == StateAt(v, m, i)
  {
    if i > 0 {
      StateAtAgree(v, l, m, i - 1);
    }
  }

  /** There is only one store after the committed commands 1..i. */
  lemma DecidedStateOnce(v: Service, a: AState, i: nat, d: Data, e: Data)
    requires Inv(a) && DecidedState(v, a, i, d) && DecidedState(v, a, i, e)
    ensures d == e
  {
    var t: nat, k: nat :| DecidedStateBy(v, a, i, d, t, k);
    var u: nat, l: nat :| DecidedStateBy(v, a, i, e, u, l);
    if t <= u {
      LeaderCompleteness(a, t, k, u);
    } else {
      LeaderCompleteness(a, u, l, t);
    }
    StateAtAgree(v, a.leaders[t].log, a.leaders[u].log, i);
  }

  /** Executing the next decided command leads to the next decided store. */
  lemma DecidedStateNext(v: Service, a: AState, i: nat, d: Data, e: Entry)
    requires Inv(a) && DecidedState(v, a, i, d) && Decided(a, i + 1, e)
    ensures DecidedState(v, a, i + 1, Executed(v, d, e.command))
  {
    var t: nat, k: nat :| DecidedBy(a, i + 1, e, t, k);
    var log := a.leaders[t].log;
    assert DecidedStateBy(v, a, i, StateAt(v, log, i), t, k);
    DecidedStateOnce(v, a, i, d, StateAt(v, log, i));
    assert DecidedStateBy(v, a, i + 1, StateAt(v, log, i + 1), t, k);
  }

  lemma CommittedLater(a: AState, b: AState, t: nat, k: nat)
    requires Later(a, b) && Committed(a, t, k)
    ensures Committed(b, t, k) && RecordKept(a.leaders[t], b.leaders[t])
  {
    var q :| CommittedBy(a, t, k, q);
    forall x | x in q
      ensures Ack(b.peers[x], t) >= k
    {
      assert Ack(b.peers[x], t) >= Ack(a.peers[x], t);
    }
    assert CommittedBy(b, t, k, q);
  }

  lemma DecidedStateLater(v: Service, a: AState, b: AState, i: nat, d: Data)
    requires Later(a, b) && DecidedState(v, a, i, d)
    ensures DecidedState(v, b, i, d)
  {
    var t: nat, k: nat :| DecidedStateBy(v, a, i, d, t, k);
    CommittedLater(a, b, t, k);
    StateAtAgree(v, a.leaders[t].log, b.leaders[t].log, i);
    assert DecidedStateBy(v, b, i, d, t, k);
  }

  lemma DecidedLater(a: AState, b: AState, i: nat, e: Entry)
    requires Later(a, b) && Decided(a, i, e)
    ensures Decided(b, i, e)
  {
    var t: nat, k: nat :| DecidedBy(a, i, e, t, k);
    CommittedLater(a, b, t, k);
    assert DecidedBy(b, i, e, t, k);
  }

  lemma EmptyDecided(v: Service, a: AState)
    requires Inv(a)
    ensures DecidedState(v, a, 0, v.initial)
  {
    assert CommittedBy(a, 0, 0, Below(|a.peers|));
    assert DecidedStateBy(v, a, 0, v.initial, 0, 0);
  }

  // ---------------------------------------------------------------- the invariant

  ghost predicate SnapshotOk(v: Service, a: AState, data: Option<Data>, index: nat) {
    data.Some? && DecidedState(v, a, index, data.value)
  }

  ghost predicate DecidedCommand(a: AState, i: nat, command: Option<Op>) {
    exists e: Entry :: Decided(a, i, e) && e.command == command
  }

  /** What the applier is sending follows on what the store reflects. */
  ghost predicate InHandOk(a: AState, cp: Peer, r: Replica) {
    match r.inHand
    case None => cp.pending.None? ==> r.index == cp.lastApplied
    case Some(SnapshotMsg(s)) => cp.pending == Some(s)
    case Some(CommandMsg(i, command)) => cp.pending.None? && i == cp.lastApplied == r.index + 1 && DecidedCommand(a, i, command)
  }

  ghost predicate ReplicaOk(v: Service, a: AState, cp: Peer, r: Replica) {
    && DecidedState(v, a, r.index, r.data) && r.index <= cp.lastApplied
    && InHandOk(a, cp, r)
    && (cp.pending.Some? ==> SnapshotOk(v, a, cp.pending.value.data, cp.pending.value.index) && cp.pending.value.index == cp.lastApplied)
    && (r.saving.Some? ==> DecidedState(v, a, r.saving.value.0, r.saving.value.1) && r.saving.value.0 <= cp.lastApplied)
    && (cp.disk.snapshot.Some? ==> DecidedState(v, a, cp.lastIncludedIndex, cp.disk.snapshot.value))
  }

  ghost predicate CallDataOk(v: Service, a: AState, k: C.Packet) {
    k.InstallCall? ==> SnapshotOk(v, a, k.install.data, k.install.lastIndex)
  }

  ghost predicate FoldInv(s: System, a: AState) {
    && Inv(a) && Coupled(s.c, a) && |s.replicas| == |s.c.peers|
    && (forall p: nat {:trigger ReplicaOk(s.service, a, s.c.peers[p], s.replicas[p])} :: p < |s.replicas| ==> ReplicaOk(s.service, a, s.c.peers[p], s.replicas[p]))
    && (forall k {:trigger CallDataOk(s.service, a, k)} :: k in s.c.net ==> CallDataOk(s.service, a, k))
  }

  // ---------------------------------------------------------------- what is left alone

  lemma ReplicaLater(v: Service, a: AState, b: AState, cp: Peer, r: Replica)
    requires ReplicaOk(v, a, cp, r) && Later(a, b)
    ensures ReplicaOk(v, b, cp, r)
  {
    DecidedStateLater(v, a, b, r.index, r.data);
    if cp.pending.Some? {
      DecidedStateLater(v, a, b, cp.pending.value.index, cp.pending.value.data.value);
    }
    if r.saving.Some? {
      DecidedStateLater(v, a, b, r.saving.value.0, r.saving.value.1);
    }
    if cp.disk.snapshot.Some? {
      DecidedStateLater(v, a, b, cp.lastIncludedIndex, cp.disk.snapshot.value);
    }
    InHandLater(a, b, cp, r);
  }

  lemma InHandLater(a: AState, b: AState, cp: Peer, r: Replica)
    requires InHandOk(a, cp, r) && Later(a, b)
    ensures InHandOk(b, cp, r)
  {
    if r.inHand.Some? && r.inHand.value.CommandMsg? {
      var e: Entry :| Decided(a, r.inHand.value.index, e) && e.command == r.inHand.value.command;
      DecidedLater(a, b, r.inHand.value.index, e);
    }
  }

  lemma CallDataLater(v: Service, a: AState, b: AState, k: C.Packet)
    requires CallDataOk(v, a, k) && Later(a, b)
    ensures CallDataOk(v, b, k)
  {
    if k.InstallCall? {
      DecidedStateLater(v, a, b, k.install.lastIndex, k.install.data.value);
    }
  }

  /** One peer and its replica moved, and the step justifies what it added. */
  lemma FoldStep(s: System, s': System, a: AState, b: AState, p: nat)
    requires FoldInv(s, a) && Later(a, b) && Inv(b) && Coupled(s'.c, b) && p < |s.replicas| == |s'.replicas| == |s'.c.peers|
    requires forall q: nat :: q < |s.replicas| && q != p ==> s'.replicas[q] == s.replicas[q] && s'.c.peers[q] == s.c.peers[q]
    requires s'.service == s.service && ReplicaOk(s.service, b, s'.c.peers[p], s'.replicas[p])
    requires forall k :: k in s'.c.net && k !in s.c.net ==> CallDataOk(s.service, b, k)
    ensures FoldInv(s', b)
  {
    forall q: nat | q < |s'.replicas|
      ensures ReplicaOk(s.service, b, s'.c.peers[q], s'.replicas[q])
    {
      if q != p {
        assert ReplicaOk(s.service, a, s.c.peers[q], s.replicas[q]);
        ReplicaLater(s.service, a, b, s.c.peers[q], s.replicas[q]);
      }
    }
    forall k | k in s'.c.net
      ensures CallDataOk(s.service, b, k)
    {
      if k in s.c.net {
        assert CallDataOk(s.service, a, k);
        CallDataLater(s.service, a, b, k);
      }
    }
  }

  /** The service sees nothing of a section that leaves these fields alone. */
  ghost predicate ServiceUntouched(cp: Peer, cp': Peer) {
    && cp'.pending == cp.pending && cp'.lastApplied == cp.lastApplied
    && cp'.lastIncludedIndex == cp.lastIncludedIndex && cp'.disk.snapshot == cp.disk.snapshot
  }

  lemma UntouchedReplica(v: Service, a: AState, cp: Peer, cp': Peer, r: Replica)
    requires ReplicaOk(v, a, cp, r) && ServiceUntouched(cp, cp')
    ensures ReplicaOk(v, a, cp', r)
  {
  }

  // ---------------------------------------------------------------- protocol steps

  lemma CallUntouched(c: C.Cluster, step: C.Step)
    requires C.CanStep(c, step) && C.InBounds(c, step) && !TakesOver(c, step) && (step.ReceiveAppend? || step.ReceiveInstall?)
    ensures ServiceUntouched(c.peers[step.call.dst], C.After(c, step).peers[step.call.dst])
  {
    if step.ReceiveAppend? {
      HandleAppendCases(c.peers[step.call.dst], step.call.append);
    } else {
      HandleInstallCases(c.peers[step.call.dst], step.call.install);
    }
  }

  lemma AnswerUntouched(c: C.Cluster, step: C.Step)
    requires C.CanStep(c, step) && C.InBounds(c, step) && (step.ReceiveAppendAnswer? || step.ReceiveInstallAnswer?)
    ensures ServiceUntouched(c.peers[C.Actor(c, step)], C.After(c, step).peers[C.Actor(c, step)])
  {
  }

  lemma LocalUntouched(c: C.Cluster, step: C.Step)
    requires C.CanStep(c, step) && C.InBounds(c, step)
    requires step.Tick? || step.CallElection? || step.ReceiveVote? || step.ReceiveVoteAnswer? || step.Send? || step.Start?
    ensures ServiceUntouched(c.peers[C.Actor(c, step)], C.After(c, step).peers[C.Actor(c, step)])
  {
  }

  lemma StepUntouched(c: C.Cluster, step: C.Step)
    requires C.CanStep(c, step) && C.InBounds(c, step) && !TakesOver(c, step)
    requires !step.Apply? && !step.SnapshotSent? && !step.Snapshot? && !step.Restart?
    ensures ServiceUntouched(c.peers[C.Actor(c, step)], C.After(c, step).peers[C.Actor(c, step)])
  {
    if step.ReceiveAppend? || step.ReceiveInstall? {
      CallUntouched(c, step);
    } else if step.ReceiveAppendAnswer? || step.ReceiveInstallAnswer? {
      AnswerUntouched(c, step);
    } else {
      LocalUntouched(c, step);
    }
  }

  lemma TakenOver(c: C.Cluster, step: C.Step)
    requires C.CanStep(c, step) && C.InBounds(c, step) && TakesOver(c, step)
    ensures var cp, cp', args := c.peers[step.call.dst], C.After(c, step).peers[step.call.dst], step.call.install;
            && cp'.pending == Some(PendingSnapshot(args.data, args.lastTerm, args.lastIndex))
            && cp'.lastApplied == Max(cp.lastApplied, args.lastIndex)
            && cp'.lastIncludedIndex == args.lastIndex && cp'.disk.snapshot == args.data
  {
    HandleInstallCases(c.peers[step.call.dst], step.call.install);
  }

  /** A snapshot sent carries the leader's own decided state. */
  lemma SentDataOk(s: System, a: AState, step: C.Step, k: C.Packet)
    requires FoldInv(s, a) && C.CanStep(s.c, step) && C.InBounds(s.c, step) && k in C.After(s.c, step).net && k !in s.c.net
    ensures CallDataOk(s.service, a, k)
  {
    if step.Send? {
      var peer := s.c.peers[step.p];
      assert PeerCoupled(a, peer, step.p);
      assert ReplicaOk(s.service, a, peer, s.replicas[step.p]);
    }
  }

  lemma ProtocolReplica(s: System, a: AState, step: C.Step)
    requires FoldInv(s, a) && CanStep(s, Protocol(step))
    ensures var p := C.Actor(s.c, step); ReplicaOk(s.service, a, C.After(s.c, step).peers[p], s.replicas[p])
  {
    var p := C.Actor(s.c, step);
    assert ReplicaOk(s.service, a, s.c.peers[p], s.replicas[p]);
    if TakesOver(s.c, step) {
      assert CallDataOk(s.service, a, step.call);
      TakenOver(s.c, step);
    } else {
      StepUntouched(s.c, step);
      UntouchedReplica(s.service, a, s.c.peers[p], C.After(s.c, step).peers[p], s.replicas[p]);
    }
  }

  lemma ProtocolFold(s: System, a: AState, step: C.Step) returns (b: AState)
    requires FoldInv(s, a) && CanStep(s, Protocol(step))
    ensures Quietly(a, b) && FoldInv(After(s, Protocol(step)), b)
  {
    var p, s' := C.Actor(s.c, step), After(s, Protocol(step));
    b := StepRefines(s.c, a, step);
    QuietlyLater(a, b);
    ProtocolReplica(s, a, step);
    ReplicaLater(s.service, a, b, s'.c.peers[p], s.replicas[p]);
    forall k | k in s'.c.net && k !in s.c.net
      ensures CallDataOk(s.service, b, k)
    {
      SentDataOk(s, a, step, k);
      CallDataLater(s.service, a, b, k);
    }
    ProtocolOthers(s, step);
    FoldStep(s, s', a, b, p);
  }

  lemma ProtocolOthers(s: System, step: C.Step)
    requires C.CanStep(s.c, step) && C.InBounds(s.c, step)
    ensures |C.After(s.c, step).peers| == |s.c.peers|
    ensures forall q: nat :: q < |s.c.peers| && q != C.Actor(s.c, step) ==> C.After(s.c, step).peers[q] == s.c.peers[q]
  {
  }

  // ---------------------------------------------------------------- the applier and the reader

  lemma OfferSnapshotFold(s: System, a: AState, p: nat)
    requires FoldInv(s, a) && CanStep(s, OfferSnapshot(p))
    ensures FoldInv(After(s, OfferSnapshot(p)), a)
  {
    assert ReplicaOk(s.service, a, s.c.peers[p], s.replicas[p]);
    LaterItself(a);
    FoldStep(s, After(s, OfferSnapshot(p)), a, a, p);
  }

  lemma LaterItself(a: AState)
    ensures Later(a, a)
  {
  }

  /** The step moves peer p and its replica to these, and nothing else that the fold is about. */
  ghost predicate MovesOne(s: System, s': System, p: nat, cp: Peer, r: Replica) {
    && s'.service == s.service && s'.c.net == s.c.net && p < |s.replicas| == |s'.replicas| == |s'.c.peers| == |s.c.peers|
    && s'.c.peers[p] == cp && s'.replicas[p] == r
    && forall q: nat :: q < |s.replicas| && q != p ==> s'.replicas[q] == s.replicas[q] && s'.c.peers[q] == s.c.peers[q]
  }

  lemma OfferCommandMoves(s: System, p: nat)
    requires CanStep(s, OfferCommand(p))
    ensures var s', cp := After(s, OfferCommand(p)), s.c.peers[p];
            && s'.c == C.After(s.c, C.Apply(p))
            && MovesOne(s, s', p, ApplyNext(cp).0,
                        s.replicas[p].(inHand := Some(CommandMsg(cp.lastApplied + 1, ApplyNext(cp).1.command))))
  {
  }

  lemma OfferedReplica(v: Service, a: AState, cp: Peer, r: Replica, p: nat)
    requires Inv(a) && PeerCoupled(a, cp, p) && ReplicaOk(v, a, cp, r) && r.inHand.None? && cp.pending.None?
    requires cp.lastApplied < cp.commitIndex && 0 <= cp.ToPhysical(cp.lastApplied + 1) < |cp.log|
    ensures ReplicaOk(v, a, ApplyNext(cp).0, r.(inHand := Some(CommandMsg(cp.lastApplied + 1, ApplyNext(cp).1.command))))
  {
    NextCommandDecided(a, cp, p);
  }

  lemma OfferCommandFold(s: System, a: AState, p: nat) returns (b: AState)
    requires FoldInv(s, a) && CanStep(s, OfferCommand(p))
    ensures Quietly(a, b) && FoldInv(After(s, OfferCommand(p)), b)
  {
    var s', cp, r := After(s, OfferCommand(p)), s.c.peers[p], s.replicas[p];
    OfferCommandMoves(s, p);
    assert ReplicaOk(s.service, a, cp, r) && PeerCoupled(a, cp, p);
    OfferedReplica(s.service, a, cp, r, p);
    b := StepRefines(s.c, a, C.Apply(p));
    QuietlyLater(a, b);
    ReplicaLater(s.service, a, b, s'.c.peers[p], s'.replicas[p]);
    FoldStep(s, s', a, b, p);
  }

  lemma NextCommandDecided(a: AState, cp: Peer, p: nat)
    requires Inv(a) && PeerCoupled(a, cp, p) && cp.lastApplied < cp.commitIndex
    ensures 0 <= cp.ToPhysical(cp.lastApplied + 1) < |cp.log|
    ensures DecidedCommand(a, cp.lastApplied + 1, ApplyNext(cp).1.command)
  {
    var i := cp.lastApplied + 1;
    assert cp.log[cp.ToPhysical(i)] == a.peers[p].log[i];
    BelowCommitDecided(a, p, i);
  }

  /** The reader keeps its store the fold: a restored snapshot is one, and the next command leads to the next one. */
  lemma HandledOk(v: Service, a: AState, cp: Peer, r: Replica, save: bool)
    requires Inv(a) && ReplicaOk(v, a, cp, r) && r.inHand.Some? && r.saving.None?
    ensures ReplicaOk(v, a, if r.inHand.value.SnapshotMsg? then cp.(pending := None) else cp, Handled(v, r, save))
  {
    if r.inHand.value.CommandMsg? {
      var e: Entry :| Decided(a, r.inHand.value.index, e) && e.command == r.inHand.value.command;
      DecidedStateNext(v, a, r.index, r.data, e);
    }
  }

  lemma ReceiveMoves(s: System, p: nat, save: bool)
    requires CanStep(s, Receive(p, save))
    ensures var s', cp, r := After(s, Receive(p, save)), s.c.peers[p], s.replicas[p];
            && s'.c == (if r.inHand.value.SnapshotMsg? then C.After(s.c, C.SnapshotSent(p)) else s.c)
            && MovesOne(s, s', p, if r.inHand.value.SnapshotMsg? then cp.(pending := None) else cp, Handled(s.service, r, save))
  {
  }

  lemma ReceiveFold(s: System, a: AState, p: nat, save: bool)
    requires FoldInv(s, a) && CanStep(s, Receive(p, save))
    ensures FoldInv(After(s, Receive(p, save)), a)
  {
    var s', cp, r := After(s, Receive(p, save)), s.c.peers[p], s.replicas[p];
    ReceiveMoves(s, p, save);
    assert ReplicaOk(s.service, a, cp, r);
    HandledOk(s.service, a, cp, r, save);
    LaterItself(a);
    if r.inHand.value.SnapshotMsg? {
      StutterStep(s.c, a, C.SnapshotSent(p));
    }
    FoldStep(s, s', a, a, p);
  }

  lemma SaveMoves(s: System, p: nat)
    requires CanStep(s, Save(p))
    ensures var s' := After(s, Save(p));
            && s'.c == C.After(s.c, SaveStep(s, p)) && s'.c.net == s.c.net && s'.service == s.service
            && p < |s.replicas| == |s'.replicas| == |s'.c.peers|
            && s'.c.peers[p] == TakeSnapshot(s.c.peers[p], s.replicas[p].saving.value.0, s.replicas[p].saving.value.1)
            && MovesOne(s, s', p, s'.c.peers[p], s.replicas[p].(saving := None))
  {
  }

  lemma SavedReplica(v: Service, a: AState, cp: Peer, r: Replica)
    requires ReplicaOk(v, a, cp, r) && r.saving.Some? && |cp.log| >= 1
    ensures ReplicaOk(v, a, TakeSnapshot(cp, r.saving.value.0, r.saving.value.1), r.(saving := None))
  {
  }

  lemma SaveFold(s: System, a: AState, p: nat)
    requires FoldInv(s, a) && CanStep(s, Save(p))
    ensures FoldInv(After(s, Save(p)), a)
  {
    SaveMoves(s, p);
    assert ReplicaOk(s.service, a, s.c.peers[p], s.replicas[p]);
    SavedReplica(s.service, a, s.c.peers[p], s.replicas[p]);
    LaterItself(a);
    StutterStep(s.c, a, SaveStep(s, p));
    FoldStep(s, After(s, Save(p)), a, a, p);
  }

  lemma CrashMoves(s: System, p: nat)
    requires CanStep(s, Crash(p))
    ensures var s' := After(s, Crash(p));
            && s'.c == C.After(s.c, C.Restart(p))
            && MovesOne(s, s', p, Make(p, |s.c.peers|, s.c.peers[p].disk), Replica(s.service.initial, 0, None, None, 0, map[]))
  {
  }

  lemma RestartedReplica(v: Service, a: AState, cp: Peer, r: Replica, p: nat, n: nat)
    requires Inv(a) && ReplicaOk(v, a, cp, r) && DiskOk(cp)
    ensures ReplicaOk(v, a, Make(p, n, cp.disk), Replica(v.initial, 0, None, None, 0, map[]))
  {
    EmptyDecided(v, a);
  }

  lemma CrashFold(s: System, a: AState, p: nat) returns (b: AState)
    requires FoldInv(s, a) && CanStep(s, Crash(p))
    ensures Quietly(a, b) && FoldInv(After(s, Crash(p)), b)
  {
    var s', cp, r := After(s, Crash(p)), s.c.peers[p], s.replicas[p];
    CrashMoves(s, p);
    assert ReplicaOk(s.service, a, cp, r) && PeerCoupled(a, cp, p);
    RestartedReplica(s.service, a, cp, r, p, |s.c.peers|);
    b := StepRefines(s.c, a, C.Restart(p));
    QuietlyLater(a, b);
    ReplicaLater(s.service, a, b, s'.c.peers[p], s'.replicas[p]);
    FoldStep(s, s', a, b, p);
  }

  lemma ReturnFold(s: System, a: AState, p: nat, id: nat, timedOut: bool)
    requires FoldInv(s, a) && CanStep(s, Return(p, id, timedOut))
    ensures FoldInv(After(s, Return(p, id, timedOut)), a)
  {
    assert ReplicaOk(s.service, a, s.c.peers[p], s.replicas[p]);
    LaterItself(a);
    FoldStep(s, After(s, Return(p, id, timedOut)), a, a, p);
  }

  /** Submit leaves everything the fold speaks of as it is, at every peer and replica. */
  lemma SubmitMoves(s: System, p: nat, req: Command)
    requires CanStep(s, Submit(p, req))
    ensures var s', step := After(s, Submit(p, req)), SubmitStep(p, s.replicas[p].opId, req);
            && C.CanStep(s.c, step) && C.InBounds(s.c, step) && s'.c == C.After(s.c, step)
            && p < |s'.c.peers| == |s'.replicas| && MovesOne(s, s', p, s'.c.peers[p], s'.replicas[p])
            && ServiceUntouched(s.c.peers[p], s'.c.peers[p])
            && (var r, r' := s.replicas[p], s'.replicas[p];
                r'.data == r.data && r'.index == r.index && r'.inHand == r.inHand && r'.saving == r.saving)
  {
  }

  lemma SubmittedReplica(v: Service, a: AState, cp: Peer, r: Replica, cp': Peer, r': Replica)
    requires ReplicaOk(v, a, cp, r) && ServiceUntouched(cp, cp')
    requires r'.data == r.data && r'.index == r.index && r'.inHand == r.inHand && r'.saving == r.saving
    ensures ReplicaOk(v, a, cp', r')
  {
  }

  lemma SubmitFold(s: System, a: AState, p: nat, req: Command) returns (b: AState)
    requires FoldInv(s, a) && CanStep(s, Submit(p, req))
    ensures C.CanStep(s.c, SubmitStep(p, s.replicas[p].opId, req))
    ensures Follows(s.c, a, SubmitStep(p, s.replicas[p].opId, req), b) && FoldInv(After(s, Submit(p, req)), b)
  {
    var step, s' := SubmitStep(p, s.replicas[p].opId, req), After(s, Submit(p, req));
    SubmitMoves(s, p, req);
    b := StepRefines(s.c, a, step);
    FollowsReaches(s.c, a, step, b);
    ReachesLater(a, b);
    assert ReplicaOk(s.service, a, s.c.peers[p], s.replicas[p]);
    SubmittedReplica(s.service, a, s.c.peers[p], s.replicas[p], s'.c.peers[p], s'.replicas[p]);
    ReplicaLater(s.service, a, b, s'.c.peers[p], s'.replicas[p]);
    FoldStep(s, s', a, b, p);
  }

  /** How the abstract protocol follows a step of the system. */
  ghost predicate SystemFollows(s: System, a: AState, step: Step, b: AState)
    requires CanStep(s, step)
  {
    if step.Submit? then Follows(s.c, a, SubmitStep(step.p, s.replicas[step.p].opId, step.req), b) else Quietly(a, b)
  }

  lemma FoldPreserved(s: System, a: AState, step: Step) returns (b: AState)
    requires FoldInv(s, a) && CanStep(s, step)
    ensures SystemFollows(s, a, step, b) && FoldInv(After(s, step), b)
  {
    b := a;
    QuietlyItself(a);
    match step
    case Protocol(step) => b := ProtocolFold(s, a, step);
    case Submit(p, req) => b := SubmitFold(s, a, p, req);
    case Return(p, id, timedOut) => ReturnFold(s, a, p, id, timedOut);
    case OfferSnapshot(p) => OfferSnapshotFold(s, a, p);
    case OfferCommand(p) => b := OfferCommandFold(s, a, p);
    case Receive(p, save) => ReceiveFold(s, a, p, save);
    case Save(p) => SaveFold(s, a, p);
    case Crash(p) => b := CrashFold(s, a, p);
  }

  lemma BootFold(v: Service, n: nat)
    requires n >= 1
    ensures FoldInv(Boot(v, n), Initial(n))
  {
    var a := Initial(n);
    BootCoupled(n);
    EmptyDecided(v, a);
    forall p: nat | p < n
      ensures ReplicaOk(v, a, Boot(v, n).c.peers[p], Boot(v, n).replicas[p])
    {
      assert Boot(v, n).c.peers[p] == Make(p, n, Disk(None, None));
    }
  }
}
