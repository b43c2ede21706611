/** The replicated store, over every run: one history that all replicas fold, linearizable answers, and where the code falls short. */
module RsmTheorems {
  import opened KvStore
  import opened Services
  import opened RaftTypes
  import opened RaftPeer
  import opened AbstractRaft
  import opened RaftInvariant
  import opened RaftCoupling
  import opened RaftRefinement
  import opened RaftSafety
  import C = RaftCluster
  import opened RsmSystem
  import opened RsmFold
  import opened RsmSubmit

  // ---------------------------------------------------------------- one history

  lemma {:induction false} LatestTerm(terms: set<nat>) returns (u: nat)
    requires terms != {}
    ensures u in terms && forall t :: t in terms ==> t <= u
    decreases |terms|
  {
    var t :| t in terms;
    u := t;
    if terms != {t} {
      assert terms == (terms - {t}) + {t};
      var v := LatestTerm(terms - {t});
      u := Max(t, v);
    } else {
      assert forall v :: v in terms ==> v == t;
    }
  }

  /** The log holds every decided entry, and its folds are the decided stores. */
  ghost predicate Holds(v: Service, a: AState, log: seq<Entry>) {
    && (forall i: nat, e: Entry {:trigger Decided(a, i, e)} :: Decided(a, i, e) ==> i < |log| && log[i] == e)
    && (forall i: nat, d: Data {:trigger DecidedState(v, a, i, d)} :: DecidedState(v, a, i, d) ==> i < |log| && d == StateAt(v, log, i))
  }

  /** The log of the latest leader holds everything that was ever decided. */
  lemma LatestLog(v: Service, a: AState) returns (log: seq<Entry>)
    requires Inv(a)
    ensures Holds(v, a, log)
  {
    var u := LatestTerm(a.leaders.Keys);
    log := a.leaders[u].log;
    forall i: nat, e: Entry | Decided(a, i, e)
      ensures i < |log| && log[i] == e
    {
      var t: nat, k: nat :| DecidedBy(a, i, e, t, k);
      LeaderCompleteness(a, t, k, u);
    }
    forall i: nat, d: Data | DecidedState(v, a, i, d)
      ensures i < |log| && d == StateAt(v, log, i)
    {
      var t: nat, k: nat :| DecidedStateBy(v, a, i, d, t, k);
      LeaderCompleteness(a, t, k, u);
      StateAtAgree(v, log, a.leaders[t].log, i);
    }
  }

  /** The log explains every delivery and every store: each replica's store is the fold of its commands. */
  ghost predicate Explains(log: seq<Entry>, s: System) {
    && (forall p: nat, i: nat, x: Option<Op> :: (p, i, x) in s.c.delivered ==> i < |log| && log[i].command == x)
    && (forall r :: r in s.replicas ==> r.index < |log| && r.data == StateAt(s.service, log, r.index))
  }

  lemma ExplainsAll(s: System, a: AState, log: seq<Entry>)
    requires CallsInv(s, a)
    requires Holds(s.service, a, log)
    ensures Explains(log, s)
  {
    forall p: nat, i: nat, x: Option<Op> | (p, i, x) in s.c.delivered
      ensures i < |log| && log[i].command == x
    {
      assert DeliveredOk(a, (p, i, x));
      var e: Entry :| (i, e) in a.applied && e.command == x;
      assert Decided(a, (i, e).0, (i, e).1);
    }
    forall r | r in s.replicas
      ensures r.index < |log| && r.data == StateAt(s.service, log, r.index)
    {
      var p :| 0 <= p < |s.replicas| && s.replicas[p] == r;
      assert ReplicaOk(s.service, a, s.c.peers[p], s.replicas[p]);
    }
  }

  /** A replica that is neither sending nor owed a snapshot reflects everything its peer has applied. */
  lemma IdleReplicaIsCurrent(s: System, n: nat, p: nat)
    requires RsmSubmit.Reachable(s, n) && p < |s.replicas| && s.replicas[p].inHand.None?
    ensures p < |s.c.peers|
    ensures s.c.peers[p].pending.None? ==> s.replicas[p].index == s.c.peers[p].lastApplied
    ensures s.replicas[p].index <= s.c.peers[p].lastApplied
  {
    var a := ReachableCalls(s, n);
    assert ReplicaOk(s.service, a, s.c.peers[p], s.replicas[p]);
  }

  // ---------------------------------------------------------------- linearizability

  /** An answered call: its own operation is the entry at its index, and the answer is what executing it there gives. */
  ghost predicate AnsweredInPlace(log: seq<Entry>, s: System, k: Key)
    requires k in s.outcomes && s.outcomes[k].Answered?
  {
    && k in s.calls && 1 <= s.calls[k].index < |log|
    && log[s.calls[k].index].command == Some(Op(k.0, k.1, s.calls[k].req))
    && s.outcomes[k].reply == s.service.answer(StateAt(s.service, log, s.calls[k].index - 1), s.calls[k].req)
  }

  /** A decided answer is in the log, and is what executing it there gives. */
  lemma AnswerInLog(v: Service, a: AState, log: seq<Entry>, i: nat, op: Op, reply: Result)
    requires Holds(v, a, log) && AnswerAt(v, a, i, op, reply)
    ensures 1 <= i < |log| && log[i].command == Some(op) && Decided(a, i, log[i])
    ensures reply == v.answer(StateAt(v, log, i - 1), op.req)
  {
    var e: Entry :| Decided(a, i, e) && e.command == Some(op);
    var d: Data :| DecidedState(v, a, i - 1, d) && reply == v.answer(d, op.req);
  }

  lemma AnswersInPlace(s: System, a: AState, log: seq<Entry>, k: Key)
    requires CallsInv(s, a) && k in s.outcomes && s.outcomes[k].Answered? && Holds(s.service, a, log)
    ensures AnsweredInPlace(log, s, k)
  {
    assert OutcomeOk(s, k) && CallOk(s.service, a, k, s.calls[k]);
    var call := s.calls[k];
    AnswerInLog(s.service, a, log, call.index, call.arrived.value.0, call.arrived.value.1);
    DecidedKnown(a, s.calls, call.index, log[call.index]);
  }

  /** An operation is executed only at the place its call was given, and with the call's own request. */
  ghost predicate Placed(s: System, i: nat, op: Op) {
    (op.me, op.id) in s.calls && s.calls[(op.me, op.id)].index == i && s.calls[(op.me, op.id)].req == op.req
  }

  /**
   Linearizability of Submit, in log order. One log explains the whole system, in which every call has one place; every
   OK answer is the result of the call's own operation at its own index on the fold of everything before it; and what
   was answered before a call began comes before it, if that call was answered too, or took effect anywhere.
   */
  lemma Linearizable(s: System, n: nat) returns (log: seq<Entry>)
    requires RsmSubmit.Reachable(s, n)
    ensures Explains(log, s)
    ensures forall p: nat, i: nat, op :: (p, i, Some(op)) in s.c.delivered ==> Placed(s, i, op)
    ensures forall k :: k in s.outcomes && s.outcomes[k].Answered? ==> AnsweredInPlace(log, s, k)
    ensures forall k, l :: AnsweredBefore(s, k, l) ==> s.calls[k].index < s.calls[l].index
    ensures forall k, q: nat, i: nat, op {:trigger EffectAfter(s, k, q, i, op)} ::
              EffectAfter(s, k, q, i, op) ==> s.calls[k].index < i == s.calls[(op.me, op.id)].index
  {
    var a := ReachableCalls(s, n);
    log := LatestLog(s.service, a);
    ExplainsAll(s, a, log);
    forall k | k in s.outcomes && s.outcomes[k].Answered?
      ensures AnsweredInPlace(log, s, k)
    {
      AnswersInPlace(s, a, log, k);
    }
    forall k, l | AnsweredBefore(s, k, l)
      ensures s.calls[k].index < s.calls[l].index
    {
      AnsweredLater(s, a, k, l);
    }
    forall p: nat, i: nat, op | (p, i, Some(op)) in s.c.delivered
      ensures Placed(s, i, op)
    {
      var e := DeliveredPlace(s, a, p, i, op);
    }
    forall k, q: nat, i: nat, op | EffectAfter(s, k, q, i, op)
      ensures s.calls[k].index < i == s.calls[(op.me, op.id)].index
    {
      EffectLater(s, a, k, q, i, op);
    }
  }

  lemma DeliveredPlace(s: System, a: AState, p: nat, i: nat, op: Op) returns (e: Entry)
    requires CallsInv(s, a) && (p, i, Some(op)) in s.c.delivered
    ensures Decided(a, i, e) && e.command == Some(op) && Placed(s, i, op)
  {
    assert DeliveredOk(a, (p, i, Some(op)));
    e :| (i, e) in a.applied && e.command == Some(op);
    assert Decided(a, (i, e).0, (i, e).1);
    DecidedKnown(a, s.calls, i, e);
  }

  /** Call k was answered OK before the call of op began, which took effect, whatever its caller was told. */
  ghost predicate EffectAfter(s: System, k: Key, q: nat, i: nat, op: Op) {
    && k in s.calls && k in s.outcomes && s.outcomes[k].Answered?
    && (q, i, Some(op)) in s.c.delivered && (op.me, op.id) in s.calls && s.calls[k].index in s.calls[(op.me, op.id)].before
  }

  lemma EffectLater(s: System, a: AState, k: Key, q: nat, i: nat, op: Op)
    requires CallsInv(s, a) && EffectAfter(s, k, q, i, op)
    ensures s.calls[k].index < i == s.calls[(op.me, op.id)].index
  {
    var l := (op.me, op.id);
    var e := DeliveredPlace(s, a, q, i, op);
    assert CallOk(s.service, a, l, s.calls[l]);
    assert s.calls[k].index in s.calls[l].before;
    if f: Entry :| Decided(a, i, f) && !IsOp(f, l) {
      DecidedOnce(a, i, e, f);
    }
  }

  /** Both calls were answered OK, the first before the second began. */
  ghost predicate AnsweredBefore(s: System, k: Key, l: Key) {
    && k in s.calls && l in s.calls && k in s.outcomes && l in s.outcomes
    && s.outcomes[k].Answered? && s.outcomes[l].Answered? && s.calls[k].index in s.calls[l].before
  }

  lemma AnsweredLater(s: System, a: AState, k: Key, l: Key)
    requires CallsInv(s, a) && AnsweredBefore(s, k, l)
    ensures s.calls[k].index < s.calls[l].index
  {
    var j := s.calls[k].index;
    assert CallOk(s.service, a, l, s.calls[l]) && OutcomeOk(s, l);
    var e: Entry :| Decided(a, s.calls[l].index, e) && e.command == Some(s.calls[l].arrived.value.0);
    assert j in s.calls[l].before;
    if f: Entry :| Decided(a, s.calls[l].index, f) && !IsOp(f, l) {
      DecidedOnce(a, s.calls[l].index, e, f);
    }
  }

  /** The indices a new call remembers are exactly those of the calls answered OK so far. */
  lemma BeforeIsExact(s: System, p: nat, req: Command, j: nat)
    requires CanStep(s, Submit(p, req)) && s.c.peers[p].role.Leader?
    ensures var key := (p, s.replicas[p].opId);
            key in After(s, Submit(p, req)).calls
            && (j in After(s, Submit(p, req)).calls[key].before <==>
                exists k :: k in s.outcomes && s.outcomes[k].Answered? && k in s.calls && s.calls[k].index == j)
  {
  }

  /** A call refused with ErrWrongLeader is never executed, by any replica, in any run. */
  lemma RefusedNeverExecuted(s: System, n: nat, k: Key, q: nat, i: nat, op: Op)
    requires RsmSubmit.Reachable(s, n) && k in s.outcomes && s.outcomes[k].WrongLeader? && (q, i, Some(op)) in s.c.delivered
    ensures (op.me, op.id) != k
  {
    var a := ReachableCalls(s, n);
    assert OutcomeOk(s, k);
    assert DeliveredOk(a, (q, i, Some(op)));
    var e: Entry :| (i, e) in a.applied && e.command == Some(op);
    assert Decided(a, (i, e).0, (i, e).1);
    DecidedKnown(a, s.calls, i, e);
    if (op.me, op.id) == k {
      assert CallOk(s.service, a, k, s.calls[k]);
      var f: Entry :| Decided(a, s.calls[k].index, f) && f.command == Some(s.calls[k].arrived.value.0);
      DecidedOnce(a, i, e, f);
    }
  }

  // ---------------------------------------------------------------- the premises

  ghost predicate IdsBelow(s: System) {
    forall k :: k in s.calls || k in s.outcomes ==> k.0 < |s.replicas| && k.1 < s.replicas[k.0].opId
  }

  lemma {:induction false} TraceIds(s: System, steps: seq<Step>)
    requires IdsBelow(s) && Legal(s, steps) && forall i :: 0 <= i < |steps| ==> !steps[i].Crash?
    ensures IdsBelow(Trace(s, steps))
    decreases |steps|
  {
    if |steps| > 0 {
      StepIds(s, steps[0]);
      TraceIds(After(s, steps[0]), steps[1..]);
    }
  }

  /** No call number is used that was not used before. */
  ghost predicate NoNewIds(s: System, s': System) {
    && s'.calls.Keys == s.calls.Keys && s'.outcomes.Keys <= s.outcomes.Keys + s.calls.Keys
    && |s'.replicas| == |s.replicas|
    && forall p: nat {:trigger s'.replicas[p]} :: p < |s.replicas| ==> s'.replicas[p].opId == s.replicas[p].opId
  }

  lemma QuietIds(s: System, step: Step)
    requires CanStep(s, step) && !step.Crash? && !step.Submit?
    ensures NoNewIds(s, After(s, step))
  {
  }

  lemma SubmitIds(s: System, step: Step)
    requires IdsBelow(s) && CanStep(s, step) && step.Submit?
    ensures IdsBelow(After(s, step))
  {
  }

  lemma StepIds(s: System, step: Step)
    requires IdsBelow(s) && CanStep(s, step) && !step.Crash?
    ensures IdsBelow(After(s, step))
  {
    if step.Submit? {
      SubmitIds(s, step);
    } else {
      QuietIds(s, step);
    }
  }

  /** Call numbers repeat only after a restart: without one, the premise of Submit always holds. */
  lemma FreshWithoutCrash(v: Service, n: nat, steps: seq<Step>, p: nat)
    requires n >= 1 && Legal(Boot(v, n), steps) && forall i :: 0 <= i < |steps| ==> !steps[i].Crash?
    ensures var s := Trace(Boot(v, n), steps);
            p < |s.replicas| ==> (p, s.replicas[p].opId) !in s.calls && (p, s.replicas[p].opId) !in s.outcomes
  {
    TraceIds(Boot(v, n), steps);
  }

  /** A section of the protocol is never out of bounds here either. */
  lemma ProtocolInBounds(s: System, n: nat, step: C.Step)
    requires RsmSubmit.Reachable(s, n) && C.CanStep(s.c, step)
    ensures C.InBounds(s.c, step)
  {
    var a := ReachableCalls(s, n);
    StepInBounds(s.c, a, step);
  }

  /** What the reader holds after the applier has passed on the snapshot that a peer took over. */
  function Restored(v: Service, cp: Peer, r: Replica): Replica
    requires cp.pending.Some?
  {
    Handled(v, r.(inHand := Some(SnapshotMsg(cp.pending.value))), false)
  }

  /**
   Installing a newer snapshot leaves an idle replica in step with its peer exactly when the peer has not applied past
   that snapshot: the peer keeps its higher lastApplied, but its service falls back. `RsmStaleInstall` has a run.
   */
  lemma InstallInStep(v: Service, cp: Peer, r: Replica, args: InstallMsg)
    requires |cp.log| >= 1 && args.term >= cp.currentTerm && args.lastIndex > cp.lastIncludedIndex
    requires r.index == cp.lastApplied
    ensures var cp' := HandleInstall(cp, args).0;
            cp'.pending.Some? && (Restored(v, cp', r).index == cp'.lastApplied <==> args.lastIndex >= cp.lastApplied)
  {
    HandleInstallCases(cp, args);
  }

  // ---------------------------------------------------------------- the two services

  lemma {:induction false} StateAtFits(v: Service, log: seq<Entry>, i: nat)
    requires KeepsKind(v) && Fits(v, v.initial) && i < |log|
    ensures Fits(v, StateAt(v, log, i))
  {
    if i > 0 {
      StateAtFits(v, log, i - 1);
    }
  }

  lemma DecidedFits(v: Service, a: AState, i: nat, d: Data)
    requires KeepsKind(v) && Fits(v, v.initial) && DecidedState(v, a, i, d)
    ensures Fits(v, d)
  {
    var t: nat, k: nat :| DecidedStateBy(v, a, i, d, t, k);
    StateAtFits(v, a.leaders[t].log, i);
  }

  lemma KindFits(s: System, n: nat, p: nat)
    requires RsmSubmit.Reachable(s, n) && p < |s.replicas| && KeepsKind(s.service) && Fits(s.service, s.service.initial)
    ensures Fits(s.service, s.replicas[p].data)
    ensures s.replicas[p].inHand.Some? && s.replicas[p].inHand.value.SnapshotMsg? ==>
              var data := s.replicas[p].inHand.value.snapshot.data; data.Some? && Fits(s.service, data.value)
  {
    var v := s.service;
    var a := ReachableCalls(s, n);
    assert ReplicaOk(v, a, s.c.peers[p], s.replicas[p]);
    DecidedFits(v, a, s.replicas[p].index, s.replicas[p].data);
    if s.replicas[p].inHand.Some? && s.replicas[p].inHand.value.SnapshotMsg? {
      var snapshot := s.replicas[p].inHand.value.snapshot;
      DecidedFits(v, a, snapshot.index, snapshot.data.value);
    }
  }

  /**
   What a replica of either server holds, and every snapshot it is handed, is data of that server's own kind: restoring
   never fails.
   */
  lemma DataFits(s: System, n: nat, p: nat, gid: nat, hash: string -> nat)
    requires RsmSubmit.Reachable(s, n) && p < |s.replicas| && s.service in {KvService(), GroupService(gid, hash)}
    ensures Fits(s.service, s.replicas[p].data)
    ensures s.replicas[p].inHand.Some? && s.replicas[p].inHand.value.SnapshotMsg? ==>
              var data := s.replicas[p].inHand.value.snapshot.data; data.Some? && Fits(s.service, data.value)
  {
    ServersKeepKind(gid, hash);
    KindFits(s, n, p);
  }
}
