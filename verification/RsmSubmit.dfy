/**
 What every step keeps about calls of Submit.

 An operation in any log sits at the place its call was given; what arrived at a call is the decided operation at the
 call's index, with the result of executing it there; and every index answered before a call began is below the
 call's own, unless that one went to another operation.
 */
module RsmSubmit {
  import opened KvStore
  import opened Services
  import opened RaftTypes
  import opened AbstractRaft
  import opened RaftInvariant
  import opened RaftRuns
  import opened RaftCoupling
  import C = RaftCluster
  import opened RsmSystem
  import opened RsmFold

  ghost predicate IsOp(e: Entry, k: Key) {
    e.command.Some? && (e.command.value.me, e.command.value.id) == k
  }

  /** The operation at index i and the result of executing it on the store before it. */
  ghost predicate AnswerAt(v: Service, a: AState, i: nat, op: Op, reply: Result) {
    && i >= 1 && DecidedCommand(a, i, Some(op))
    && exists d: Data :: DecidedState(v, a, i - 1, d) && reply == v.answer(d, op.req)
  }

  /** Another entry is decided at index i. */
  ghost predicate TakenByOther(a: AState, i: nat, k: Key) {
    exists e: Entry :: Decided(a, i, e) && !IsOp(e, k)
  }

  ghost predicate CallOk(v: Service, a: AState, k: Key, call: Call) {
    && (call.arrived.Some? ==> AnswerAt(v, a, call.index, call.arrived.value.0, call.arrived.value.1))
    && (forall j {:trigger j in call.before} :: j in call.before ==> j < call.index || TakenByOther(a, call.index, k))
  }

  ghost predicate OutcomeOk(s: System, k: Key)
    requires k in s.outcomes
  {
    match s.outcomes[k]
    case Maybe => k in s.calls
    case Answered(reply) =>
      && k in s.calls && s.calls[k].arrived.Some?
      && (s.calls[k].arrived.value.0.me, s.calls[k].arrived.value.0.id) == k && s.calls[k].arrived.value.1 == reply
    case WrongLeader =>
      k in s.calls ==> s.calls[k].arrived.Some? && (s.calls[k].arrived.value.0.me, s.calls[k].arrived.value.0.id) != k
  }

  /** An operation in a log sits at the place its call was given. */
  ghost predicate OpKnown(calls: map<Key, Call>, j: nat, e: Entry) {
    e.command.Some? ==>
      var op := e.command.value;
      (op.me, op.id) in calls && calls[(op.me, op.id)].index == j && calls[(op.me, op.id)].req == op.req
  }

  ghost predicate OpsKnown(calls: map<Key, Call>, a: AState) {
    forall t: nat, j: nat {:trigger a.leaders[t].log[j]} :: t in a.leaders && j < |a.leaders[t].log| ==> OpKnown(calls, j, a.leaders[t].log[j])
  }

  /** A waiting call is still open, and waits for its own index. */
  ghost predicate WaitingOk(s: System, p: nat, r: Replica) {
    forall i {:trigger i in r.waiting} :: i in r.waiting ==>
      (p, r.waiting[i]) in s.calls && (p, r.waiting[i]) !in s.outcomes && s.calls[(p, r.waiting[i])].index == i
  }

  ghost predicate OutcomesOk(s: System) {
    forall k {:trigger OutcomeOk(s, k)} :: k in s.outcomes ==> OutcomeOk(s, k)
  }

  ghost predicate AllWaitingOk(s: System) {
    forall p: nat {:trigger WaitingOk(s, p, s.replicas[p])} :: p < |s.replicas| ==> WaitingOk(s, p, s.replicas[p])
  }

  ghost predicate CallsInv(s: System, a: AState) {
    && FoldInv(s, a) && OpsKnown(s.calls, a)
    && (forall k {:trigger CallOk(s.service, a, k, s.calls[k])} :: k in s.calls ==> CallOk(s.service, a, k, s.calls[k]))
    && OutcomesOk(s) && AllWaitingOk(s)
  }

  // ---------------------------------------------------------------- what is left alone

  lemma DecidedCommandLater(a: AState, b: AState, i: nat, command: Option<Op>)
    requires Later(a, b) && DecidedCommand(a, i, command)
    ensures DecidedCommand(b, i, command)
  {
    var e: Entry :| Decided(a, i, e) && e.command == command;
    DecidedLater(a, b, i, e);
  }

  lemma CallOkLater(v: Service, a: AState, b: AState, k: Key, call: Call)
    requires Later(a, b) && CallOk(v, a, k, call)
    ensures CallOk(v, b, k, call)
  {
    if call.arrived.Some? {
      var op, reply := call.arrived.value.0, call.arrived.value.1;
      DecidedCommandLater(a, b, call.index, Some(op));
      var d: Data :| DecidedState(v, a, call.index - 1, d) && reply == v.answer(d, op.req);
      DecidedStateLater(v, a, b, call.index - 1, d);
    }
    if TakenByOther(a, call.index, k) {
      var e: Entry :| Decided(a, call.index, e) && !IsOp(e, k);
      DecidedLater(a, b, call.index, e);
    }
  }

  /** The calls are the same up to what has arrived. */
  ghost predicate SamePlaces(calls: map<Key, Call>, calls': map<Key, Call>) {
    forall k :: k in calls ==> k in calls' && calls'[k].index == calls[k].index && calls'[k].req == calls[k].req
  }

  lemma OpsKnownQuietly(a: AState, b: AState, calls: map<Key, Call>, calls': map<Key, Call>)
    requires Inv(a) && Quietly(a, b) && OpsKnown(calls, a) && SamePlaces(calls, calls')
    ensures OpsKnown(calls', b)
  {
    QuietlyNoNew(a, b);
    forall t: nat, j: nat | t in b.leaders && j < |b.leaders[t].log|
      ensures OpKnown(calls', j, b.leaders[t].log[j])
    {
      assert Known(a, j, b.leaders[t].log[j]);
      var u: nat :| u in a.leaders && j < |a.leaders[u].log| && a.leaders[u].log[j] == b.leaders[t].log[j];
      assert OpKnown(calls, j, a.leaders[u].log[j]);
    }
  }

  /** Everything decided is in some leader's log. */
  lemma DecidedKnown(a: AState, calls: map<Key, Call>, i: nat, e: Entry)
    requires OpsKnown(calls, a) && Decided(a, i, e)
    ensures OpKnown(calls, i, e)
  {
    var t: nat, k: nat :| DecidedBy(a, i, e, t, k);
    assert OpKnown(calls, i, a.leaders[t].log[i]);
  }

  // ---------------------------------------------------------------- steps that keep places and operations

  /** Each call is as it was, or what arrived at it is right. */
  ghost predicate CallsKept(s: System, s': System, a: AState) {
    && s'.service == s.service && |s'.replicas| == |s.replicas| && s'.calls.Keys == s.calls.Keys && SamePlaces(s.calls, s'.calls)
    && forall k {:trigger s'.calls[k]} :: k in s.calls ==> s'.calls[k] == s.calls[k] || CallOk(s.service, a, k, s'.calls[k])
  }

  lemma KeptCalls(s: System, s': System, a: AState, b: AState)
    requires CallsInv(s, a) && FoldInv(s', b) && Quietly(a, b) && CallsKept(s, s', a) && OutcomesOk(s') && AllWaitingOk(s')
    ensures CallsInv(s', b)
  {
    QuietlyLater(a, b);
    OpsKnownQuietly(a, b, s.calls, s'.calls);
    forall k | k in s'.calls
      ensures CallOk(s.service, b, k, s'.calls[k])
    {
      assert CallOk(s.service, a, k, s.calls[k]);
      CallOkLater(s.service, a, b, k, s'.calls[k]);
    }
  }

  // ---------------------------------------------------------------- steps that leave the calls alone

  ghost predicate Plain(s: System, s': System) {
    && s'.service == s.service && s'.calls == s.calls && s'.outcomes == s.outcomes && |s'.replicas| == |s.replicas|
    && forall p: nat {:trigger s'.replicas[p]} :: p < |s.replicas| ==>
         s'.replicas[p].waiting == s.replicas[p].waiting || s'.replicas[p].waiting == map[]
  }

  lemma PlainMoves(s: System, step: Step)
    requires CanStep(s, step) && !step.Submit? && !step.Return? && !step.Receive?
    ensures Plain(s, After(s, step))
  {
  }

  lemma PlainCalls(s: System, s': System, a: AState)
    requires CallsInv(s, a) && Plain(s, s')
    ensures CallsKept(s, s', a) && OutcomesOk(s') && AllWaitingOk(s')
  {
    forall k | k in s'.outcomes
      ensures OutcomeOk(s', k)
    {
      assert OutcomeOk(s, k);
    }
    forall p: nat | p < |s'.replicas|
      ensures WaitingOk(s', p, s'.replicas[p])
    {
      assert WaitingOk(s, p, s.replicas[p]);
    }
  }

  lemma PlainStep(s: System, a: AState, step: Step, b: AState)
    requires CallsInv(s, a) && CanStep(s, step) && SystemFollows(s, a, step, b) && FoldInv(After(s, step), b)
    requires !step.Submit? && !step.Return? && !step.Receive?
    ensures CallsInv(After(s, step), b)
  {
    PlainMoves(s, step);
    PlainCalls(s, After(s, step), a);
    KeptCalls(s, After(s, step), a, b);
  }

  // ---------------------------------------------------------------- returning

  /** Replica p waits for no more than it did, and nobody waits for key any more. */
  ghost predicate StopsWaiting(s: System, s': System, p: nat, key: Key) {
    && |s'.replicas| == |s.replicas| && p < |s.replicas|
    && (forall q: nat {:trigger s'.replicas[q]} :: q < |s.replicas| && q != p ==> s'.replicas[q] == s.replicas[q])
    && (key in s.calls ==> s'.replicas[p].waiting == s.replicas[p].waiting - {s.calls[key].index})
  }

  ghost predicate Returns(s: System, s': System, key: Key, outcome: Outcome) {
    && s'.service == s.service && s'.calls == s.calls && key in s.calls && s'.outcomes == s.outcomes[key := outcome]
    && StopsWaiting(s, s', key.0, key)
    && (outcome.Maybe? || (s.calls[key].arrived.Some? && outcome == Returned(key.0, key.1, s.calls[key].arrived.value)))
  }

  lemma ReturnMoves(s: System, step: Step) returns (outcome: Outcome)
    requires CanStep(s, step) && step.Return?
    ensures Returns(s, After(s, step), (step.p, step.id), outcome)
  {
    outcome := if step.timedOut then Maybe else Returned(step.p, step.id, s.calls[(step.p, step.id)].arrived.value);
  }

  lemma ReturnedCalls(s: System, s': System, a: AState, key: Key, outcome: Outcome)
    requires CallsInv(s, a) && Returns(s, s', key, outcome)
    ensures CallsKept(s, s', a) && OutcomesOk(s') && AllWaitingOk(s')
  {
    forall k | k in s'.outcomes
      ensures OutcomeOk(s', k)
    {
      if k != key {
        assert OutcomeOk(s, k);
      }
    }
    forall p: nat | p < |s'.replicas|
      ensures WaitingOk(s', p, s'.replicas[p])
    {
      assert WaitingOk(s, p, s.replicas[p]);
    }
  }

  lemma ReturnCalls(s: System, a: AState, step: Step, b: AState)
    requires CallsInv(s, a) && CanStep(s, step) && SystemFollows(s, a, step, b) && FoldInv(After(s, step), b) && step.Return?
    ensures CallsInv(After(s, step), b)
  {
    var outcome := ReturnMoves(s, step);
    ReturnedCalls(s, After(s, step), a, (step.p, step.id), outcome);
    KeptCalls(s, After(s, step), a, b);
  }

  // ---------------------------------------------------------------- the reader's answers

  /** What the reader sends to a waiting call is the result of the operation at the call's index. */
  lemma AnsweringOk(s: System, a: AState, p: nat)
    requires CallsInv(s, a) && p < |s.replicas| && s.replicas[p].inHand.Some? && Answering(s.service, s.replicas[p], p).Some?
    ensures var (key, op, reply) := Answering(s.service, s.replicas[p], p).value;
            && key in s.calls && key !in s.outcomes && key.0 == p
            && s.replicas[p].inHand.value.CommandMsg? && s.calls[key].index == s.replicas[p].inHand.value.index
            && AnswerAt(s.service, a, s.calls[key].index, op, reply)
  {
    var r := s.replicas[p];
    assert ReplicaOk(s.service, a, s.c.peers[p], r);
    assert WaitingOk(s, p, r);
    assert r.inHand.value.index in r.waiting;
  }

  lemma ArrivedOk(v: Service, a: AState, k: Key, call: Call, op: Op, reply: Result)
    requires CallOk(v, a, k, call) && AnswerAt(v, a, call.index, op, reply)
    ensures CallOk(v, a, k, call.(arrived := Some((op, reply))))
  {
  }

  /** The reader answers the call that waits for the command in hand, if one does, and nobody waits more than before. */
  ghost predicate Receives(s: System, s': System, p: nat) {
    && s'.service == s.service && s'.outcomes == s.outcomes && |s'.replicas| == |s.replicas|
    && p < |s.replicas| && s.replicas[p].inHand.Some?
    && (forall q: nat {:trigger s'.replicas[q]} :: q < |s.replicas| && q != p ==> s'.replicas[q] == s.replicas[q])
    && (forall i {:trigger i in s'.replicas[p].waiting} :: i in s'.replicas[p].waiting ==>
          i in s.replicas[p].waiting && s'.replicas[p].waiting[i] == s.replicas[p].waiting[i])
    && match Answering(s.service, s.replicas[p], p)
       case None => s'.calls == s.calls
       case Some((key, op, reply)) =>
         s'.calls == if key in s.calls then s.calls[key := s.calls[key].(arrived := Some((op, reply)))] else s.calls
  }

  lemma ReceiveMoves(s: System, step: Step)
    requires CanStep(s, step) && step.Receive?
    ensures Receives(s, After(s, step), step.p)
  {
  }

  lemma ReceivedCalls(s: System, s': System, a: AState, p: nat)
    requires CallsInv(s, a) && Receives(s, s', p)
    ensures CallsKept(s, s', a) && (forall k :: k in s.outcomes && k in s.calls ==> s'.calls[k] == s.calls[k])
  {
    if Answering(s.service, s.replicas[p], p).Some? {
      AnsweringOk(s, a, p);
      var (key, op, reply) := Answering(s.service, s.replicas[p], p).value;
      assert CallOk(s.service, a, key, s.calls[key]);
      ArrivedOk(s.service, a, key, s.calls[key], op, reply);
    }
  }

  lemma ReceivedOutcomes(s: System, s': System, a: AState, p: nat)
    requires CallsInv(s, a) && Receives(s, s', p) && SamePlaces(s.calls, s'.calls)
    requires forall k :: k in s.outcomes && k in s.calls ==> s'.calls[k] == s.calls[k]
    requires s'.calls.Keys == s.calls.Keys
    ensures OutcomesOk(s') && AllWaitingOk(s')
  {
    forall k | k in s'.outcomes
      ensures OutcomeOk(s', k)
    {
      assert OutcomeOk(s, k);
    }
    forall q: nat | q < |s'.replicas|
      ensures WaitingOk(s', q, s'.replicas[q])
    {
      assert WaitingOk(s, q, s.replicas[q]);
    }
  }

  lemma ReceiveCalls(s: System, a: AState, step: Step, b: AState)
    requires CallsInv(s, a) && CanStep(s, step) && SystemFollows(s, a, step, b) && FoldInv(After(s, step), b) && step.Receive?
    ensures CallsInv(After(s, step), b)
  {
    var s' := After(s, step);
    ReceiveMoves(s, step);
    ReceivedCalls(s, s', a, step.p);
    ReceivedOutcomes(s, s', a, step.p);
    KeptCalls(s, s', a, b);
  }

  // ---------------------------------------------------------------- submitting

  /** An index answered before the call began is below the call's index, or that index is taken. */
  lemma BeforeOk(s: System, a: AState, key: Key, index: nat, j: nat)
    requires CallsInv(s, a) && key !in s.calls && j in AnsweredIndices(s)
    ensures j < index || TakenByOther(a, index, key)
  {
    var k :| k in s.outcomes && s.outcomes[k].Answered? && k in s.calls && s.calls[k].index == j;
    assert OutcomeOk(s, k) && CallOk(s.service, a, k, s.calls[k]);
    var e: Entry :| Decided(a, j, e) && e.command == Some(s.calls[k].arrived.value.0);
    if j >= index {
      var t: nat, l: nat :| DecidedBy(a, j, e, t, l);
      var f := a.leaders[t].log[index];
      assert DecidedBy(a, index, f, t, l);
      assert Decided(a, index, f);
      DecidedKnown(a, s.calls, index, f);
      assert !IsOp(f, key);
    }
  }

  /** A leader takes the operation, as its new call, at the end of its log. */
  ghost predicate Submits(s: System, s': System, p: nat, req: Command) {
    && s'.service == s.service && s'.outcomes == s.outcomes && p < |s.replicas| == |s'.replicas| == |s.c.peers|
    && (forall q: nat {:trigger s'.replicas[q]} :: q < |s.replicas| && q != p ==> s'.replicas[q] == s.replicas[q])
    && var r, peer := s.replicas[p], s.c.peers[p];
       var key, index := (p, r.opId), peer.lastIncludedIndex + |peer.log|;
       && key !in s.calls && key !in s.outcomes
       && s'.replicas[p].waiting == r.waiting[index := r.opId]
       && s'.calls == s.calls[key := Call(req, index, peer.currentTerm, None, AnsweredIndices(s))]
  }

  lemma SubmitMoves(s: System, p: nat, req: Command)
    requires CanStep(s, Submit(p, req)) && s.c.peers[p].role.Leader?
    ensures Submits(s, After(s, Submit(p, req)), p, req)
  {
  }

  lemma SubmittedKnown(s: System, s': System, a: AState, b: AState, p: nat, req: Command)
    requires CallsInv(s, a) && Submits(s, s', p, req)
    requires Enabled(a, Propose(p, Some(Op(p, s.replicas[p].opId, req)))) && b == Next(a, Propose(p, Some(Op(p, s.replicas[p].opId, req))))
    ensures OpsKnown(s'.calls, b)
  {
    assert PeerCoupled(a, s.c.peers[p], p) && PeerOk(a, p);
    forall t: nat, j: nat | t in b.leaders && j < |b.leaders[t].log|
      ensures OpKnown(s'.calls, j, b.leaders[t].log[j])
    {
      if t in a.leaders && j < |a.leaders[t].log| {
        assert OpKnown(s.calls, j, a.leaders[t].log[j]);
      }
    }
  }

  lemma NewCallOk(s: System, s': System, a: AState, p: nat, req: Command)
    requires CallsInv(s, a) && Submits(s, s', p, req)
    ensures var key := (p, s.replicas[p].opId); CallOk(s.service, a, key, s'.calls[key])
  {
    var key := (p, s.replicas[p].opId);
    forall j | j in AnsweredIndices(s)
      ensures j < s'.calls[key].index || TakenByOther(a, s'.calls[key].index, key)
    {
      BeforeOk(s, a, key, s'.calls[key].index, j);
    }
  }

  lemma SubmittedCalls(s: System, s': System, a: AState, b: AState, p: nat, req: Command)
    requires CallsInv(s, a) && Submits(s, s', p, req) && Later(a, b)
    ensures forall k {:trigger CallOk(s.service, b, k, s'.calls[k])} :: k in s'.calls ==> CallOk(s.service, b, k, s'.calls[k])
  {
    NewCallOk(s, s', a, p, req);
    forall k | k in s'.calls
      ensures CallOk(s.service, b, k, s'.calls[k])
    {
      assert k in s.calls ==> CallOk(s.service, a, k, s.calls[k]);
      CallOkLater(s.service, a, b, k, s'.calls[k]);
    }
  }

  lemma SubmittedOutcomes(s: System, s': System, a: AState, p: nat, req: Command)
    requires CallsInv(s, a) && Submits(s, s', p, req)
    ensures OutcomesOk(s') && AllWaitingOk(s')
  {
    forall k | k in s'.outcomes
      ensures OutcomeOk(s', k)
    {
      assert OutcomeOk(s, k);
    }
    forall q: nat | q < |s'.replicas|
      ensures WaitingOk(s', q, s'.replicas[q])
    {
      assert WaitingOk(s, q, s.replicas[q]);
    }
  }

  lemma SubmitCalls(s: System, a: AState, step: Step, b: AState)
    requires CallsInv(s, a) && CanStep(s, step) && SystemFollows(s, a, step, b) && FoldInv(After(s, step), b) && step.Submit?
    requires s.c.peers[step.p].role.Leader?
    ensures CallsInv(After(s, step), b)
  {
    var s', p := After(s, step), step.p;
    SubmitMoves(s, p, step.req);
    ReachesNext(a, Propose(p, Some(Op(p, s.replicas[p].opId, step.req))));
    ReachesLater(a, b);
    SubmittedKnown(s, s', a, b, p, step.req);
    SubmittedCalls(s, s', a, b, p, step.req);
    SubmittedOutcomes(s, s', a, p, step.req);
  }

  /** Another peer refuses the operation at once. */
  ghost predicate Refuses(s: System, s': System, key: Key) {
    && s'.service == s.service && s'.calls == s.calls && key !in s.calls && s'.outcomes == s.outcomes[key := WrongLeader]
    && |s'.replicas| == |s.replicas|
    && forall q: nat {:trigger s'.replicas[q]} :: q < |s.replicas| ==> s'.replicas[q].waiting == s.replicas[q].waiting
  }

  lemma RefuseMoves(s: System, p: nat, req: Command)
    requires CanStep(s, Submit(p, req)) && !s.c.peers[p].role.Leader?
    ensures Refuses(s, After(s, Submit(p, req)), (p, s.replicas[p].opId))
  {
  }

  lemma RefusedOutcomes(s: System, s': System, a: AState, key: Key)
    requires CallsInv(s, a) && Refuses(s, s', key)
    ensures CallsKept(s, s', a) && OutcomesOk(s') && AllWaitingOk(s')
  {
    forall k | k in s'.outcomes
      ensures OutcomeOk(s', k)
    {
      if k in s.outcomes {
        assert OutcomeOk(s, k);
      }
    }
    forall q: nat | q < |s'.replicas|
      ensures WaitingOk(s', q, s'.replicas[q])
    {
      assert WaitingOk(s, q, s.replicas[q]);
    }
  }

  lemma RefusedCalls(s: System, a: AState, step: Step, b: AState)
    requires CallsInv(s, a) && CanStep(s, step) && SystemFollows(s, a, step, b) && FoldInv(After(s, step), b) && step.Submit?
    requires !s.c.peers[step.p].role.Leader?
    ensures CallsInv(After(s, step), b)
  {
    RefuseMoves(s, step.p, step.req);
    RefusedOutcomes(s, After(s, step), a, (step.p, s.replicas[step.p].opId));
    KeptCalls(s, After(s, step), a, b);
  }

  // ---------------------------------------------------------------- every step, every run

  lemma CallsPreserved(s: System, a: AState, step: Step) returns (b: AState)
    requires CallsInv(s, a) && CanStep(s, step)
    ensures CallsInv(After(s, step), b)
  {
    b := FoldPreserved(s, a, step);
    if step.Return? {
      ReturnCalls(s, a, step, b);
    } else if step.Receive? {
      ReceiveCalls(s, a, step, b);
    } else if !step.Submit? {
      PlainStep(s, a, step, b);
    } else if s.c.peers[step.p].role.Leader? {
      SubmitCalls(s, a, step, b);
    } else {
      RefusedCalls(s, a, step, b);
    }
  }

  lemma {:induction false} TraceCalls(s: System, a: AState, steps: seq<Step>) returns (b: AState)
    requires CallsInv(s, a) && Legal(s, steps)
    ensures CallsInv(Trace(s, steps), b)
    decreases |steps|
  {
    b := a;
    if |steps| > 0 {
      var m := CallsPreserved(s, a, steps[0]);
      b := TraceCalls(After(s, steps[0]), m, steps[1..]);
    }
  }

  lemma BootCalls(v: Service, n: nat)
    requires n >= 1
    ensures CallsInv(Boot(v, n), Initial(n))
  {
    BootFold(v, n);
  }

  ghost predicate Reachable(s: System, n: nat) {
    n >= 1 && exists v, steps :: Legal(Boot(v, n), steps) && Trace(Boot(v, n), steps) == s
  }

  lemma ReachableCalls(s: System, n: nat) returns (a: AState)
    requires Reachable(s, n)
    ensures CallsInv(s, a)
  {
    var v, steps :| Legal(Boot(v, n), steps) && Trace(Boot(v, n), steps) == s;
    BootCalls(v, n);
    a := TraceCalls(Boot(v, n), Initial(n), steps);
  }
}
