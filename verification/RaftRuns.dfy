/**
 Runs of the abstract protocol: composition, and what only grows along them.

 `Later` is what every run keeps: terms, acknowledgements, votes, messages, leaders' logs and deliveries.

 `Quietly` is a run without client commands. Along it no entry appears that no leader had before, so what is known of
 the operations in the logs stays known.
 */
module RaftRuns {
  import opened RaftTypes
  import opened AbstractRaft
  import opened RaftInvariant
  import opened RaftStability
  import opened RaftPreservation

  /** The leader of a term stays, and its log only grows. */
  ghost predicate RecordKept(a: LeaderRec, b: LeaderRec) {
    b.id == a.id && |a.log| <= |b.log| && forall i :: 0 <= i < |a.log| ==> b.log[i] == a.log[i]
  }

  /** What later states keep of earlier ones. */
  ghost predicate Later(a: AState, b: AState) {
    && |a.peers| == |b.peers|
    && (forall q: nat, t: nat {:trigger Ack(b.peers[q], t)} :: q < |a.peers| ==> Ack(b.peers[q], t) >= Ack(a.peers[q], t))
    && (forall t: nat :: t in a.leaders ==> t in b.leaders && RecordKept(a.leaders[t], b.leaders[t]))
    && a.requests <= b.requests && a.votes <= b.votes && a.appends <= b.appends && a.applied <= b.applied
  }

  lemma QuietGrows(s: AState, e: Event)
    requires Inv(s) && Enabled(s, e) && !e.Elect? && !e.Propose? && !e.Accept?
    ensures Grows(s, Next(s, e), e.p)
  {
  }

  lemma NextGrows(s: AState, e: Event)
    requires Inv(s) && Enabled(s, e)
    ensures Grows(s, Next(s, e), e.p)
  {
    match e
    case Elect(p, voters) =>
      NewTerm(s, p, voters);
      ElectGrows(s, Next(s, e), p, voters);
    case Propose(p, command) => ProposeGrows(s, Next(s, e), p, command);
    case Accept(p, m) => AcceptGrows(s, Next(s, e), p, m);
    case _ => QuietGrows(s, e);
  }

  lemma NextLater(s: AState, e: Event)
    requires Inv(s) && Enabled(s, e)
    ensures Later(s, Next(s, e))
  {
    NextGrows(s, e);
    var s' := Next(s, e);
    PeersGrow(s, s', e.p);
    forall t: nat | t in s.leaders
      ensures t in s'.leaders && RecordKept(s.leaders[t], s'.leaders[t])
    {
      assert LeaderStep(s.leaders[t], s'.leaders[t], e.p);
    }
    forall q: nat, t: nat | q < |s.peers|
      ensures Ack(s'.peers[q], t) >= Ack(s.peers[q], t)
    {
      assert PeerStep(s.peers[q], s'.peers[q]);
    }
  }

  lemma LaterTransitive(a: AState, b: AState, c: AState)
    requires Later(a, b) && Later(b, c)
    ensures Later(a, c)
  {
    forall t: nat | t in a.leaders
      ensures t in c.leaders && RecordKept(a.leaders[t], c.leaders[t])
    {
      assert RecordKept(a.leaders[t], b.leaders[t]) && RecordKept(b.leaders[t], c.leaders[t]);
    }
  }

  lemma {:induction false} RunLater(s: AState, events: seq<Event>)
    requires Inv(s) && ValidRun(s, events)
    ensures Later(s, Run(s, events)) && Inv(Run(s, events))
    decreases |events|
  {
    if |events| > 0 {
      NextLater(s, events[0]);
      NextPreserves(s, events[0]);
      RunLater(Next(s, events[0]), events[1..]);
      LaterTransitive(s, Next(s, events[0]), Run(s, events));
    }
  }

  lemma {:induction false} RunConcat(s: AState, a: seq<Event>, b: seq<Event>)
    requires ValidRun(s, a) && ValidRun(Run(s, a), b)
    ensures ValidRun(s, a + b) && Run(s, a + b) == Run(Run(s, a), b)
    decreases |a|
  {
    if |a| == 0 {
      assert a + b == b;
    } else {
      RunConcat(Next(s, a[0]), a[1..], b);
      assert (a + b)[1..] == a[1..] + b;
    }
  }

  /** Some run of the abstract protocol leads from a to b. */
  ghost predicate Reaches(a: AState, b: AState) {
    exists events :: ValidRun(a, events) && Run(a, events) == b
  }

  lemma ReachesThen(a: AState, b: AState, c: AState)
    requires Reaches(a, b) && Reaches(b, c)
    ensures Reaches(a, c)
  {
    var e :| ValidRun(a, e) && Run(a, e) == b;
    var f :| ValidRun(b, f) && Run(b, f) == c;
    RunConcat(a, e, f);
    assert ValidRun(a, e + f) && Run(a, e + f) == c;
  }

  /** Everything reached is later, and keeps the invariant. */
  lemma ReachesLater(a: AState, b: AState)
    requires Inv(a) && Reaches(a, b)
    ensures Later(a, b) && Inv(b)
  {
    var e :| ValidRun(a, e) && Run(a, e) == b;
    RunLater(a, e);
  }

  lemma ReachesNext(a: AState, e: Event)
    requires Enabled(a, e)
    ensures Reaches(a, Next(a, e))
  {
    assert ValidRun(Next(a, e), []);
    assert [e][1..] == [];
    assert ValidRun(a, [e]) && Run(a, [e]) == Next(a, e);
  }

  // ---------------------------------------------------------------- runs without proposals

  ghost predicate NoProposal(events: seq<Event>) {
    forall i :: 0 <= i < |events| ==> !events[i].Propose?
  }

  /** A run in which no leader makes a new entry leads from a to b. */
  ghost predicate Quietly(a: AState, b: AState) {
    exists events :: NoProposal(events) && ValidRun(a, events) && Run(a, events) == b
  }

  lemma QuietlyItself(a: AState)
    ensures Quietly(a, a)
  {
    assert NoProposal([]) && ValidRun(a, []) && Run(a, []) == a;
  }

  lemma QuietlyNext(a: AState, e: Event)
    requires Enabled(a, e) && !e.Propose?
    ensures Quietly(a, Next(a, e))
  {
    assert ValidRun(Next(a, e), []);
    assert [e][1..] == [];
    assert NoProposal([e]) && ValidRun(a, [e]) && Run(a, [e]) == Next(a, e);
  }

  lemma QuietlyThen(a: AState, b: AState, c: AState)
    requires Quietly(a, b) && Quietly(b, c)
    ensures Quietly(a, c)
  {
    var e :| NoProposal(e) && ValidRun(a, e) && Run(a, e) == b;
    var f :| NoProposal(f) && ValidRun(b, f) && Run(b, f) == c;
    RunConcat(a, e, f);
    assert NoProposal(e + f) && ValidRun(a, e + f) && Run(a, e + f) == c;
  }

  lemma QuietlyReaches(a: AState, b: AState)
    requires Quietly(a, b)
    ensures Reaches(a, b)
  {
    var e :| NoProposal(e) && ValidRun(a, e) && Run(a, e) == b;
    assert ValidRun(a, e) && Run(a, e) == b;
  }

  lemma QuietlyLater(a: AState, b: AState)
    requires Inv(a) && Quietly(a, b)
    ensures Later(a, b) && Inv(b)
  {
    QuietlyReaches(a, b);
    ReachesLater(a, b);
  }

  /** Some leader of a has entry e at position j. */
  ghost predicate Known(a: AState, j: nat, e: Entry) {
    exists u: nat :: u in a.leaders && j < |a.leaders[u].log| && a.leaders[u].log[j] == e
  }

  ghost predicate NoNewEntries(a: AState, b: AState) {
    forall t: nat, j: nat {:trigger b.leaders[t].log[j]} :: t in b.leaders && j < |b.leaders[t].log| ==> Known(a, j, b.leaders[t].log[j])
  }

  lemma NoNewTransitive(a: AState, b: AState, c: AState)
    requires NoNewEntries(a, b) && NoNewEntries(b, c)
    ensures NoNewEntries(a, c)
  {
    forall t: nat, j: nat | t in c.leaders && j < |c.leaders[t].log|
      ensures Known(a, j, c.leaders[t].log[j])
    {
      assert Known(b, j, c.leaders[t].log[j]);
      var u: nat :| u in b.leaders && j < |b.leaders[u].log| && b.leaders[u].log[j] == c.leaders[t].log[j];
    }
  }

  lemma NextNoNew(a: AState, e: Event)
    requires Inv(a) && Enabled(a, e) && !e.Propose?
    ensures NoNewEntries(a, Next(a, e))
  {
    var b := Next(a, e);
    forall t: nat, j: nat | t in b.leaders && j < |b.leaders[t].log|
      ensures Known(a, j, b.leaders[t].log[j])
    {
      if e.Elect? && t == a.peers[e.p].term {
        assert PeerOk(a, e.p);
        var u := LastTerm(a.peers[e.p].log);
        assert a.leaders[u].log[j] == b.leaders[t].log[j];
      } else {
        assert t in a.leaders && b.leaders[t].log[j] == a.leaders[t].log[j];
      }
    }
  }

  lemma {:induction false} RunNoNew(a: AState, events: seq<Event>)
    requires Inv(a) && NoProposal(events) && ValidRun(a, events)
    ensures NoNewEntries(a, Run(a, events))
    decreases |events|
  {
    if |events| > 0 {
      NextNoNew(a, events[0]);
      NextPreserves(a, events[0]);
      RunNoNew(Next(a, events[0]), events[1..]);
      NoNewTransitive(a, Next(a, events[0]), Run(a, events));
    } else {
      forall t: nat, j: nat | t in a.leaders && j < |a.leaders[t].log|
        ensures Known(a, j, a.leaders[t].log[j])
      {
      }
    }
  }

  /** Without proposals, leaders' logs hold only what some leader's log held before. */
  lemma QuietlyNoNew(a: AState, b: AState)
    requires Inv(a) && Quietly(a, b)
    ensures NoNewEntries(a, b)
  {
    var e :| NoProposal(e) && ValidRun(a, e) && Run(a, e) == b;
    RunNoNew(a, e);
  }
}
