/** What a controller asks after which answers, said on its exchanges alone: recovery, retries, and a run without trouble. */
module ShardRuns {
  import opened KvStore
  import opened ShardTypes
  import opened ShardSystem
  import opened ShardProgram

  /** The number of the configuration an answer brings, 0 without one. */
  function NumberIn(answer: Answer): nat {
    if answer.ConfigIs? then answer.config.num else 0
  }

  /** The answer is a reply to this very kind of request. */
  predicate AnswersTo(op: ShardOp, answer: Answer) {
    && answer.ReplyIs?
    && match op
       case Client(_) => false
       case Freeze(_, _) => answer.reply.FreezeReply?
       case Install(_, _, _) => answer.reply.InstallReply?
       case Delete(_, _) => answer.reply.DeleteReply?
  }

  predicate Says(op: ShardOp, answer: Answer, err: Err) {
    AnswersTo(op, answer) && answer.reply.err == err
  }

  /** Phase k of a run: where the first k answers led. */
  function PhaseAt(start: Phase, trace: seq<Exchange>, k: nat): Phase
    requires k <= |trace|
  {
    Follow(start, AnswersOf(trace)[..k])
  }

  lemma PhaseOn(start: Phase, trace: seq<Exchange>, k: nat)
    requires Follows(start, trace) && k < |trace|
    ensures Next(PhaseAt(start, trace, k)) == Some(trace[k].question)
    ensures PhaseAt(start, trace, k + 1) == Answered(PhaseAt(start, trace, k), trace[k].answer)
    ensures PhaseAt(start, trace, 0) == start
  {
    assert AskedAt(start, trace, k);
    assert AnswersOf(trace)[..k + 1][..k] == AnswersOf(trace)[..k];
    assert AnswersOf(trace)[..0] == [];
  }

  // ---------------------------------------------------------------- recovery

  /**
   A controller that starts reads what is pending, then what is current. It goes on to that target exactly if its number
   is not below the current one; otherwise, or with nothing pending, it stops there without success.
   */
  ghost predicate Recovers(script: seq<Answer>, trace: seq<Exchange>, done: bool) {
    && (|script| > 0 ==> |trace| > 0 && trace[0].question == GetPending)
    && (|script| > 0 && !script[0].ConfigIs? ==> |trace| == 1 && !done)
    && (|script| > 1 && script[0].ConfigIs? ==> |trace| > 1 && trace[1].question == GetCurrent)
    && (|script| > 1 && script[0].ConfigIs? && script[0].config.num < NumberIn(script[1]) ==> |trace| == 2 && !done)
    && (|script| > 2 && script[0].ConfigIs? && script[0].config.num >= NumberIn(script[1]) ==>
          |trace| > 2 && trace[2].question == GetPending)
  }

  lemma RecoversByProgram(script: seq<Answer>, trace: seq<Exchange>, rest: seq<Answer>, done: bool)
    requires Follows(Starting, trace) && AnswersOf(trace) + rest == script
    requires var phase := Follow(Starting, AnswersOf(trace));
             if phase.Stopped? then phase.done == done else rest == [] && !done
    ensures Recovers(script, trace, done)
  {
    assert AnswersOf(trace)[..|trace|] == AnswersOf(trace);
    forall k | 0 <= k < |trace|
      ensures trace[k].answer == script[k]
    {
      assert AnswersOf(trace)[k] == script[k];
    }
    if |trace| > 0 {
      PhaseOn(Starting, trace, 0);
    }
    if |trace| > 1 {
      PhaseOn(Starting, trace, 1);
    }
    if |trace| > 2 {
      PhaseOn(Starting, trace, 2);
    }
  }

  // ---------------------------------------------------------------- requests

  predicate Begins(phase: Phase) {
    phase.Starting? || phase.Choosing? || (phase.Looking? && phase.x == 0)
  }

  /** Before each request the register is read, and holds something older. */
  ghost predicate LooksFirst(trace: seq<Exchange>, k: nat)
    requires k < |trace| && trace[k].question.Send?
  {
    && k > 0 && trace[k - 1].question == GetCurrent
    && !trace[k].question.op.Client? && NumberIn(trace[k - 1].answer) < trace[k].question.op.num
  }

  /** A stale answer ends the run. */
  ghost predicate StaleEnds(trace: seq<Exchange>, k: nat)
    requires k < |trace| && trace[k].question.Send?
  {
    Says(trace[k].question.op, trace[k].answer, ErrStale) ==> |trace| == k + 1
  }

  /** Anything but OK and ErrStale: look again, and if nothing as new is there, send the very same again. */
  ghost predicate OthersRepeat(trace: seq<Exchange>, k: nat)
    requires k < |trace| && trace[k].question.Send?
  {
    var q := trace[k].question;
    !Says(q.op, trace[k].answer, OK) && !Says(q.op, trace[k].answer, ErrStale) && !q.op.Client? ==>
      && (k + 1 < |trace| ==> trace[k + 1].question == GetCurrent)
      && (k + 1 < |trace| && NumberIn(trace[k + 1].answer) >= q.op.num ==> |trace| == k + 2)
      && (k + 2 < |trace| ==> trace[k + 2].question == q)
  }

  /** After OK the controller looks again; what it sends after a freeze carries the state it was given. */
  ghost predicate OkGoesOn(trace: seq<Exchange>, k: nat)
    requires k < |trace| && trace[k].question.Send?
  {
    var q := trace[k].question;
    Says(q.op, trace[k].answer, OK) ==>
      && (k + 1 < |trace| ==> trace[k + 1].question == GetCurrent)
      && (k + 2 < |trace| && q.op.Freeze? ==>
            && trace[k + 2].question.Send?
            && trace[k + 2].question.op
               == (if trace[k + 2].question.op.Install? then Install(q.op.shard, q.op.num, trace[k].answer.reply.state)
                   else Delete(q.op.shard, q.op.num)))
  }

  /** Only a phase that is about to ask for the shard leads to asking. */
  lemma AskingFromChecking(phase: Phase, answer: Answer)
    requires Answered(phase, answer).Asking?
    ensures var next := Answered(phase, answer);
            phase == Checking(next.goal, next.x, next.current, next.stage) && Current(answer).num < next.goal.num
  {
  }

  /** Only a group that has the shard is asked to freeze or delete it. */
  predicate Sensible(phase: Phase) {
    (phase.Checking? || phase.Asking?) && !phase.stage.Installing? ==> OwnerIn(phase.current, phase.x) != 0
  }

  lemma StaysSensible(phase: Phase, answer: Answer)
    requires Sensible(phase)
    ensures Sensible(Answered(phase, answer))
  {
  }

  lemma {:induction false} PhasesSensible(start: Phase, trace: seq<Exchange>, k: nat)
    requires Begins(start) && Follows(start, trace) && k <= |trace|
    ensures Sensible(PhaseAt(start, trace, k))
  {
    if k > 0 {
      PhasesSensible(start, trace, k - 1);
      PhaseOn(start, trace, k - 1);
      StaysSensible(PhaseAt(start, trace, k - 1), trace[k - 1].answer);
    } else {
      assert AnswersOf(trace)[..0] == [];
    }
  }

  lemma RequestRules(start: Phase, trace: seq<Exchange>, k: nat)
    requires Begins(start) && Follows(start, trace) && k < |trace| && trace[k].question.Send?
    ensures LooksFirst(trace, k) && StaleEnds(trace, k) && OthersRepeat(trace, k) && OkGoesOn(trace, k)
  {
    PhaseOn(start, trace, k);
    var asking := PhaseAt(start, trace, k);
    assert asking.Asking?;
    PhaseOn(start, trace, k - 1);
    AskingFromChecking(PhaseAt(start, trace, k - 1), trace[k - 1].answer);
    PhasesSensible(start, trace, k);
    if k + 1 < |trace| {
      PhaseOn(start, trace, k + 1);
    }
    if k + 2 < |trace| {
      PhaseOn(start, trace, k + 2);
    }
  }

  // ---------------------------------------------------------------- a run without trouble

  /** Nothing is lost or refused, and the register keeps the configuration it had until the controller swaps it. */
  function Look(current: Config, version: nat): Exchange {
    Exchange(GetCurrent, ConfigIs(current, version))
  }

  /** What moving shard x takes: nothing if it stays, else freeze, install and delete, each after a look. */
  function ShardExchanges(goal: Config, current: Config, version: nat, held: seq<Option<Store>>, x: nat): seq<Exchange>
    requires x < |goal.owner| && x < |current.owner| && x < |held|
  {
    var src, dst, look := current.owner[x], goal.owner[x], Look(current, version);
    if src == dst then [look]
    else
      [look,
       look, Exchange(Send(src, Freeze(x, goal.num)), ReplyIs(FreezeReply(OK, goal.num, held[x]))),
       look, Exchange(Send(dst, Install(x, goal.num, held[x])), ReplyIs(InstallReply(OK))),
       look, Exchange(Send(src, Delete(x, goal.num)), ReplyIs(DeleteReply(OK)))]
  }

  function Smooth(goal: Config, current: Config, version: nat, held: seq<Option<Store>>, x: nat): seq<Exchange>
    requires |goal.owner| == |current.owner| == |held| == NSHARDS && x <= NSHARDS
    decreases NSHARDS - x
  {
    if x == NSHARDS then [Look(current, version), Exchange(PutCurrent(goal, version), PutIs(OK))]
    else ShardExchanges(goal, current, version, held, x) + Smooth(goal, current, version, held, x + 1)
  }

  lemma FollowsCons(phase: Phase, first: Exchange, rest: seq<Exchange>)
    requires Next(phase) == Some(first.question) && Follows(Answered(phase, first.answer), rest)
    ensures Follows(phase, [first] + rest)
    ensures Follow(phase, AnswersOf([first] + rest)) == Follow(Answered(phase, first.answer), AnswersOf(rest))
  {
    var all := [first] + rest;
    assert AnswersOf(all) == [first.answer] + AnswersOf(rest);
    FollowFirst(phase, first.answer, AnswersOf(rest));
    forall k: nat | k < |all|
      ensures AskedAt(phase, all, k)
    {
      if k == 0 {
        assert AnswersOf(all)[..0] == [];
      } else {
        assert AskedAt(Answered(phase, first.answer), rest, k - 1);
        assert AnswersOf(all)[..k] == [first.answer] + AnswersOf(rest)[..k - 1];
        FollowFirst(phase, first.answer, AnswersOf(rest)[..k - 1]);
      }
    }
  }

  /** The exchanges lead the program from one phase to another. */
  ghost predicate Leads(phase: Phase, trace: seq<Exchange>, phase': Phase) {
    Follows(phase, trace) && Follow(phase, AnswersOf(trace)) == phase'
  }

  lemma LeadsCons(phase: Phase, first: Exchange, rest: seq<Exchange>, phase': Phase)
    requires Next(phase) == Some(first.question) && Leads(Answered(phase, first.answer), rest, phase')
    ensures Leads(phase, [first] + rest, phase')
  {
    FollowsCons(phase, first, rest);
  }

  lemma LeadsAt(phase: Phase, trace: seq<Exchange>, k: nat, phase': Phase)
    requires k < |trace| && Next(phase) == Some(trace[k].question) && Leads(Answered(phase, trace[k].answer), trace[k + 1..], phase')
    ensures Leads(phase, trace[k..], phase')
  {
    assert trace[k..] == [trace[k]] + trace[k + 1..];
    LeadsCons(phase, trace[k], trace[k + 1..], phase');
  }

  lemma LeadsNowhere(phase: Phase)
    ensures Leads(phase, [], phase)
  {
    assert AnswersOf([]) == [];
  }

  lemma HeadOfSum<T>(first: seq<T>, second: seq<T>)
    requires |first| > 0
    ensures first + second == [first[0]] + (first[1..] + second)
  {
  }

  lemma {:induction false} LeadsThen(phase: Phase, first: seq<Exchange>, middle: Phase, second: seq<Exchange>, phase': Phase)
    requires Leads(phase, first, middle) && Leads(middle, second, phase')
    ensures Leads(phase, first + second, phase')
    decreases |first|
  {
    if |first| == 0 {
      assert AnswersOf(first) == [] && first + second == second;
    } else {
      var rest := first[1..] + second;
      LeadsTail(phase, first, middle);
      LeadsThen(Answered(phase, first[0].answer), first[1..], middle, second, phase');
      LeadsCons(phase, first[0], rest, phase');
      HeadOfSum(first, second);
    }
  }

  lemma LeadsTail(phase: Phase, trace: seq<Exchange>, phase': Phase)
    requires |trace| > 0 && Leads(phase, trace, phase')
    ensures Next(phase) == Some(trace[0].question) && Leads(Answered(phase, trace[0].answer), trace[1..], phase')
  {
    var next, rest := Answered(phase, trace[0].answer), trace[1..];
    PhaseOn(phase, trace, 0);
    assert AnswersOf(trace) == [trace[0].answer] + AnswersOf(rest);
    FollowFirst(phase, trace[0].answer, AnswersOf(rest));
    forall k: nat | k < |rest|
      ensures AskedAt(next, rest, k)
    {
      assert AskedAt(phase, trace, k + 1);
      AskedTail(phase, trace, k);
    }
  }

  lemma AskedTail(phase: Phase, trace: seq<Exchange>, k: nat)
    requires |trace| > 0 && AskedAt(phase, trace, k + 1)
    ensures AskedAt(Answered(phase, trace[0].answer), trace[1..], k)
  {
    assert AnswersOf(trace)[..k + 1] == [trace[0].answer] + AnswersOf(trace[1..])[..k];
    FollowFirst(phase, trace[0].answer, AnswersOf(trace[1..])[..k]);
  }

  lemma ShardLeads(goal: Config, current: Config, version: nat, held: seq<Option<Store>>, x: nat)
    requires |goal.owner| == |current.owner| == |held| == NSHARDS && x < NSHARDS && current.num < goal.num
    requires goal.owner[x] != 0 && current.owner[x] != 0
    ensures Leads(Looking(goal, x), ShardExchanges(goal, current, version, held, x), AtShard(goal, x + 1))
  {
    var e, end := ShardExchanges(goal, current, version, held, x), AtShard(goal, x + 1);
    LeadsNowhere(end);
    assert e[|e|..] == [] && e[0..] == e;
    if goal.owner[x] != current.owner[x] {
      MoveLeads(goal, current, version, held, x);
    }
    LeadsAt(Looking(goal, x), e, 0, end);
  }

  lemma MoveLeads(goal: Config, current: Config, version: nat, held: seq<Option<Store>>, x: nat)
    requires |goal.owner| == |current.owner| == |held| == NSHARDS && x < NSHARDS && current.num < goal.num
    requires goal.owner[x] != 0 && current.owner[x] != 0 && goal.owner[x] != current.owner[x]
    ensures var e := ShardExchanges(goal, current, version, held, x);
            Leads(Checking(goal, x, current, Freezing), e[1..], AtShard(goal, x + 1))
  {
    var e, end := ShardExchanges(goal, current, version, held, x), AtShard(goal, x + 1);
    LeadsNowhere(end);
    assert e[7..] == [];
    LeadsAt(Asking(goal, x, current, Deleting), e, 6, end);
    LeadsAt(Checking(goal, x, current, Deleting), e, 5, end);
    LeadsAt(Asking(goal, x, current, Installing(held[x])), e, 4, end);
    LeadsAt(Checking(goal, x, current, Installing(held[x])), e, 3, end);
    LeadsAt(Asking(goal, x, current, Freezing), e, 2, end);
    LeadsAt(Checking(goal, x, current, Freezing), e, 1, end);
  }

  lemma {:induction false} SmoothLeads(goal: Config, current: Config, version: nat, held: seq<Option<Store>>, x: nat)
    requires |goal.owner| == |current.owner| == |held| == NSHARDS && x <= NSHARDS && current.num < goal.num
    requires forall y :: 0 <= y < NSHARDS ==> goal.owner[y] != 0 && current.owner[y] != 0
    ensures Leads(AtShard(goal, x), Smooth(goal, current, version, held, x), Stopped(Some(goal), true))
    decreases NSHARDS - x
  {
    var end := Stopped(Some(goal), true);
    if x == NSHARDS {
      var e := Smooth(goal, current, version, held, x);
      LeadsNowhere(end);
      assert e[2..] == [] && e[0..] == e;
      LeadsAt(Publishing(goal, version), e, 1, end);
      LeadsAt(Finishing(goal), e, 0, end);
    } else {
      ShardLeads(goal, current, version, held, x);
      SmoothLeads(goal, current, version, held, x + 1);
      LeadsThen(AtShard(goal, x), ShardExchanges(goal, current, version, held, x), AtShard(goal, x + 1),
                Smooth(goal, current, version, held, x + 1), end);
    }
  }

  /** The same answers mean the same questions. */
  lemma SameQuestions(start: Phase, trace: seq<Exchange>, other: seq<Exchange>)
    requires Follows(start, trace) && Follows(start, other) && AnswersOf(trace) == AnswersOf(other)
    ensures trace == other
  {
    forall k: nat | k < |trace|
      ensures trace[k] == other[k]
    {
      assert AskedAt(start, trace, k) && AskedAt(start, other, k);
      assert AnswersOf(trace)[k] == AnswersOf(other)[k];
    }
  }

  lemma RecoveryLeads(pending: Exchange, look: Exchange, rest: seq<Exchange>, end: Phase)
    requires pending.question == GetPending && pending.answer.ConfigIs?
    requires look.question == GetCurrent && look.answer.ConfigIs? && look.answer.config.num < pending.answer.config.num
    requires Leads(Looking(pending.answer.config, 0), rest, end)
    ensures Leads(Starting, [pending, look, pending] + rest, end)
  {
    var run, goal := [pending, look, pending] + rest, pending.answer.config;
    assert run[3..] == rest && run[0..] == run;
    LeadsAt(Choosing(goal), run, 2, end);
    LeadsAt(Recovering(goal), run, 1, end);
    LeadsAt(Starting, run, 0, end);
  }

  /**
   A run without trouble, for every target and current configuration: the controller that takes up what is pending asks
   just these questions, shard by shard, with shards that stay passed over, and ends with the target published.
   */
  lemma SmoothRun(goal: Config, current: Config, pendingVersion: nat, version: nat, held: seq<Option<Store>>)
    requires |goal.owner| == |current.owner| == |held| == NSHARDS && current.num < goal.num
    requires forall y :: 0 <= y < NSHARDS ==> goal.owner[y] != 0 && current.owner[y] != 0
    ensures var pending := Exchange(GetPending, ConfigIs(goal, pendingVersion));
            var run := [pending, Look(current, version), pending] + Smooth(goal, current, version, held, 0);
            && Leads(Starting, run, Stopped(Some(goal), true))
            && forall trace :: Follows(Starting, trace) && AnswersOf(trace) == AnswersOf(run) ==> trace == run
  {
    var pending := Exchange(GetPending, ConfigIs(goal, pendingVersion));
    var run := [pending, Look(current, version), pending] + Smooth(goal, current, version, held, 0);
    var end := Stopped(Some(goal), true);
    SmoothLeads(goal, current, version, held, 0);
    RecoveryLeads(pending, Look(current, version), Smooth(goal, current, version, held, 0), end);
    forall trace | Follows(Starting, trace) && AnswersOf(trace) == AnswersOf(run)
      ensures trace == run
    {
      SameQuestions(Starting, trace, run);
    }
  }
}
