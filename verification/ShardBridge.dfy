/** A controller's whole run, between any other steps of the system, consists of steps of the migration protocol. */
module ShardBridge {
  import opened KvStore
  import opened ShardTypes
  import opened ShardSystem
  import opened ShardInvariant
  import opened ShardMigration
  import opened ShardProgram
  import opened ShardTheorems

  // ---------------------------------------------------------------- reachable systems

  lemma {:induction false} TraceOn(s: System, steps: seq<Step>, step: Step)
    requires Legal(s, steps) && CanStep(Trace(s, steps), step)
    ensures Legal(s, steps + [step]) && Trace(s, steps + [step]) == After(Trace(s, steps), step)
    decreases |steps|
  {
    if |steps| == 0 {
      assert [] + [step] == [step];
      assert [step][1..] == [];
    } else {
      TraceOn(After(s, steps[0]), steps[1..], step);
      assert (steps + [step])[1..] == steps[1..] + [step];
    }
  }

  lemma ReachableOn(s: System, step: Step)
    requires Reachable(s) && CanStep(s, step)
    ensures Reachable(After(s, step))
  {
    var hash, gids, num, steps :|
      GID1 in gids && 0 !in gids && Legal(Boot(hash, gids, num), steps) && Trace(Boot(hash, gids, num), steps) == s;
    TraceOn(Boot(hash, gids, num), steps, step);
  }

  lemma {:induction false} GroupsStay(s: System, steps: seq<Step>)
    requires Legal(s, steps)
    ensures Trace(s, steps).groups.Keys == s.groups.Keys
    decreases |steps|
  {
    if |steps| > 0 {
      GroupsStay(After(s, steps[0]), steps[1..]);
    }
  }

  /** Every shard of every configuration belongs to some group. */
  lemma NoUnassigned(s: System, i: nat, x: nat)
    requires Reachable(s) && i < |s.configs| && x < NSHARDS
    ensures Shaped(s) && Owner(s, i, x) != 0 && OwnerIn(s.configs[i], x) == Owner(s, i, x)
  {
    var hash, gids, num, steps :|
      GID1 in gids && 0 !in gids && Legal(Boot(hash, gids, num), steps) && Trace(Boot(hash, gids, num), steps) == s;
    GroupsStay(Boot(hash, gids, num), steps);
    var abs := ReachableInv(s);
    assert s.configs[i].owner[x] in s.groups;
  }

  /** What only grows. */
  ghost predicate Grown(s: System, s': System) {
    Shaped(s) && Shaped(s') && s.net <= s'.net && s.configs <= s'.configs && s.published <= s'.published
  }

  lemma StepGrows(s: System, step: Step)
    requires Reachable(s) && CanStep(s, step)
    ensures Grown(s, After(s, step))
  {
    var abs := ReachableInv(s);
    var abs' := InvPreserved(s, abs, step);
    if step.Publish? {
      assert PlanOk(s, step.call);
      assert step.call.target < s.published ==> Num(s, step.call.target) < Num(s, s.published);
    }
  }

  // ---------------------------------------------------------------- what a controller remembers is so

  ghost predicate AllThrough(s: System, j: nat, n: nat)
    requires Shaped(s) && j < |s.configs|
  {
    forall x: nat {:trigger Through(s, j, x)} :: x < n && x < NSHARDS ==> Through(s, j, x)
  }

  /** The controller was told configuration i, under which another group has the shard. */
  ghost predicate Recalls(s: System, j: nat, i: nat, x: nat, current: Config)
    requires Shaped(s)
  {
    Moving(s, j, i, x) && s.configs[i] == current
  }

  /** The answers that led to a stage were given. */
  ghost predicate StageOk(s: System, j: nat, i: nat, x: nat, stage: Stage)
    requires Shaped(s) && Moving(s, j, i, x)
  {
    match stage
    case Freezing => true
    case Installing(state) => exists d :: FrozenBy(s, j, i, x, d) && d.reply.state == state
    case Deleting => exists d :: InstalledBy(s, j, x, d)
  }

  ghost predicate Moved(s: System, j: nat, i: nat, x: nat, current: Config, stage: Stage)
    requires Shaped(s)
  {
    Recalls(s, j, i, x, current) && StageOk(s, j, i, x, stage)
  }

  /** Everything the phase of a controller that works towards target j rests on. */
  ghost predicate Knows(s: System, j: nat, phase: Phase) {
    && Shaped(s) && j < |s.configs|
    && match phase
       case Looking(goal, x) => goal == s.configs[j] && x < NSHARDS && AllThrough(s, j, x)
       case Checking(goal, x, current, stage) =>
         goal == s.configs[j] && AllThrough(s, j, x) && exists i: nat :: Moved(s, j, i, x, current, stage)
       case Asking(goal, x, current, stage) =>
         goal == s.configs[j] && AllThrough(s, j, x) && exists i: nat :: Moved(s, j, i, x, current, stage)
       case Finishing(goal) => goal == s.configs[j] && AllThrough(s, j, NSHARDS)
       case Publishing(goal, version) =>
         goal == s.configs[j] && AllThrough(s, j, NSHARDS) && PublishCall(j, version) in s.net
       case Stopped(_, _) => s.published >= j
       case _ => false
  }

  lemma MovedStays(s: System, s': System, j: nat, i: nat, x: nat, current: Config, stage: Stage)
    requires Grown(s, s') && Moved(s, j, i, x, current, stage)
    ensures Moved(s', j, i, x, current, stage)
  {
    if stage.Installing? {
      var d :| FrozenBy(s, j, i, x, d) && d.reply.state == stage.state;
      assert FrozenBy(s', j, i, x, d);
    } else if stage.Deleting? {
      var d :| InstalledBy(s, j, x, d);
      assert InstalledBy(s', j, x, d);
    }
  }

  /** Knowledge lasts, whatever the rest of the system does. */
  lemma KnowledgeStays(s: System, s': System, j: nat, phase: Phase)
    requires Grown(s, s') && Knows(s, j, phase)
    ensures Knows(s', j, phase)
  {
    forall x: nat | x < NSHARDS && Through(s, j, x)
      ensures Through(s', j, x)
    {
      var i: nat :| ShardDone(s, j, x, i);
      assert ShardDone(s', j, x, i);
    }
    if phase.Checking? || phase.Asking? {
      var i: nat :| Moved(s, j, i, phase.x, phase.current, phase.stage);
      MovedStays(s, s', j, i, phase.x, phase.current, phase.stage);
    }
  }

  // ---------------------------------------------------------------- the controller in the system

  /** Some other step of the system, a question of the controller, or an answer to it. */
  datatype Move = World(step: Step) | Asks | Told(answer: Answer)

  /** An answer is what the configuration store or the group gave; a swap of a register that is there has only these three. */
  ghost predicate Truthful(s: System, j: nat, phase: Phase, answer: Answer) {
    && Shaped(s)
    && match phase
       case Asking(goal, x, current, stage) =>
         answer.ReplyIs? ==> Done(Recipient(goal, x, current, stage), j, RequestOf(goal, x, stage), answer.reply) in s.net
       case Publishing(_, version) =>
         answer.PutIs? && answer.err in {OK, ErrVersion, ErrMaybe} && (answer.err == OK ==> PublishDone(j, version) in s.net)
       case _ => answer == ConfigIs(s.configs[s.published], s.version)
  }

  ghost predicate CanMove(s: System, j: nat, phase: Phase, move: Move) {
    match move
    case World(step) => CanStep(s, step)
    case Asks => Shaped(s) && Next(phase).Some?
    case Told(answer) => !phase.Stopped? && Truthful(s, j, phase, answer)
  }

  /**
   What a question or an answer adds to the system: a request on its way, or what was learned. A swap can be on its way
   from the moment on that the register was read for it.
   */
  ghost function Adds(s: System, j: nat, phase: Phase, move: Move): set<Packet>
    requires CanMove(s, j, phase, move) && !move.World?
  {
    match (move, phase)
    case (Asks, Asking(goal, x, current, stage)) => {Call(Recipient(goal, x, current, stage), j, RequestOf(goal, x, stage))}
    case (Asks, Publishing(_, version)) => {PublishCall(j, version)}
    case (Told(answer), Looking(goal, _)) => if Current(answer).num < goal.num then {Plan(j, s.published)} else {}
    case (Told(answer), Finishing(goal)) => if Current(answer).num < goal.num then {PublishCall(j, s.version)} else {}
    case _ => {}
  }

  ghost function SystemAfter(s: System, j: nat, phase: Phase, move: Move): System
    requires CanMove(s, j, phase, move)
  {
    if move.World? then After(s, move.step) else s.(net := s.net + Adds(s, j, phase, move))
  }

  function PhaseAfter(phase: Phase, move: Move): Phase {
    if move.Told? then Answered(phase, move.answer) else phase
  }

  // ---------------------------------------------------------------- every question is a step

  /** The step by which the protocol sends what the controller asks. */
  lemma AskedIsStep(s: System, j: nat, goal: Config, x: nat, current: Config, stage: Stage) returns (step: Step)
    requires Reachable(s) && Knows(s, j, Asking(goal, x, current, stage))
    ensures CanStep(s, step) && After(s, step) == Sent(s, Call(Recipient(goal, x, current, stage), j, RequestOf(goal, x, stage)))
  {
    var i: nat :| Moved(s, j, i, x, current, stage);
    NoUnassigned(s, i, x);
    NoUnassigned(s, j, x);
    match stage
    case Freezing => step := SendFreeze(j, i, x);
    case Installing(state) =>
      var d :| FrozenBy(s, j, i, x, d) && d.reply.state == state;
      step := SendInstall(j, i, x, d);
    case Deleting =>
      var d :| InstalledBy(s, j, x, d);
      step := SendDelete(j, i, x, d);
  }

  /** When the controller has read an older configuration for its swap, the protocol can send that very swap. */
  lemma PublishIsStep(s: System, j: nat, goal: Config)
    requires Reachable(s) && Knows(s, j, Finishing(goal)) && Num(s, s.published) < goal.num
    ensures CanStep(s, SendPublish(j)) && After(s, SendPublish(j)) == Sent(s, PublishCall(j, s.version))
  {
  }

  /** What a question or an answer adds is added by at most one step of the protocol. */
  lemma AddedIsStep(s: System, j: nat, phase: Phase, move: Move)
    requires Reachable(s) && Knows(s, j, phase) && CanMove(s, j, phase, move) && !move.World?
    ensures Reachable(SystemAfter(s, j, phase, move)) && Grown(s, SystemAfter(s, j, phase, move))
  {
    var s' := SystemAfter(s, j, phase, move);
    if move.Asks? && phase.Asking? {
      var step := AskedIsStep(s, j, phase.goal, phase.x, phase.current, phase.stage);
      ReachableOn(s, step);
    } else if move.Told? && phase.Looking? && Current(move.answer).num < phase.goal.num {
      assert s' == After(s, Ask(j));
      ReachableOn(s, Ask(j));
    } else if move.Told? && phase.Finishing? && Current(move.answer).num < phase.goal.num {
      PublishIsStep(s, j, phase.goal);
      assert s' == After(s, SendPublish(j));
      ReachableOn(s, SendPublish(j));
    } else {
      assert s'.net == s.net;
      assert s' == s;
    }
  }

  // ---------------------------------------------------------------- every answer leads to a phase that is backed

  /** A shard is through, or its move begins. */
  lemma BeginKnown(s: System, j: nat, x: nat, i: nat)
    requires Reachable(s) && Shaped(s) && j < |s.configs| && x < NSHARDS && AllThrough(s, j, x)
    requires i < |s.configs| && Plan(j, i) in s.net
    ensures Knows(s, j, Begin(s.configs[j], x, s.configs[i]))
  {
    NoUnassigned(s, i, x);
    NoUnassigned(s, j, x);
    if Owner(s, i, x) == Owner(s, j, x) {
      assert ShardDone(s, j, x, i);
    } else {
      assert Moved(s, j, i, x, s.configs[i], Freezing);
    }
  }

  /** The request of a stage was answered OK: the next stage, or the next shard. */
  lemma OnwardKnown(s: System, j: nat, x: nat, current: Config, stage: Stage, reply: ShardReply)
    requires Reachable(s) && Shaped(s) && j < |s.configs| && Knows(s, j, Asking(s.configs[j], x, current, stage))
    requires Matches(stage, reply) && reply.err == OK
    requires Done(Recipient(s.configs[j], x, current, stage), j, RequestOf(s.configs[j], x, stage), reply) in s.net
    ensures Knows(s, j, Advanced(s.configs[j], x, current, stage, reply))
  {
    var i: nat :| Moved(s, j, i, x, current, stage);
    var d := Done(Recipient(s.configs[j], x, current, stage), j, RequestOf(s.configs[j], x, stage), reply);
    NoUnassigned(s, i, x);
    NoUnassigned(s, j, x);
    match stage
    case Freezing =>
      assert FrozenBy(s, j, i, x, d);
      assert Moved(s, j, i, x, current, Installing(reply.state));
    case Installing(_) =>
      assert InstalledBy(s, j, x, d);
      assert Moved(s, j, i, x, current, Deleting);
    case Deleting =>
      assert ShardDone(s, j, x, i);
  }

  /** A refusal means that the target has been published meanwhile, by another controller. */
  lemma RefusedKnown(s: System, j: nat, goal: Config, x: nat, current: Config, stage: Stage, reply: ShardReply)
    requires Reachable(s) && Knows(s, j, Asking(goal, x, current, stage)) && Matches(stage, reply) && reply.err != OK
    requires Done(Recipient(goal, x, current, stage), j, RequestOf(goal, x, stage), reply) in s.net
    ensures s.published >= j
  {
    var i: nat :| Moved(s, j, i, x, current, stage);
    RefusalMeansPublished(s, Done(Recipient(goal, x, current, stage), j, RequestOf(goal, x, stage), reply));
  }

  lemma PublishedReached(s: System, j: nat, version: nat)
    requires Reachable(s) && PublishDone(j, version) in s.net
    ensures s.published >= j
  {
    var abs := ReachableInv(s);
    assert PlanOk(s, PublishDone(j, version));
  }

  lemma NumbersRise(s: System, i: nat, j: nat)
    requires Reachable(s) && i < |s.configs| && j < |s.configs|
    ensures i < j ==> s.configs[i].num < s.configs[j].num
  {
    var abs := ReachableInv(s);
  }

  lemma NumberReached(s: System, j: nat)
    requires Reachable(s) && j < |s.configs| && s.published < |s.configs| && s.configs[s.published].num >= s.configs[j].num
    ensures s.published >= j
  {
    NumbersRise(s, s.published, j);
  }

  lemma AnsweredKnown(s: System, j: nat, phase: Phase, answer: Answer)
    requires Reachable(s) && Knows(s, j, phase) && CanMove(s, j, phase, Told(answer))
    ensures Knows(SystemAfter(s, j, phase, Told(answer)), j, Answered(phase, answer))
  {
    var s' := SystemAfter(s, j, phase, Told(answer));
    AddedIsStep(s, j, phase, Told(answer));
    KnowledgeStays(s, s', j, phase);
    match phase {
      case Looking(goal, x) =>
        if Current(answer).num < goal.num {
          BeginKnown(s', j, x, s.published);
        } else {
          NumberReached(s, j);
        }
      case Checking(goal, x, current, stage) =>
        if Current(answer).num >= goal.num {
          NumberReached(s, j);
        }
      case Asking(goal, x, current, stage) =>
        if answer.ReplyIs? && Matches(stage, answer.reply) {
          if answer.reply.err == OK {
            OnwardKnown(s', j, x, current, stage, answer.reply);
          } else {
            RefusedKnown(s, j, goal, x, current, stage, answer.reply);
          }
        }
      case Finishing(goal) =>
        if goal.num <= s.configs[s.published].num {
          NumberReached(s, j);
        }
      case Publishing(goal, version) =>
        if answer == PutIs(OK) {
          PublishedReached(s, j, version);
        }
      case _ =>
    }
  }

  // ---------------------------------------------------------------- whole runs

  ghost predicate CanRun(s: System, j: nat, phase: Phase, moves: seq<Move>)
    decreases |moves|
  {
    |moves| > 0 ==>
      && CanMove(s, j, phase, moves[0])
      && CanRun(SystemAfter(s, j, phase, moves[0]), j, PhaseAfter(phase, moves[0]), moves[1..])
  }

  ghost function SystemRun(s: System, j: nat, phase: Phase, moves: seq<Move>): System
    requires CanRun(s, j, phase, moves)
    decreases |moves|
  {
    if |moves| == 0 then s
    else SystemRun(SystemAfter(s, j, phase, moves[0]), j, PhaseAfter(phase, moves[0]), moves[1..])
  }

  /** The answers the controller was given along the run. */
  function AnswersIn(moves: seq<Move>): seq<Answer>
    decreases |moves|
  {
    if |moves| == 0 then []
    else if moves[0].Told? then [moves[0].answer] + AnswersIn(moves[1..]) else AnswersIn(moves[1..])
  }

  /**
   A controller's run from the choice of its target on, with any steps of groups, clients and other controllers in
   between, whose answers are true: the system stays one that the protocol reaches, the controller is where its program
   puts it after those answers, and if it ends, for whatever reason, its target has been published.
   */
  lemma {:induction false} ControllerRun(s: System, j: nat, phase: Phase, moves: seq<Move>)
    requires Reachable(s) && Knows(s, j, phase) && CanRun(s, j, phase, moves)
    ensures var s', phase' := SystemRun(s, j, phase, moves), Follow(phase, AnswersIn(moves));
            && Reachable(s') && Knows(s', j, phase')
            && (phase'.Stopped? ==> s'.published >= j)
    decreases |moves|
  {
    if |moves| > 0 {
      var move := moves[0];
      var next := SystemAfter(s, j, phase, move);
      if move.World? {
        ReachableOn(s, move.step);
        StepGrows(s, move.step);
        KnowledgeStays(s, next, j, phase);
      } else {
        AddedIsStep(s, j, phase, move);
        KnowledgeStays(s, next, j, phase);
        if move.Told? {
          AnsweredKnown(s, j, phase, move.answer);
          FollowFirst(phase, move.answer, AnswersIn(moves[1..]));
        }
      }
      ControllerRun(next, j, PhaseAfter(phase, move), moves[1..]);
    }
  }

  /** That holds of every controller that has a target, in any reachable system. */
  lemma TargetRun(s: System, j: nat, moves: seq<Move>)
    requires Reachable(s) && j < |s.configs| && CanRun(s, j, Looking(s.configs[j], 0), moves)
    ensures var s', phase' := SystemRun(s, j, Looking(s.configs[j], 0), moves), Follow(Looking(s.configs[j], 0), AnswersIn(moves));
            Reachable(s') && (phase'.Stopped? ==> s'.published >= j)
  {
    var abs := ReachableInv(s);
    ControllerRun(s, j, Looking(s.configs[j], 0), moves);
  }
}
