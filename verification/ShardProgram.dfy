/** The controller's program: what it asks at each point, and where each answer takes it. */
module ShardProgram {
  import opened KvStore
  import opened ShardTypes
  import opened ShardSystem

  /** GetPending and GetCurrent read the keys "Pending" and "Gid1" of the configuration store, the Puts swap them. */
  datatype Question =
    | GetPending
    | PutPending(config: Config, version: nat)
    | GetCurrent
    | PutCurrent(config: Config, version: nat)
    | Send(to: nat, op: ShardOp)

  datatype Answer =
    | ConfigIs(config: Config, version: nat)
    | Missing
    | PutIs(err: Err)
    | ReplyIs(reply: ShardReply)
    | Lost

  datatype Stage = Freezing | Installing(state: Option<Store>) | Deleting

  /**
   Where the controller is. `goal` is the configuration it works towards, `current` the one it was told for shard x.
   Before each attempt of a request it checks whether the goal was published meanwhile.
   */
  datatype Phase =
    | Starting
    | Recovering(pending: Config)
    | Choosing(goal: Config)
    | Registering(goal: Config, version: nat, first: bool)
    | Looking(goal: Config, x: nat)
    | Checking(goal: Config, x: nat, current: Config, stage: Stage)
    | Asking(goal: Config, x: nat, current: Config, stage: Stage)
    | Finishing(goal: Config)
    | Publishing(goal: Config, version: nat)
    | Stopped(target: Option<Config>, done: bool)

  /** A configuration is decoded into a table of fixed size, so a shard that is not listed has no group. */
  function OwnerIn(config: Config, x: nat): nat {
    if x < |config.owner| then config.owner[x] else 0
  }

  /** What Query makes of an answer: without a configuration, number 0 and every shard at no group. */
  function Current(answer: Answer): Config {
    if answer.ConfigIs? then answer.config else Config(0, seq(NSHARDS, _ => 0))
  }

  function Recipient(goal: Config, x: nat, current: Config, stage: Stage): nat {
    if stage.Installing? then OwnerIn(goal, x) else OwnerIn(current, x)
  }

  function RequestOf(goal: Config, x: nat, stage: Stage): ShardOp {
    match stage
    case Freezing => Freeze(x, goal.num)
    case Installing(state) => Install(x, goal.num, state)
    case Deleting => Delete(x, goal.num)
  }

  predicate Matches(stage: Stage, reply: ShardReply) {
    match stage
    case Freezing => reply.FreezeReply?
    case Installing(_) => reply.InstallReply?
    case Deleting => reply.DeleteReply?
  }

  /** What the controller asks in a phase. */
  function Next(phase: Phase): Option<Question> {
    match phase
    case Starting => Some(GetPending)
    case Recovering(_) => Some(GetCurrent)
    case Choosing(_) => Some(GetPending)
    case Registering(goal, version, _) => Some(PutPending(goal, version))
    case Looking(_, _) => Some(GetCurrent)
    case Checking(_, _, _, _) => Some(GetCurrent)
    case Asking(goal, x, current, stage) => Some(Send(Recipient(goal, x, current, stage), RequestOf(goal, x, stage)))
    case Finishing(_) => Some(GetCurrent)
    case Publishing(goal, version) => Some(PutCurrent(goal, version))
    case Stopped(_, _) => None
  }

  // ---------------------------------------------------------------- from shard to shard

  function AtShard(goal: Config, x: nat): Phase {
    if x < NSHARDS then Looking(goal, x) else Finishing(goal)
  }

  /** The shard is at its old group, if that is one: freeze it there. */
  function Begin(goal: Config, x: nat, current: Config): Phase {
    if OwnerIn(goal, x) == OwnerIn(current, x) then AtShard(goal, x + 1)
    else if OwnerIn(current, x) != 0 then Checking(goal, x, current, Freezing)
    else ToInstall(goal, x, current, None)
  }

  function ToInstall(goal: Config, x: nat, current: Config, state: Option<Store>): Phase {
    if OwnerIn(goal, x) != 0 then Checking(goal, x, current, Installing(state)) else ToDelete(goal, x, current)
  }

  function ToDelete(goal: Config, x: nat, current: Config): Phase {
    if OwnerIn(current, x) != 0 then Checking(goal, x, current, Deleting) else AtShard(goal, x + 1)
  }

  /** The request of a stage was answered OK. */
  function Advanced(goal: Config, x: nat, current: Config, stage: Stage, reply: ShardReply): Phase
    requires Matches(stage, reply)
  {
    match stage
    case Freezing => ToInstall(goal, x, current, reply.state)
    case Installing(_) => ToDelete(goal, x, current)
    case Deleting => AtShard(goal, x + 1)
  }

  // ---------------------------------------------------------------- where an answer leads

  function AfterChoosing(goal: Config, answer: Answer): Phase {
    match answer
    case Missing => Registering(goal, 0, true)
    case ConfigIs(pending, version) =>
      if pending.num < goal.num then Registering(goal, version, false) else Looking(pending, 0)
    case _ => Stopped(None, false)
  }

  function AfterRegistering(goal: Config, first: bool, answer: Answer): Phase {
    if answer == PutIs(OK) || (first && answer == PutIs(ErrMaybe)) then Looking(goal, 0)
    else if answer == PutIs(ErrVersion) || answer == PutIs(ErrMaybe) then Choosing(goal)
    else Stopped(None, false)
  }

  function AfterAsking(goal: Config, x: nat, current: Config, stage: Stage, answer: Answer): Phase {
    if answer.ReplyIs? && Matches(stage, answer.reply) && answer.reply.err == OK
    then Advanced(goal, x, current, stage, answer.reply)
    else if answer.ReplyIs? && Matches(stage, answer.reply) && answer.reply.err == ErrStale then Stopped(Some(goal), false)
    else Checking(goal, x, current, stage)
  }

  function AfterFinishing(goal: Config, answer: Answer): Phase {
    match answer
    case ConfigIs(config, version) =>
      if goal.num <= config.num then Stopped(Some(goal), true) else Publishing(goal, version)
    case _ => Stopped(Some(goal), false)
  }

  function AfterPublishing(goal: Config, answer: Answer): Phase {
    if answer == PutIs(OK) then Stopped(Some(goal), true)
    else if answer == PutIs(ErrVersion) || answer == PutIs(ErrMaybe) then Finishing(goal)
    else Stopped(Some(goal), false)
  }

  function Answered(phase: Phase, answer: Answer): Phase {
    match phase
    case Starting => if answer.ConfigIs? then Recovering(answer.config) else Stopped(None, false)
    case Recovering(pending) => if pending.num >= Current(answer).num then Choosing(pending) else Stopped(None, false)
    case Choosing(goal) => AfterChoosing(goal, answer)
    case Registering(goal, _, first) => AfterRegistering(goal, first, answer)
    case Looking(goal, x) =>
      if Current(answer).num >= goal.num then Stopped(Some(goal), false) else Begin(goal, x, Current(answer))
    case Checking(goal, x, current, stage) =>
      if Current(answer).num >= goal.num then Stopped(Some(goal), false) else Asking(goal, x, current, stage)
    case Asking(goal, x, current, stage) => AfterAsking(goal, x, current, stage, answer)
    case Finishing(goal) => AfterFinishing(goal, answer)
    case Publishing(goal, _) => AfterPublishing(goal, answer)
    case Stopped(_, _) => phase
  }

  // ---------------------------------------------------------------- whole runs of the program

  /** One question and its answer. */
  datatype Exchange = Exchange(question: Question, answer: Answer)

  /** The phase after a number of answers. */
  function Follow(phase: Phase, answers: seq<Answer>): Phase
    decreases |answers|
  {
    if |answers| == 0 then phase else Answered(Follow(phase, answers[..|answers| - 1]), answers[|answers| - 1])
  }

  function AnswersOf(trace: seq<Exchange>): (answers: seq<Answer>)
    ensures |answers| == |trace| && forall k :: 0 <= k < |trace| ==> answers[k] == trace[k].answer
  {
    seq(|trace|, k requires 0 <= k < |trace| => trace[k].answer)
  }

  /** Question k is the one the program asks after the answers before it. */
  ghost predicate AskedAt(phase: Phase, trace: seq<Exchange>, k: nat) {
    k < |trace| && Next(Follow(phase, AnswersOf(trace)[..k])) == Some(trace[k].question)
  }

  ghost predicate Follows(phase: Phase, trace: seq<Exchange>) {
    forall k: nat {:trigger AskedAt(phase, trace, k)} :: k < |trace| ==> AskedAt(phase, trace, k)
  }

  lemma FollowOn(phase: Phase, trace: seq<Exchange>, next: Exchange)
    requires Follows(phase, trace) && Next(Follow(phase, AnswersOf(trace))) == Some(next.question)
    ensures Follows(phase, trace + [next])
    ensures Follow(phase, AnswersOf(trace + [next])) == Answered(Follow(phase, AnswersOf(trace)), next.answer)
    ensures AnswersOf(trace + [next]) == AnswersOf(trace) + [next.answer]
  {
    var longer := trace + [next];
    assert AnswersOf(longer) == AnswersOf(trace) + [next.answer];
    assert AnswersOf(longer)[..|trace|] == AnswersOf(trace);
    forall k: nat | k < |longer|
      ensures AskedAt(phase, longer, k)
    {
      assert AnswersOf(longer)[..k] == AnswersOf(trace)[..k];
      if k == |trace| {
        assert AnswersOf(trace)[..k] == AnswersOf(trace);
      } else {
        assert AskedAt(phase, trace, k);
      }
    }
  }

  lemma {:induction false} FollowFirst(phase: Phase, answer: Answer, answers: seq<Answer>)
    ensures Follow(phase, [answer] + answers) == Follow(Answered(phase, answer), answers)
    decreases |answers|
  {
    var all := [answer] + answers;
    if |answers| == 0 {
      assert all[..0] == [];
    } else {
      assert all[..|all| - 1] == [answer] + answers[..|answers| - 1];
      FollowFirst(phase, answer, answers[..|answers| - 1]);
    }
  }
}
