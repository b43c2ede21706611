/** A controller's run from its very start: it chooses a target, by registering its own or taking over what is pending. */
module ShardChoice {
  import opened KvStore
  import opened ShardSystem
  import opened ShardProgram
  import opened ShardBridge

  /** The controller has no target yet. */
  predicate Seeking(phase: Phase) {
    phase.Starting? || phase.Recovering? || phase.Choosing? || phase.Registering?
  }

  /** What the register "Pending" holds: the latest target, at a version that counts the registrations. */
  ghost function Pending(s: System): Answer
    requires |s.configs| >= 1
  {
    if |s.configs| == 1 then Missing else ConfigIs(s.configs[|s.configs| - 1], |s.configs| - 1)
  }

  /** The swap of "Pending" at this version was made, for this target. */
  ghost predicate Registered(s: System, goal: Config, version: nat) {
    version + 1 < |s.configs| && s.configs[version + 1] == goal
  }

  /**
   Reads return what is there. A swap answered at all was carried out at least once, after which the version is past the
   one it named; OK means that it was made. ErrMaybe leaves open whether it was.
   */
  ghost predicate ToldTruly(s: System, phase: Phase, answer: Answer) {
    && Shaped(s)
    && match phase
       case Recovering(_) => answer == ConfigIs(s.configs[s.published], s.version)
       case Registering(goal, version, _) =>
         && answer.PutIs? && answer.err in {OK, ErrVersion, ErrMaybe} && version + 1 < |s.configs|
         && (answer.err == OK ==> Registered(s, goal, version))
       case _ => answer == Pending(s)
  }

  /** The controller seeks a target between any steps of the system, among them the registrations. */
  ghost predicate CanSeek(s: System, phase: Phase, moves: seq<Move>)
    decreases |moves|
  {
    |moves| > 0 ==>
      match moves[0]
      case World(step) => CanStep(s, step) && CanSeek(After(s, step), phase, moves[1..])
      case Asks => Seeking(phase) && CanSeek(s, phase, moves[1..])
      case Told(answer) => Seeking(phase) && ToldTruly(s, phase, answer) && CanSeek(s, Answered(phase, answer), moves[1..])
  }

  ghost function SystemSought(s: System, phase: Phase, moves: seq<Move>): System
    requires CanSeek(s, phase, moves)
    decreases |moves|
  {
    if |moves| == 0 then s
    else
      match moves[0]
      case World(step) => SystemSought(After(s, step), phase, moves[1..])
      case Asks => SystemSought(s, phase, moves[1..])
      case Told(answer) => SystemSought(s, Answered(phase, answer), moves[1..])
  }

  ghost predicate IsTarget(s: System, goal: Config) {
    exists j: nat {:trigger s.configs[j]} :: j < |s.configs| && s.configs[j] == goal
  }

  /** The last answer was ErrMaybe, to the controller's own registration of a first target: it goes on regardless. */
  ghost predicate Misled(phase: Phase, answers: seq<Answer>) {
    && |answers| > 0 && answers[|answers| - 1] == PutIs(ErrMaybe)
    && var before := Follow(phase, answers[..|answers| - 1]); before.Registering? && before.first
  }

  predicate Newer(answer: Answer, pending: Config) {
    answer.ConfigIs? && answer.config.num > pending.num
  }

  /** There is nothing to do: nothing was pending at the start, or something newer than what was pending is current. */
  predicate NothingToDo(phase: Phase, answers: seq<Answer>) {
    match phase
    case Starting =>
      |answers| > 0 && (answers[0] == Missing || (answers[0].ConfigIs? && |answers| > 1 && Newer(answers[1], answers[0].config)))
    case Recovering(pending) => |answers| > 0 && Newer(answers[0], pending)
    case _ => false
  }

  /** Where seeking may lead: on, to an end because there is nothing to do, or to the first shard of a target. */
  ghost predicate Sought(s: System, phase: Phase, misled: bool, nothing: bool) {
    || Seeking(phase) || (phase == Stopped(None, false) && nothing)
    || (phase.Looking? && phase.x == 0 && (IsTarget(s, phase.goal) || misled))
  }

  lemma SoughtStays(s: System, step: Step, phase: Phase, misled: bool, nothing: bool)
    requires CanStep(s, step) && Sought(s, phase, misled, nothing)
    ensures Sought(After(s, step), phase, misled, nothing)
  {
    if phase.Looking? && IsTarget(s, phase.goal) {
      var j: nat :| j < |s.configs| && s.configs[j] == phase.goal;
      assert After(s, step).configs[j] == phase.goal;
    }
  }

  /** One answer, while seeking. */
  lemma AnswerSought(s: System, phase: Phase, answer: Answer)
    requires Seeking(phase) && ToldTruly(s, phase, answer)
    ensures Sought(s, Answered(phase, answer), Misled(phase, [answer]), NothingToDo(phase, [answer]))
  {
    assert [answer][..0] == [];
    match phase
    case Choosing(goal) =>
      if answer.ConfigIs? {
        assert s.configs[|s.configs| - 1] == answer.config;
      }
    case Registering(goal, version, first) =>
      if answer == PutIs(OK) {
        assert s.configs[version + 1] == goal;
      }
    case _ =>
  }

  lemma NothingFirst(phase: Phase, answer: Answer, answers: seq<Answer>)
    requires NothingToDo(Answered(phase, answer), answers)
    ensures NothingToDo(phase, [answer] + answers)
  {
  }

  lemma MisledFirst(phase: Phase, answer: Answer, answers: seq<Answer>)
    requires |answers| > 0 && Misled(Answered(phase, answer), answers)
    ensures Misled(phase, [answer] + answers)
  {
    FollowFirst(phase, answer, answers[..|answers| - 1]);
    assert ([answer] + answers)[..|answers|] == [answer] + answers[..|answers| - 1];
  }

  /** After seeking has ended, nothing more is asked or told. */
  lemma {:induction false} NoMoreAnswers(s: System, phase: Phase, moves: seq<Move>)
    requires CanSeek(s, phase, moves) && !Seeking(phase)
    ensures AnswersIn(moves) == []
    decreases |moves|
  {
    if |moves| > 0 {
      NoMoreAnswers(After(s, moves[0].step), phase, moves[1..]);
    }
  }

  /**
   The search for a target, between any other steps: the system stays one that the protocol reaches, a controller that
   goes on to the shards does so for a registered target, unless it was misled by ErrMaybe, and one that gives up had
   nothing to do.
   */
  lemma {:induction false} SeekingRun(s: System, phase: Phase, moves: seq<Move>)
    requires Reachable(s) && CanSeek(s, phase, moves) && Sought(s, phase, false, false)
    ensures var s', answers := SystemSought(s, phase, moves), AnswersIn(moves);
            Reachable(s') && Sought(s', Follow(phase, answers), Misled(phase, answers), NothingToDo(phase, answers))
    decreases |moves|, 0
  {
    if |moves| > 0 {
      match moves[0]
      case World(step) =>
        ReachableOn(s, step);
        SoughtStays(s, step, phase, false, false);
        SeekingRun(After(s, step), phase, moves[1..]);
      case Asks => SeekingRun(s, phase, moves[1..]);
      case Told(answer) => ToldRun(s, phase, answer, moves[1..]);
    }
  }

  lemma {:induction false} ToldRun(s: System, phase: Phase, answer: Answer, moves: seq<Move>)
    requires Reachable(s) && Seeking(phase) && ToldTruly(s, phase, answer) && CanSeek(s, Answered(phase, answer), moves)
    ensures var s', answers := SystemSought(s, Answered(phase, answer), moves), [answer] + AnswersIn(moves);
            Reachable(s') && Sought(s', Follow(phase, answers), Misled(phase, answers), NothingToDo(phase, answers))
    decreases |moves|, 1
  {
    var next, answers := Answered(phase, answer), AnswersIn(moves);
    AnswerSought(s, phase, answer);
    FollowFirst(phase, answer, answers);
    if Seeking(next) {
      SeekingRun(s, next, moves);
      if |answers| > 0 && Misled(next, answers) {
        MisledFirst(phase, answer, answers);
      }
      if NothingToDo(next, answers) {
        NothingFirst(phase, answer, answers);
      }
    } else {
      NoMoreAnswers(s, next, moves);
      assert [answer] + answers == [answer];
      RestStays(s, next, moves, Misled(phase, [answer]), NothingToDo(phase, [answer]));
    }
  }

  lemma {:induction false} RestStays(s: System, phase: Phase, moves: seq<Move>, misled: bool, nothing: bool)
    requires Reachable(s) && CanSeek(s, phase, moves) && !Seeking(phase) && Sought(s, phase, misled, nothing)
    ensures Reachable(SystemSought(s, phase, moves)) && Sought(SystemSought(s, phase, moves), phase, misled, nothing)
    decreases |moves|
  {
    if |moves| > 0 {
      ReachableOn(s, moves[0].step);
      SoughtStays(s, moves[0].step, phase, misled, nothing);
      RestStays(After(s, moves[0].step), phase, moves[1..], misled, nothing);
    }
  }

  /**
   What a first registration that was answered ErrMaybe is worth: the controller's next phase is backed exactly if its
   configuration was registered, and while that target is the only one, exactly if "Pending" reads back as that.
   `ShardCollision` shows what happens otherwise.
   */
  lemma MaybeIsWorth(s: System, goal: Config)
    requires Reachable(s) && ToldTruly(s, Registering(goal, 0, true), PutIs(ErrMaybe)) && goal != s.configs[0]
    ensures var next := Answered(Registering(goal, 0, true), PutIs(ErrMaybe));
            && next == Looking(goal, 0)
            && ((exists j :: Knows(s, j, next)) <==> IsTarget(s, goal))
            && (|s.configs| == 2 ==> (IsTarget(s, goal) <==> Pending(s) == ConfigIs(goal, 1)))
  {
    if IsTarget(s, goal) {
      var j: nat :| j < |s.configs| && s.configs[j] == goal;
      assert Knows(s, j, Looking(goal, 0));
    }
    if Pending(s) == ConfigIs(goal, 1) {
      assert s.configs[1] == goal;
    }
  }

  // ---------------------------------------------------------------- the whole run

  /** The controller begins with a configuration to change to, or, when it starts, with whatever is pending. */
  predicate Begins(phase: Phase) {
    phase.Starting? || phase.Choosing?
  }

  lemma {:induction false} FollowThen(phase: Phase, answers: seq<Answer>, more: seq<Answer>)
    ensures Follow(phase, answers + more) == Follow(Follow(phase, answers), more)
    decreases |more|
  {
    if |more| == 0 {
      assert answers + more == answers;
    } else {
      assert (answers + more)[..|answers + more| - 1] == answers + more[..|more| - 1];
      FollowThen(phase, answers, more[..|more| - 1]);
    }
  }

  /**
   The whole of ChangeConfigTo and InitController, between any steps of groups, clients and other controllers, with true
   answers: the controller that finds a target, not misled, takes only steps of the protocol from then on, and when it
   ends, for whatever reason, that target has been published. `SeekingRun` says when it finds none.
   */
  lemma ChangeConfigRun(s: System, phase: Phase, seeking: seq<Move>, working: seq<Move>, j: nat)
    requires Reachable(s) && Begins(phase) && CanSeek(s, phase, seeking) && !Misled(phase, AnswersIn(seeking))
    requires Follow(phase, AnswersIn(seeking)).Looking?
    requires j < |SystemSought(s, phase, seeking).configs|
    requires SystemSought(s, phase, seeking).configs[j] == Follow(phase, AnswersIn(seeking)).goal
    requires CanRun(SystemSought(s, phase, seeking), j, Follow(phase, AnswersIn(seeking)), working)
    ensures var s' := SystemRun(SystemSought(s, phase, seeking), j, Follow(phase, AnswersIn(seeking)), working);
            var phase' := Follow(phase, AnswersIn(seeking) + AnswersIn(working));
            Reachable(s') && (phase'.Stopped? ==> s'.published >= j)
  {
    var chosen := Follow(phase, AnswersIn(seeking));
    SeekingRun(s, phase, seeking);
    TargetRun(SystemSought(s, phase, seeking), j, working);
    FollowThen(phase, AnswersIn(seeking), AnswersIn(working));
  }
}
