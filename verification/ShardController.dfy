/** The controller as the object it is, over scripted answers; when the script ends it has crashed. See `ShardBridge`. */
module ShardController {
  import opened KvStore
  import opened ShardTypes
  import opened ShardSystem
  import opened ShardProgram
  import opened ShardRuns
  import Clerks

  /** The servers of a group; there is at least one. */
  type Servers = n: nat | n > 0 witness 1

  class ShardCtrler {
    ghost const start: Phase
    ghost const script: seq<Answer>
    const servers: nat -> Servers
    /** The server that each group's clerk tries first. */
    var leader: map<nat, nat>
    var inputs: seq<Answer>
    var trace: seq<Exchange>

    constructor (inputs: seq<Answer>, servers: nat -> Servers, ghost start: Phase)
      ensures this.start == start && script == inputs == this.inputs && InPhase(start) && trace == [] && leader == map[] && Led()
    {
      this.start, this.script, this.inputs, this.servers, trace, leader := start, inputs, inputs, servers, [], map[];
      new;
      assert AnswersOf(trace) == [];
    }

    /**
     The controller has asked what its program asks, has had the answers of the script so far, in order, and is where
     these lead.
     */
    ghost predicate InPhase(phase: Phase)
      reads `inputs, `trace
    {
      && Follows(start, trace) && AnswersOf(trace) + inputs == script
      && phase == Follow(start, AnswersOf(trace))
    }

    ghost predicate Led()
      reads `leader
    {
      forall g :: g in leader ==> leader[g] < servers(g)
    }

    /** The server of group g that is tried first. */
    function LeaderOf(g: nat): nat
      reads `leader
    {
      if g in leader then leader[g] else 0
    }

    /** Nothing is left of the script although the program goes on: the controller crashed. */
    ghost predicate Crashed()
      reads `inputs, `trace
    {
      inputs == [] && InPhase(Follow(start, AnswersOf(trace))) && !Follow(start, AnswersOf(trace)).Stopped?
    }

    /** Ask, and wait for the answer; None stands for a crash meanwhile. */
    method Exchange(question: Question, ghost phase: Phase) returns (answer: Option<Answer>)
      requires InPhase(phase) && Next(phase) == Some(question)
      modifies `inputs, `trace
      ensures answer.None? ==> InPhase(phase) && Crashed() && trace == old(trace)
      ensures answer.Some? ==> InPhase(Answered(phase, answer.value)) && |inputs| < |old(inputs)|
      ensures answer.Some? ==> trace == old(trace) + [ShardProgram.Exchange(question, answer.value)]
    {
      if |inputs| == 0 {
        return None;
      }
      ghost var next := ShardProgram.Exchange(question, inputs[0]);
      FollowOn(start, trace, next);
      TakeOne(AnswersOf(trace), inputs);
      answer := Some(inputs[0]);
      trace := trace + [ShardProgram.Exchange(question, inputs[0])];
      inputs := inputs[1..];
    }

    /** The current configuration, or None when the controller crashes while asking. */
    method Query(ghost phase: Phase) returns (config: Option<Config>)
      requires InPhase(phase) && Next(phase) == Some(GetCurrent)
      modifies `inputs, `trace
      ensures config.None? ==> InPhase(phase) && Crashed() && trace == old(trace)
      ensures config.Some? ==> |inputs| < |old(inputs)| && exists answer ::
        config.value == Current(answer) && InPhase(Answered(phase, answer))
        && trace == old(trace) + [ShardProgram.Exchange(GetCurrent, answer)]
    {
      var answer := Exchange(GetCurrent, phase);
      if answer.None? {
        return None;
      }
      if answer.value.ConfigIs? {
        return Some(answer.value.config);
      }
      return Some(Config(0, seq(NSHARDS, _ => 0)));
    }

    /** One attempt of a request, unless the goal has been published meanwhile. */
    method Attempt(goal: Config, x: nat, ghost current: Config, stage: Stage, to: nat, ghost n: nat) returns (answer: Option<Answer>)
      requires n <= |trace| && InPhase(Checking(goal, x, current, stage)) && to == Recipient(goal, x, current, stage)
      modifies `inputs, `trace
      ensures old(trace) <= trace && |inputs| <= |old(inputs)|
      ensures answer.None? ==> Crashed() || InPhase(Stopped(Some(goal), false))
      ensures answer.None? ==> Concluded(trace, n, stage) ==> Concluded(old(trace), n, stage)
      ensures answer.Some? ==> |inputs| < |old(inputs)| && (Concluded(trace, n, stage) <==> Conclusive(answer.value, stage))
      ensures answer.Some? ==>
        InPhase(AfterAttempt(goal, x, current, stage, answer.value))
      ensures answer.Some? ==>
        && |trace| > |old(trace)| && trace[|trace| - 1] == ShardProgram.Exchange(Send(to, RequestOf(goal, x, stage)), answer.value)
        && Sends(trace, n) == Sends(old(trace), n) + 1
    {
      ghost var before := trace;
      var latest := Query(Checking(goal, x, current, stage));
      ghost var looked := trace;
      if latest.None? || latest.value.num >= goal.num {
        return None;
      }
      answer := Exchange(Send(to, RequestOf(goal, x, stage)), Asking(goal, x, current, stage));
      if answer.Some? {
        SendsOn(before, looked[|before|], n);
        SendsOn(looked, trace[|looked|], n);
        AttemptLeads(goal, x, current, stage, answer.value);
      }
    }

    /**
     The clerk's retry loop, up to an answer OK or ErrStale, or the goal being published. It starts at server `first` of n,
     and every attempt without such an answer moves on to the next server; `index` is the one that gave the answer.
     */
    method Repeat(goal: Config, x: nat, ghost current: Config, stage: Stage, to: nat, first: nat, n: nat)
      returns (reply: Option<ShardReply>, index: nat, ghost misses: nat)
      requires InPhase(Checking(goal, x, current, stage)) && to == Recipient(goal, x, current, stage) && first < n
      modifies `inputs, `trace
      ensures |inputs| <= |old(inputs)| && old(trace) <= trace && index == Clerks.Hops(n, first, misses)
      ensures reply.None? ==> Crashed() || InPhase(Stopped(Some(goal), false))
      ensures reply.None? ==> !Concluded(trace, |old(trace)|, stage)
      ensures reply.Some? ==> Concluded(trace, |old(trace)|, stage) && Conclusive(ReplyIs(reply.value), stage)
      ensures reply.Some? ==>
        trace[|trace| - 1] == ShardProgram.Exchange(Send(to, RequestOf(goal, x, stage)), ReplyIs(reply.value))
      ensures reply.Some? ==> InPhase(Onward(goal, x, current, stage, reply.value))
      ensures reply.Some? ==> misses == Misses(trace, |old(trace)|)
    {
      index, misses := first, 0;
      while true
        invariant InPhase(Checking(goal, x, current, stage)) && |inputs| <= |old(inputs)|
        invariant old(trace) <= trace && !Concluded(trace, |old(trace)|, stage)
        invariant index == Clerks.Hops(n, first, misses) && misses == Sends(trace, |old(trace)|)
        decreases |inputs|
      {
        var answer := Attempt(goal, x, current, stage, to, |old(trace)|);
        if answer.None? {
          return None, index, misses;
        }
        if Conclusive(answer.value, stage) {
          return Some(answer.value.reply), index, misses;
        }
        index := Clerks.NextServer(n, index);
        misses := misses + 1;
      }
    }

    /** A request to a group: its clerk's loop, after which the server that answered is the one tried first. */
    method Request(goal: Config, x: nat, ghost current: Config, stage: Stage, to: nat) returns (reply: Option<ShardReply>)
      requires InPhase(Checking(goal, x, current, stage)) && to == Recipient(goal, x, current, stage) && Led()
      modifies this
      ensures |inputs| <= |old(inputs)| && Led() && old(trace) <= trace
      ensures reply.None? ==> Crashed() || InPhase(Stopped(Some(goal), false))
      ensures reply.Some? ==>
        Matches(stage, reply.value) && reply.value.err == OK && InPhase(Advanced(goal, x, current, stage, reply.value))
      ensures reply.Some? ==> Concluded(trace, |old(trace)|, stage)
      ensures reply.Some? ==>
        trace[|trace| - 1] == ShardProgram.Exchange(Send(to, RequestOf(goal, x, stage)), ReplyIs(reply.value))
      ensures leader == if Concluded(trace, |old(trace)|, stage)
                        then old(leader)[to := Clerks.Hops(servers(to), old(LeaderOf(to)), Misses(trace, |old(trace)|))]
                        else old(leader)
    {
      var index;
      ghost var misses;
      reply, index, misses := Repeat(goal, x, current, stage, to, LeaderOf(to), servers(to));
      if reply.Some? {
        leader := leader[to := index];
        if reply.value.err == ErrStale {
          return None;
        }
      }
    }

    /** The loop body for a shard that changes hands: freeze, install, delete. */
    method MoveShard(goal: Config, x: nat, current: Config) returns (ok: bool)
      requires OwnerIn(goal, x) != OwnerIn(current, x) && InPhase(Begin(goal, x, current)) && Led()
      modifies this
      ensures |inputs| <= |old(inputs)| && Led()
      ensures if ok then InPhase(AtShard(goal, x + 1)) else Crashed() || InPhase(Stopped(Some(goal), false))
    {
      var oldg, newg := OwnerIn(current, x), OwnerIn(goal, x);
      var state: Option<Store> := None;
      if oldg != 0 {
        var reply := Request(goal, x, current, Freezing, oldg);
        if reply.None? {
          return false;
        }
        state := reply.value.state;
      }
      if newg != 0 {
        var reply := Request(goal, x, current, Installing(state), newg);
        if reply.None? {
          return false;
        }
      }
      if oldg != 0 {
        var reply := Request(goal, x, current, Deleting, oldg);
        if reply.None? {
          return false;
        }
      }
      return true;
    }

    /** The loop over the shards. */
    method MoveShards(goal: Config) returns (ok: bool)
      requires InPhase(Looking(goal, 0)) && Led()
      modifies this
      ensures Led()
      ensures if ok then InPhase(Finishing(goal)) else Crashed() || InPhase(Stopped(Some(goal), false))
    {
      var x := 0;
      while x < NSHARDS
        invariant 0 <= x <= NSHARDS && InPhase(AtShard(goal, x)) && Led()
      {
        var current := Query(Looking(goal, x));
        if current.None? || current.value.num >= goal.num {
          return false;
        }
        if OwnerIn(goal, x) != OwnerIn(current.value, x) {
          var moved := MoveShard(goal, x, current.value);
          if !moved {
            return false;
          }
        }
        x := x + 1;
      }
      return true;
    }

    /** The last loop: swap the register to the goal unless something at least as new is there. */
    method PublishConfig(goal: Config) returns (done: bool)
      requires InPhase(Finishing(goal))
      modifies `inputs, `trace
      ensures InPhase(Stopped(Some(goal), done)) || (Crashed() && !done)
    {
      while true
        invariant InPhase(Finishing(goal))
        decreases |inputs|
      {
        var answer := Exchange(GetCurrent, Finishing(goal));
        if answer.None? || !answer.value.ConfigIs? {
          return false;
        }
        var config, version := answer.value.config, answer.value.version;
        if goal.num <= config.num {
          return true;
        }
        answer := Exchange(PutCurrent(goal, version), Publishing(goal, version));
        if answer.None? {
          return false;
        }
        if answer.value == PutIs(OK) {
          return true;
        }
        if answer.value != PutIs(ErrVersion) && answer.value != PutIs(ErrMaybe) {
          return false;
        }
      }
    }

    /** Register the target, or take over the one that is pending. */
    method ChooseTarget(goal: Config) returns (target: Option<Config>)
      requires InPhase(Choosing(goal))
      modifies `inputs, `trace
      ensures target.Some? ==> InPhase(Looking(target.value, 0))
      ensures target.None? ==> Crashed() || InPhase(Stopped(None, false))
    {
      while true
        invariant InPhase(Choosing(goal))
        decreases |inputs|
      {
        var answer := Exchange(GetPending, Choosing(goal));
        if answer.None? {
          return None;
        }
        if answer.value.Missing? {
          answer := Exchange(PutPending(goal, 0), Registering(goal, 0, true));
          if answer.None? {
            return None;
          }
          if answer.value == PutIs(OK) || answer.value == PutIs(ErrMaybe) {
            return Some(goal);
          }
          if answer.value != PutIs(ErrVersion) {
            return None;
          }
        } else if answer.value.ConfigIs? {
          var cur, version := answer.value.config, answer.value.version;
          if cur.num >= goal.num {
            return Some(cur);
          }
          answer := Exchange(PutPending(goal, version), Registering(goal, version, false));
          if answer.None? {
            return None;
          }
          if answer.value == PutIs(OK) {
            return Some(goal);
          }
          if answer.value != PutIs(ErrVersion) && answer.value != PutIs(ErrMaybe) {
            return None;
          }
        } else {
          return None;
        }
      }
    }

    /** The program from its choice of a target to its end, or to where the script ends. */
    method ChangeConfigTo(goal: Config) returns (done: bool)
      requires InPhase(Choosing(goal)) && Led()
      modifies this
      ensures Led()
      ensures Crashed() || exists target :: InPhase(Stopped(target, done))
      ensures Crashed() ==> !done
    {
      done := false;
      var target := ChooseTarget(goal);
      if target.None? {
        return;
      }
      var moved := MoveShards(target.value);
      if moved {
        done := PublishConfig(target.value);
      }
    }

    /** A controller that starts takes up what is pending, unless something newer is current. */
    method InitController() returns (done: bool)
      requires InPhase(Starting) && Led()
      modifies this
      ensures Led() && Recovers(script, trace, done)
      ensures Crashed() || exists target :: InPhase(Stopped(target, done))
      ensures Crashed() ==> !done
    {
      StartingIsFirst(start, AnswersOf(trace));
      done := Recover();
      RecoversByProgram(script, trace, inputs, done);
    }

    method Recover() returns (done: bool)
      requires InPhase(Starting) && Led()
      modifies this
      ensures Led()
      ensures Crashed() || exists target :: InPhase(Stopped(target, done))
      ensures Crashed() ==> !done
    {
      done := false;
      var answer := Exchange(GetPending, Starting);
      if answer.None? || !answer.value.ConfigIs? {
        return;
      }
      var pending := answer.value.config;
      var current := Query(Recovering(pending));
      if current.Some? && pending.num >= current.value.num {
        done := ChangeConfigTo(pending);
      }
    }
  }

  /** No answer leads back to the start. */
  lemma StartingIsFirst(phase: Phase, answers: seq<Answer>)
    requires Follow(phase, answers) == Starting
    ensures phase == Starting && answers == []
  {
  }

  /** How many requests were sent since exchange n. */
  function Sends(trace: seq<Exchange>, n: nat): nat
    decreases |trace|
  {
    if |trace| <= n then 0
    else Sends(trace[..|trace| - 1], n) + if trace[|trace| - 1].question.Send? then 1 else 0
  }

  /** All but the last of them. */
  function Misses(trace: seq<Exchange>, n: nat): nat {
    if Sends(trace, n) == 0 then 0 else Sends(trace, n) - 1
  }

  lemma SendsOn(trace: seq<Exchange>, next: Exchange, n: nat)
    requires n <= |trace|
    ensures Sends(trace + [next], n) == Sends(trace, n) + if next.question.Send? then 1 else 0
  {
    assert (trace + [next])[..|trace|] == trace;
  }

  predicate Conclusive(answer: Answer, stage: Stage) {
    answer.ReplyIs? && Matches(stage, answer.reply) && answer.reply.err in {OK, ErrStale}
  }

  /** Where a conclusive answer leads. */
  function Onward(goal: Config, x: nat, current: Config, stage: Stage, reply: ShardReply): Phase
    requires Matches(stage, reply)
  {
    if reply.err == OK then Advanced(goal, x, current, stage, reply) else Stopped(Some(goal), false)
  }

  function AfterAttempt(goal: Config, x: nat, current: Config, stage: Stage, answer: Answer): Phase {
    if Conclusive(answer, stage) then Onward(goal, x, current, stage, answer.reply) else Checking(goal, x, current, stage)
  }

  lemma AttemptLeads(goal: Config, x: nat, current: Config, stage: Stage, answer: Answer)
    ensures Answered(Asking(goal, x, current, stage), answer) == AfterAttempt(goal, x, current, stage, answer)
  {
  }

  /** The last exchange is a request made since exchange n, and was answered conclusively. */
  ghost predicate Concluded(trace: seq<Exchange>, n: nat, stage: Stage) {
    |trace| > n && trace[|trace| - 1].question.Send? && Conclusive(trace[|trace| - 1].answer, stage)
  }

  lemma TakeOne<T>(taken: seq<T>, rest: seq<T>)
    requires |rest| > 0
    ensures taken + [rest[0]] + rest[1..] == taken + rest
  {
    assert rest == [rest[0]] + rest[1..];
  }
}
