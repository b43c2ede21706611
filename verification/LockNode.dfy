/** The lock as the object it is, over a clerk whose answers are a script: it does what the protocol's clients do. */
module LockNode {
  import opened KvStore
  import opened KvHistory
  import opened LockProtocol

  /** One answer of the clerk: to a Get, or the return of a Put. */
  datatype Answer = Got(value: string, version: nat) | Returned

  /** The phase after a client's acts, if they are its program. */
  function Drive(id: string, phase: Phase, acts: seq<Act>): Option<Phase>
    decreases |acts|
  {
    if |acts| == 0 then Some(phase)
    else
      var before := Drive(id, phase, acts[..|acts| - 1]);
      if before.None? then None else Advance(id, before.value, acts[|acts| - 1])
  }

  /** The Puts a client sends along its acts: one on entering each phase that has a Put under way. */
  function PutsOf(name: string, id: string, phase: Phase, acts: seq<Act>): seq<Request>
    decreases |acts|
  {
    if |acts| == 0 then []
    else
      var sent, now := PutsOf(name, id, phase, acts[..|acts| - 1]), Drive(id, phase, acts);
      if now.Some? && UnderWay(name, id, now.value).Some? then sent + [UnderWay(name, id, now.value).value] else sent
  }

  /** The answers that the acts took from the clerk, in order. */
  function AnswersOf(acts: seq<Act>): seq<Answer>
    decreases |acts|
  {
    if |acts| == 0 then []
    else
      var before := AnswersOf(acts[..|acts| - 1]);
      match acts[|acts| - 1]
      case Read(value, version) => before + [Got(value, version)]
      case PutReturns => before + [Returned]
      case _ => before
  }

  lemma DriveOn(name: string, id: string, phase: Phase, acts: seq<Act>, act: Act)
    requires Drive(id, phase, acts).Some?
    ensures Drive(id, phase, acts + [act]) == Advance(id, Drive(id, phase, acts).value, act)
    ensures var now := Advance(id, Drive(id, phase, acts).value, act);
            PutsOf(name, id, phase, acts + [act]) ==
              PutsOf(name, id, phase, acts)
              + (if now.Some? && UnderWay(name, id, now.value).Some? then [UnderWay(name, id, now.value).value] else [])
    ensures AnswersOf(acts + [act]) ==
              AnswersOf(acts)
              + (match act case Read(value, version) => [Got(value, version)] case PutReturns => [Returned] case _ => [])
  {
    assert (acts + [act])[..|acts|] == acts;
  }

  /** The clerk will not answer what the phase waits for: the client stays there. */
  predicate Stuck(phase: Phase, answers: seq<Answer>) {
    if phase.Trying? || phase.Releasing? then answers == [] || !answers[0].Got?
    else (phase.Making? || phase.Taking? || phase.Giving?) && (answers == [] || !answers[0].Returned?)
  }

  class Lock {
    const id: string
    const lockname: string
    ghost const script: seq<Answer>
    var answers: seq<Answer>
    var acts: seq<Act>
    var puts: seq<Request>

    /**
     The client is at this point of its program. What it read and what returned are the clerk's answers so far, in
     order, and the Puts it sent are those of the phases it went through.
     */
    ghost predicate InPhase(phase: Phase)
      reads this
    {
      && Drive(id, Unmade, acts) == Some(phase)
      && AnswersOf(acts) + answers == script
      && puts == PutsOf(lockname, id, Unmade, acts)
    }

    /** An act that takes no answer. */
    method Do(act: Act, ghost phase: Phase)
      requires InPhase(phase) && Advance(id, phase, act).Some? && !act.Read? && !act.PutReturns?
      requires UnderWay(lockname, id, Advance(id, phase, act).value).None?
      modifies `acts
      ensures InPhase(Advance(id, phase, act).value) && acts == old(acts) + [act]
    {
      DriveOn(lockname, id, Unmade, acts, act);
      acts := acts + [act];
    }

    method Get(ghost phase: Phase) returns (ok: bool, value: string, version: nat)
      requires InPhase(phase) && (phase.Trying? || phase.Releasing?)
      modifies `answers, `acts
      ensures ok ==> |old(answers)| > 0 && old(answers) == [Got(value, version)] + answers
      ensures ok ==> InPhase(Advance(id, phase, Read(value, version)).value) && acts == old(acts) + [Read(value, version)]
      ensures !ok ==> InPhase(phase) && Stuck(phase, answers) && answers == old(answers)
    {
      if |answers| == 0 || !answers[0].Got? {
        return false, "", 0;
      }
      ok, value, version := true, answers[0].value, answers[0].version;
      DriveOn(lockname, id, Unmade, acts, Read(value, version));
      acts := acts + [Read(value, version)];
      assert answers == [answers[0]] + answers[1..];
      answers := answers[1..];
    }

    /** The act that leads to this Put, the sending of it, and its return. */
    method Put(act: Act, key: string, value: string, version: nat, ghost phase: Phase) returns (ok: bool)
      requires InPhase(phase) && Advance(id, phase, act).Some? && !act.Read? && !act.PutReturns?
      requires UnderWay(lockname, id, Advance(id, phase, act).value) == Some(KvStore.Put(key, value, version))
      modifies `answers, `puts, `acts
      ensures var waiting := Advance(id, phase, act).value;
              if ok then Advance(id, waiting, PutReturns).Some? && InPhase(Advance(id, waiting, PutReturns).value)
              else InPhase(waiting) && Stuck(waiting, answers)
      ensures puts == old(puts) + [KvStore.Put(key, value, version)]
      ensures if ok then |old(answers)| > 0 && old(answers) == [Returned] + answers else answers == old(answers)
    {
      DriveOn(lockname, id, Unmade, acts, act);
      acts := acts + [act];
      puts := puts + [KvStore.Put(key, value, version)];
      if |answers| == 0 || !answers[0].Returned? {
        return false;
      }
      DriveOn(lockname, id, Unmade, acts, PutReturns);
      acts := acts + [PutReturns];
      assert answers == [answers[0]] + answers[1..];
      answers := answers[1..];
      return true;
    }

    /** MakeLock, up to where the script ends. */
    constructor (lockname: string, id: string, script: seq<Answer>)
      ensures this.lockname == lockname && this.id == id && this.script == script
      ensures InPhase(Free) || (InPhase(Making) && Stuck(Making, answers))
    {
      this.lockname, this.id, this.script := lockname, id, script;
      answers, acts, puts := script, [], [];
      new;
      var ok := Put(CallMake, lockname, "", 0, Unmade);
    }

    /**
     One round of Acquire's loop, after reading anything but its own identity: it tries to take the lock exactly if that is
     free, at the version it read, and reads again once that has returned.
     */
    method Round(value: string, version: nat) returns (ok: bool, next: string, nextVersion: nat)
      requires InPhase(Tried(value, version)) && value != id
      modifies this
      ensures ok ==> InPhase(Tried(next, nextVersion)) && |acts| >= 1 && acts[|acts| - 1] == Read(next, nextVersion)
      ensures ok ==> old(answers) == (if value == "" then [Returned] else []) + [Got(next, nextVersion)] + answers
      ensures !ok ==> exists phase :: InPhase(phase) && Stuck(phase, answers) && (phase.Trying? || phase.Taking?)
      ensures puts == old(puts) + if value == "" then [KvStore.Put(lockname, id, version)] else []
    {
      if value == "" {
        ok := Put(Decide, lockname, id, version, Tried(value, version));
        if !ok {
          return false, "", 0;
        }
      } else {
        Do(Decide, Tried(value, version));
      }
      ok, next, nextVersion := Get(Trying);
    }

    /**
     Acquire follows the client's program until it reads its own identity and so holds the lock, or until the clerk no
     longer answers.
     */
    method Acquire() returns (acquired: bool)
      requires InPhase(Free)
      modifies this
      ensures acquired ==> InPhase(Holding) && |acts| >= 2 && acts[|acts| - 2].Read? && acts[|acts| - 2].value == id
      ensures !acquired ==> exists phase :: InPhase(phase) && Stuck(phase, answers) && (phase.Trying? || phase.Taking?)
    {
      Do(CallAcquire, Free);
      var ok, value, version := Get(Trying);
      while ok
        invariant ok ==> InPhase(Tried(value, version)) && |acts| >= 1 && acts[|acts| - 1] == Read(value, version)
        invariant !ok ==> exists phase :: InPhase(phase) && Stuck(phase, answers) && (phase.Trying? || phase.Taking?)
        decreases ok, |answers|
      {
        if value == id {
          Do(Decide, Tried(value, version));
          return true;
        }
        ok, value, version := Round(value, version);
      }
      return false;
    }

    /** Release reads once, and gives the lock up, at the version it read, exactly if it read its own identity. */
    method Release(ghost held: bool) returns (released: bool)
      requires InPhase(if held then Holding else Free)
      modifies this
      ensures released ==> InPhase(Free)
      ensures !released ==> exists phase :: InPhase(phase) && Stuck(phase, answers) && (phase.Releasing? || phase.Giving?)
      ensures puts == old(puts) + if |old(answers)| > 0 && Reads(old(answers)[0], id)
                                  then [KvStore.Put(lockname, "", old(answers)[0].version)] else []
    {
      Do(CallRelease, if held then Holding else Free);
      var ok, value, version := Get(Releasing(held));
      if !ok {
        return false;
      }
      if value == id {
        released := Put(Decide, lockname, "", version, Released(held, value, version));
      } else {
        Do(Decide, Released(held, value, version));
        released := true;
      }
    }
  }

  /** The answer is a read of this value. */
  predicate Reads(answer: Answer, value: string) {
    answer.Got? && answer.value == value
  }

  // ---------------------------------------------------------------- the object's acts are the protocol's

  /** What the clerk answered for this act is so: a Get saw the store, a Put returns once a copy was handled. */
  ghost predicate AnsweredTruly(s: System, p: nat, act: Act)
    requires p < |s.ids| && p < |s.phases|
  {
    match act
    case Read(value, version) => value == Value(s.store, s.name) && version == Version(s.store, s.name)
    case PutReturns =>
      UnderWay(s.name, s.ids[p], s.phases[p]).Some? && UnderWay(s.name, s.ids[p], s.phases[p]).value in s.handled
    case _ => true
  }

  /** Client p of the system stands where a lock object with these acts stands, and has sent what that one sent. */
  ghost predicate StandsFor(s: System, p: nat, acts: seq<Act>) {
    && p < |s.ids| && p < |s.phases| && Drive(s.ids[p], Unmade, acts) == Some(s.phases[p])
    && forall put :: put in PutsOf(s.name, s.ids[p], Unmade, acts) ==> put in s.net
  }

  /** The object's next act is a step of the protocol whenever its answer, if it took one, was true. */
  lemma NextActIsStep(s: System, p: nat, acts: seq<Act>, act: Act)
    requires Shaped(s) && StandsFor(s, p, acts)
    requires Drive(s.ids[p], Unmade, acts + [act]).Some? && AnsweredTruly(s, p, act)
    ensures CanStep(s, Client(p, act)) && StandsFor(After(s, Client(p, act)), p, acts + [act])
  {
    DriveOn(s.name, s.ids[p], Unmade, acts, act);
  }

  /** The acts of client p in a run. */
  function ActsOf(steps: seq<Step>, p: nat): seq<Act>
    decreases |steps|
  {
    if |steps| == 0 then []
    else
      var before := ActsOf(steps[..|steps| - 1], p);
      match steps[|steps| - 1]
      case Client(q, act) => if q == p then before + [act] else before
      case _ => before
  }

  lemma {:induction false} TraceSplit(s: System, steps: seq<Step>, step: Step)
    requires Legal(s, steps + [step])
    ensures Legal(s, steps) && CanStep(Trace(s, steps), step)
    ensures Trace(s, steps + [step]) == After(Trace(s, steps), step)
    decreases |steps|
  {
    if |steps| == 0 {
      assert [] + [step] == [step];
      assert [step][1..] == [];
    } else {
      assert (steps + [step])[1..] == steps[1..] + [step];
      TraceSplit(After(s, steps[0]), steps[1..], step);
    }
  }

  lemma StepKeepsOthers(s: System, step: Step, p: nat, acts: seq<Act>)
    requires CanStep(s, step) && StandsFor(s, p, acts) && !(step.Client? && step.p == p)
    ensures StandsFor(After(s, step), p, acts)
  {
  }

  /** In every run, what client p did is what a lock object does: its acts drive the program, and its Puts are on the way. */
  lemma {:induction false} RunsStandFor(s: System, steps: seq<Step>, p: nat)
    requires Boot(s) && Legal(s, steps) && p < |s.ids|
    ensures StandsFor(Trace(s, steps), p, ActsOf(steps, p))
    decreases |steps|
  {
    if |steps| > 0 {
      var init, step := steps[..|steps| - 1], steps[|steps| - 1];
      assert steps == init + [step];
      TraceSplit(s, init, step);
      RunsStandFor(s, init, p);
      var before := Trace(s, init);
      if step.Client? && step.p == p {
        DriveOn(before.name, before.ids[p], Unmade, ActsOf(init, p), step.act);
        NextActIsStep(before, p, ActsOf(init, p), step.act);
      } else {
        StepKeepsOthers(before, step, p, ActsOf(init, p));
      }
    }
  }
}
