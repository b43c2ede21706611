/** Nobody is locked out: what a client that is left alone for a few steps can do, from every reachable state. */
module LockProgress {
  import opened KvStore
  import opened KvHistory
  import opened LockProtocol

  ghost predicate Leads(s: System, steps: seq<Step>, s': System) {
    Legal(s, steps) && Trace(s, steps) == s'
  }

  lemma LeadsNowhere(s: System)
    ensures Leads(s, [], s)
  {
  }

  lemma LeadsFirst(s: System, step: Step, rest: seq<Step>, s': System)
    requires CanStep(s, step) && Leads(After(s, step), rest, s')
    ensures Leads(s, [step] + rest, s')
  {
    assert ([step] + rest)[1..] == rest;
  }

  lemma LeadsAt(s: System, steps: seq<Step>, k: nat, s': System)
    requires k < |steps| && CanStep(s, steps[k]) && Leads(After(s, steps[k]), steps[k + 1..], s')
    ensures Leads(s, steps[k..], s')
  {
    assert steps[k..] == [steps[k]] + steps[k + 1..];
    LeadsFirst(s, steps[k], steps[k + 1..], s');
  }

  /** A Put of this client arrives while the key is as it was read: it is written, and the version moves on by one. */
  lemma Written(store: Store, name: string, value: string)
    ensures var store' := Apply(store, Put(name, value, Version(store, name)));
            Version(store', name) == Version(store, name) + 1 && Value(store', name) == value
  {
  }

  lemma {:induction false} LeadsThen(s: System, first: seq<Step>, m: System, second: seq<Step>, s': System)
    requires Leads(s, first, m) && Leads(m, second, s')
    ensures Leads(s, first + second, s')
    decreases |first|
  {
    if |first| == 0 {
      assert first + second == second;
    } else {
      LeadsThen(After(s, first[0]), first[1..], m, second, s');
      LeadsFirst(s, first[0], first[1..] + second, s');
      assert first + second == [first[0]] + (first[1..] + second);
    }
  }

  /** The client reads what the key holds. */
  lemma ReadsKey(s: System, p: nat)
    requires Shaped(s) && p < |s.ids| && (s.phases[p].Trying? || s.phases[p].Releasing?)
    ensures var step := Client(p, Read(Value(s.store, s.name), Version(s.store, s.name)));
            CanStep(s, step) && After(s, step) == s.(phases := s.phases[p := Advance(s.ids[p], s.phases[p], step.act).value])
  {
  }

  /** The client sends a Put at the current version, it is handled, and it returns: three steps. */
  lemma PutGoesThrough(s: System, p: nat, put: Request, waiting: Phase, after: Phase) returns (steps: seq<Step>, s': System)
    requires Shaped(s) && p < |s.ids| && Advance(s.ids[p], s.phases[p], Decide) == Some(waiting)
    requires UnderWay(s.name, s.ids[p], waiting) == Some(put) && Advance(s.ids[p], waiting, PutReturns) == Some(after)
    requires UnderWay(s.name, s.ids[p], after).None?
    requires put.Put? && put.key == s.name && put.version == Version(s.store, s.name)
    ensures Leads(s, steps, s') && Shaped(s') && s'.ids == s.ids && s'.name == s.name && s'.phases == s.phases[p := after]
    ensures Value(s'.store, s.name) == put.value
  {
    steps := [Client(p, Decide), Deliver(put), Client(p, PutReturns)];
    var s1 := After(s, steps[0]);
    assert s1.phases == s.phases[p := waiting] && put in s1.net;
    var s2 := After(s1, steps[1]);
    Written(s.store, s.name, put.value);
    s' := After(s2, steps[2]);
    assert steps[3..] == [] && steps[0..] == steps;
    LeadsNowhere(s');
    LeadsAt(s2, steps, 2, s');
    LeadsAt(s1, steps, 1, s');
    LeadsAt(s, steps, 0, s');
  }

  /** A client that is trying takes a free lock. */
  lemma TakesFree(s: System, p: nat) returns (steps: seq<Step>, s': System)
    requires Shaped(s) && p < |s.ids| && s.phases[p] == Trying && Value(s.store, s.name) == ""
    ensures Leads(s, steps, s') && Shaped(s') && s'.ids == s.ids && s'.name == s.name && s'.phases == s.phases[p := Trying]
    ensures Value(s'.store, s.name) == s.ids[p]
  {
    var v := Version(s.store, s.name);
    ReadsKey(s, p);
    var first := Client(p, Read("", v));
    var rest;
    rest, s' := PutGoesThrough(After(s, first), p, Put(s.name, s.ids[p], v), Taking(v), Trying);
    LeadsFirst(s, first, rest, s');
    steps := [first] + rest;
  }

  /** A client that is trying and finds its own identity holds the lock. */
  lemma FindsItself(s: System, p: nat) returns (steps: seq<Step>, s': System)
    requires Shaped(s) && p < |s.ids| && s.phases[p] == Trying && Value(s.store, s.name) == s.ids[p]
    ensures Leads(s, steps, s') && s'.phases == s.phases[p := Holding]
  {
    ReadsKey(s, p);
    var first := Client(p, Read(s.ids[p], Version(s.store, s.name)));
    var read := After(s, first);
    s' := After(read, Client(p, Decide));
    LeadsNowhere(s');
    LeadsFirst(read, Client(p, Decide), [], s');
    LeadsFirst(s, first, [Client(p, Decide)] + [], s');
    steps := [first] + ([Client(p, Decide)] + []);
  }

  /**
   From every reachable state in which the lock is free, a client that is trying and is left alone gets it: it reads the
   empty value, its Put is handled, and it reads its own identity.
   */
  lemma FreeCanBeTaken(s: System, p: nat) returns (steps: seq<Step>)
    requires Reachable(s) && p < |s.ids| && p < |s.phases| && s.phases[p] == Trying && Value(s.store, s.name) == ""
    ensures Legal(s, steps) && p < |Trace(s, steps).phases| && Trace(s, steps).phases[p] == Holding
  {
    ReachableInv(s);
    var first, m := TakesFree(s, p);
    var second, s' := FindsItself(m, p);
    LeadsThen(s, first, m, second, s');
    steps := first + second;
  }

  /** From every reachable state in which a client holds the lock, it can give it up, and the lock is free. */
  lemma HeldCanBeReleased(s: System, p: nat) returns (steps: seq<Step>)
    requires Reachable(s) && p < |s.ids| && p < |s.phases| && s.phases[p] == Holding
    ensures Legal(s, steps) && p < |Trace(s, steps).phases| && Trace(s, steps).phases[p] == Free
    ensures Trace(s, steps).name == s.name && Value(Trace(s, steps).store, s.name) == ""
  {
    ReachableInv(s);
    assert PhaseOk(s.ids[p], s.phases[p], Value(s.store, s.name), Version(s.store, s.name));
    var s';
    steps, s' := GivesUp(s, p);
  }

  lemma GivesUp(s: System, p: nat) returns (steps: seq<Step>, s': System)
    requires Shaped(s) && p < |s.ids| && s.phases[p] == Holding && Value(s.store, s.name) == s.ids[p]
    ensures Leads(s, steps, s') && s'.name == s.name && s'.phases == s.phases[p := Free] && Value(s'.store, s.name) == ""
  {
    var v := Version(s.store, s.name);
    var called := After(s, Client(p, CallRelease));
    ReadsKey(called, p);
    var read := After(called, Client(p, Read(s.ids[p], v)));
    var rest;
    rest, s' := PutGoesThrough(read, p, Put(s.name, "", v), Giving(v), Free);
    LeadsFirst(called, Client(p, Read(s.ids[p], v)), rest, s');
    LeadsFirst(s, Client(p, CallRelease), [Client(p, Read(s.ids[p], v))] + rest, s');
    steps := [Client(p, CallRelease)] + ([Client(p, Read(s.ids[p], v))] + rest);
  }
}
