/** A lock over one key of the versioned store, with any number of clients and any number of late copies of their Puts. */
module LockProtocol {
  import opened KvStore
  import opened KvHistory

  /** Where a client is. `held` remembers that the release follows an acquire. */
  datatype Phase =
    | Unmade
    | Making
    | Free
    | Trying
    | Tried(value: string, version: nat)
    | Taking(version: nat)
    | Holding
    | Releasing(held: bool)
    | Released(held: bool, value: string, version: nat)
    | Giving(version: nat)

  datatype Act =
    | CallMake
    | CallAcquire
    | CallRelease
    | Read(value: string, version: nat)
    | Decide
    | PutReturns

  /** The program of one client: MakeLock, then Acquire and Release in any order. */
  function Advance(id: string, phase: Phase, act: Act): Option<Phase> {
    match (phase, act)
    case (Unmade, CallMake) => Some(Making)
    case (Making, PutReturns) => Some(Free)
    case (Free, CallAcquire) => Some(Trying)
    case (Trying, Read(value, version)) => Some(Tried(value, version))
    case (Tried(value, version), Decide) => Some(if value == id then Holding else if value == "" then Taking(version) else Trying)
    case (Taking(_), PutReturns) => Some(Trying)
    case (Free, CallRelease) => Some(Releasing(false))
    case (Holding, CallRelease) => Some(Releasing(true))
    case (Releasing(held), Read(value, version)) => Some(Released(held, value, version))
    case (Released(_, value, version), Decide) => Some(if value == id then Giving(version) else Free)
    case (Giving(_), PutReturns) => Some(Free)
    case _ => None
  }

  /** The Put a client has under way in a phase. */
  function UnderWay(name: string, id: string, phase: Phase): Option<Request> {
    match phase
    case Making => Some(Put(name, "", 0))
    case Taking(version) => Some(Put(name, id, version))
    case Giving(version) => Some(Put(name, "", version))
    case _ => None
  }

  datatype System = System(name: string, ids: seq<string>, phases: seq<Phase>, store: Store, net: set<Request>, handled: set<Request>)

  datatype Step =
    | Client(p: nat, act: Act)
    | Deliver(put: Request)
    | Elsewhere(req: Request)

  function Value(store: Store, key: string): string {
    if key in store then store[key].value else ""
  }

  ghost predicate Shaped(s: System) {
    && |s.phases| == |s.ids|
    && (forall p :: 0 <= p < |s.ids| ==> s.ids[p] != "")
    && (forall p, q :: 0 <= p < q < |s.ids| ==> s.ids[p] != s.ids[q])
  }

  ghost predicate CanStep(s: System, step: Step) {
    && Shaped(s)
    && match step
       case Client(p, act) =>
         && p < |s.ids| && Advance(s.ids[p], s.phases[p], act).Some?
         && (act.Read? ==> act.value == Value(s.store, s.name) && act.version == Version(s.store, s.name))
         && (act.PutReturns? ==> UnderWay(s.name, s.ids[p], s.phases[p]).Some? && UnderWay(s.name, s.ids[p], s.phases[p]).value in s.handled)
       case Deliver(put) => put in s.net
       case Elsewhere(req) => req.key != s.name
  }

  ghost function After(s: System, step: Step): System
    requires CanStep(s, step)
  {
    match step
    case Client(p, act) =>
      var phase := Advance(s.ids[p], s.phases[p], act).value;
      var put := UnderWay(s.name, s.ids[p], phase);
      s.(phases := s.phases[p := phase], net := if put.Some? then s.net + {put.value} else s.net)
    case Deliver(put) => s.(store := Apply(s.store, put), handled := s.handled + {put})
    case Elsewhere(req) => s.(store := Apply(s.store, req))
  }

  ghost predicate Boot(s: System) {
    && Shaped(s) && s.name !in s.store && s.net == {} && s.handled == {}
    && forall p :: 0 <= p < |s.phases| ==> s.phases[p] == Unmade
  }

  ghost predicate Legal(s: System, steps: seq<Step>)
    decreases |steps|
  {
    |steps| > 0 ==> CanStep(s, steps[0]) && Legal(After(s, steps[0]), steps[1..])
  }

  ghost function Trace(s: System, steps: seq<Step>): System
    requires Legal(s, steps)
    decreases |steps|
  {
    if |steps| == 0 then s else Trace(After(s, steps[0]), steps[1..])
  }

  ghost predicate Reachable(s: System) {
    exists b, steps :: Boot(b) && Legal(b, steps) && Trace(b, steps) == s
  }

  // ---------------------------------------------------------------- the invariant

  /** The client owns the lock from the moment it reads its own identity until its release is sent. */
  predicate Owns(id: string, phase: Phase) {
    match phase
    case Tried(value, _) => value == id
    case Holding => true
    case Releasing(held) => held
    case Released(held, _, _) => held
    case _ => false
  }

  /** A phase in which the key does not hold the client's identity. */
  predicate Without(id: string, phase: Phase) {
    match phase
    case Unmade => true
    case Making => true
    case Free => true
    case Tried(value, _) => value != id
    case Releasing(held) => !held
    case Released(held, _, _) => !held
    case _ => false
  }

  /** A client's picture of the key: old, or exact; what it owns is its own. */
  predicate PhaseOk(id: string, phase: Phase, value: string, version: nat) {
    && (phase.Tried? || phase.Released? ==> phase.version <= version && (phase.version == version ==> phase.value == value))
    && (phase.Taking? ==> phase.version <= version)
    && (phase.Giving? ==> phase.version <= version && (value == id ==> phase.version == version))
    && (phase.Released? ==> if phase.held then phase.value == id && phase.version == version else phase.value != id)
    && (Owns(id, phase) ==> value == id)
    && (Without(id, phase) ==> value != id)
  }

  /** A Put that can still take effect was sent by a client that is still waiting for it. */
  ghost predicate PutOk(s: System, put: Request) {
    && put.Put? && put.key == s.name && put.version <= Version(s.store, s.name)
    && (put in s.handled ==> put.version < Version(s.store, s.name))
    && (put.version == Version(s.store, s.name) ==>
          exists p: nat :: p < |s.phases| && p < |s.ids| && Sender(s, put, p))
  }

  ghost predicate Sender(s: System, put: Request, p: nat)
    requires p < |s.phases| && p < |s.ids| && put.Put?
  {
    match s.phases[p]
    case Making => put.value == "" && put.version == 0 && Value(s.store, s.name) == ""
    case Taking(version) => put.value == s.ids[p] && version == put.version && Value(s.store, s.name) == ""
    case Giving(version) => put.value == "" && version == put.version && Value(s.store, s.name) == s.ids[p]
    case _ => false
  }

  ghost predicate Inv(s: System) {
    && Shaped(s) && s.handled <= s.net
    && (s.name in s.store <==> Version(s.store, s.name) > 0)
    && (forall p: nat {:trigger s.phases[p]} :: p < |s.phases| ==>
          PhaseOk(s.ids[p], s.phases[p], Value(s.store, s.name), Version(s.store, s.name)))
    && (forall put {:trigger PutOk(s, put)} :: put in s.net ==> PutOk(s, put))
    && (forall p: nat {:trigger s.phases[p]} :: p < |s.phases| ==>
          UnderWay(s.name, s.ids[p], s.phases[p]).Some? ==> UnderWay(s.name, s.ids[p], s.phases[p]).value in s.net)
  }

  // ---------------------------------------------------------------- every step

  lemma ClientPhases(s: System, p: nat, act: Act)
    requires Inv(s) && CanStep(s, Client(p, act))
    ensures PhaseOk(s.ids[p], After(s, Client(p, act)).phases[p], Value(s.store, s.name), Version(s.store, s.name))
  {
    var put := UnderWay(s.name, s.ids[p], s.phases[p]);
    if act.PutReturns? {
      assert PutOk(s, put.value);
    }
  }

  /** A Put that can still take effect keeps its sender: the sender is waiting, and cannot go on before it is handled. */
  lemma ClientPuts(s: System, p: nat, act: Act, put: Request)
    requires Inv(s) && CanStep(s, Client(p, act)) && put in s.net
    ensures PutOk(After(s, Client(p, act)), put)
  {
    assert PutOk(s, put);
    if put.version == Version(s.store, s.name) {
      var q: nat :| q < |s.phases| && q < |s.ids| && Sender(s, put, q);
      assert Sender(After(s, Client(p, act)), put, q);
    }
  }

  lemma ClientSends(s: System, p: nat, act: Act)
    requires Inv(s) && CanStep(s, Client(p, act))
    ensures var s' := After(s, Client(p, act));
            UnderWay(s.name, s.ids[p], s'.phases[p]).Some? ==> PutOk(s', UnderWay(s.name, s.ids[p], s'.phases[p]).value)
  {
    var s' := After(s, Client(p, act));
    var put := UnderWay(s.name, s.ids[p], s'.phases[p]);
    if put.Some? {
      if put.value in s.net {
        ClientPuts(s, p, act, put.value);
      } else if put.value.version == Version(s.store, s.name) {
        assert Sender(s', put.value, p);
      }
    }
  }

  lemma ClientStep(s: System, p: nat, act: Act)
    requires Inv(s) && CanStep(s, Client(p, act))
    ensures Inv(After(s, Client(p, act)))
  {
    var s' := After(s, Client(p, act));
    ClientPhases(s, p, act);
    ClientSends(s, p, act);
    forall put | put in s'.net
      ensures PutOk(s', put)
    {
      if put in s.net {
        ClientPuts(s, p, act, put);
      }
    }
    forall q: nat | q < |s'.phases|
      ensures PhaseOk(s'.ids[q], s'.phases[q], Value(s'.store, s.name), Version(s'.store, s.name))
      ensures UnderWay(s.name, s.ids[q], s'.phases[q]).Some? ==> UnderWay(s.name, s.ids[q], s'.phases[q]).value in s'.net
    {
      assert q != p ==> s'.phases[q] == s.phases[q];
    }
  }

  /** The one effect a live Put has: it takes a free lock for its sender, or frees its sender's lock. */
  lemma DeliveredPhases(s: System, put: Request, q: nat)
    requires Inv(s) && put in s.net && q < |s.phases|
    ensures var store := Apply(s.store, put);
            PhaseOk(s.ids[q], s.phases[q], Value(store, s.name), Version(store, s.name))
  {
    assert PutOk(s, put);
    if put.version == Version(s.store, s.name) {
      var p: nat :| p < |s.phases| && p < |s.ids| && Sender(s, put, p);
      assert PhaseOk(s.ids[p], s.phases[p], Value(s.store, s.name), Version(s.store, s.name));
      assert p != q ==> s.ids[p] != s.ids[q];
    }
  }

  lemma DeliverStep(s: System, put: Request)
    requires Inv(s) && CanStep(s, Deliver(put))
    ensures Inv(After(s, Deliver(put)))
  {
    var s' := After(s, Deliver(put));
    assert PutOk(s, put);
    forall q: nat | q < |s'.phases|
      ensures PhaseOk(s'.ids[q], s'.phases[q], Value(s'.store, s.name), Version(s'.store, s.name))
    {
      DeliveredPhases(s, put, q);
    }
    forall m | m in s'.net
      ensures PutOk(s', m)
    {
      assert PutOk(s, m);
      if put.version < Version(s.store, s.name) && m.version == Version(s.store, s.name) {
        var p: nat :| p < |s.phases| && p < |s.ids| && Sender(s, m, p);
        assert Sender(s', m, p);
      }
    }
  }

  lemma ElsewhereStep(s: System, req: Request)
    requires Inv(s) && CanStep(s, Elsewhere(req))
    ensures Inv(After(s, Elsewhere(req)))
  {
    var s' := After(s, Elsewhere(req));
    forall m | m in s'.net
      ensures PutOk(s', m)
    {
      assert PutOk(s, m);
      if m.version == Version(s.store, s.name) {
        var p: nat :| p < |s.phases| && p < |s.ids| && Sender(s, m, p);
        assert Sender(s', m, p);
      }
    }
  }

  lemma StepInv(s: System, step: Step)
    requires Inv(s) && CanStep(s, step)
    ensures Inv(After(s, step))
  {
    match step
    case Client(p, act) => ClientStep(s, p, act);
    case Deliver(put) => DeliverStep(s, put);
    case Elsewhere(req) => ElsewhereStep(s, req);
  }

  lemma {:induction false} TraceInv(s: System, steps: seq<Step>)
    requires Inv(s) && Legal(s, steps)
    ensures Inv(Trace(s, steps))
    decreases |steps|
  {
    if |steps| > 0 {
      StepInv(s, steps[0]);
      TraceInv(After(s, steps[0]), steps[1..]);
    }
  }

  lemma ReachableInv(s: System)
    requires Reachable(s)
    ensures Inv(s)
  {
    var b, steps :| Boot(b) && Legal(b, steps) && Trace(b, steps) == s;
    TraceInv(b, steps);
  }

  // ---------------------------------------------------------------- the lock

  /** No two clients are between the return of Acquire and the end of Release's read. */
  lemma MutualExclusion(s: System, p: nat, q: nat)
    requires Reachable(s) && p < |s.phases| && q < |s.phases|
    ensures |s.ids| == |s.phases|
    ensures Owns(s.ids[p], s.phases[p]) && Owns(s.ids[q], s.phases[q]) ==> p == q
  {
    ReachableInv(s);
    assert PhaseOk(s.ids[p], s.phases[p], Value(s.store, s.name), Version(s.store, s.name));
    assert PhaseOk(s.ids[q], s.phases[q], Value(s.store, s.name), Version(s.store, s.name));
  }

  /** A Put that can still take effect finds nobody who owns the lock. */
  lemma LiveMeansUnowned(s: System, p: nat, put: Request)
    requires Inv(s) && p < |s.phases| && put in s.net && put.Put?
    ensures put.version == Version(s.store, s.name) ==> !Owns(s.ids[p], s.phases[p])
  {
    assert PhaseOk(s.ids[p], s.phases[p], Value(s.store, s.name), Version(s.store, s.name));
    assert PutOk(s, put);
    if put.version == Version(s.store, s.name) {
      var q: nat :| q < |s.phases| && q < |s.ids| && Sender(s, put, q);
      assert PhaseOk(s.ids[q], s.phases[q], Value(s.store, s.name), Version(s.store, s.name));
      assert p != q ==> s.ids[p] != s.ids[q];
    }
  }

  /** While a client owns the lock, nothing that anyone has sent can change it. */
  lemma OwnedIsStable(s: System, p: nat, put: Request)
    requires Reachable(s) && p < |s.phases| && p < |s.ids| && Owns(s.ids[p], s.phases[p]) && put in s.net
    ensures Apply(s.store, put) == s.store && Value(s.store, s.name) == s.ids[p]
  {
    ReachableInv(s);
    assert PhaseOk(s.ids[p], s.phases[p], Value(s.store, s.name), Version(s.store, s.name));
    assert PutOk(s, put);
    LiveMeansUnowned(s, p, put);
  }

  /** The key names a client only while that client is at work on the lock: a release is never undone by a late copy. */
  lemma NeverLeftTaken(s: System, p: nat)
    requires Reachable(s) && p < |s.phases| && p < |s.ids|
    ensures s.phases[p].Unmade? || s.phases[p].Making? || s.phases[p].Free? ==> Value(s.store, s.name) != s.ids[p]
  {
    ReachableInv(s);
    assert PhaseOk(s.ids[p], s.phases[p], Value(s.store, s.name), Version(s.store, s.name));
  }

  /** A Put that has been handled once has no further effect, whoever sends further copies. */
  lemma HandledIsSpent(s: System, put: Request)
    requires Reachable(s) && put in s.handled
    ensures Apply(s.store, put) == s.store
  {
    ReachableInv(s);
    assert PutOk(s, put);
  }
}
