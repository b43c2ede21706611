/**
 The replicated state machine over the cluster: on each peer an applier hands committed commands and installed
 snapshots to a reader, which executes them, answers the waiting Submit calls and asks for snapshots.

 Two premises are built into `CanStep`: a peer takes over a newer snapshot only while its applier is not inside
 a channel send, and only if it has not applied past that snapshot. The second is not something the code ensures:
 see `StaleInstallBreaksReplica`.
 */
module RsmSystem {
  import opened KvStore
  import opened Services
  import opened RaftTypes
  import opened RaftPeer
  import C = RaftCluster

  datatype Message =
    | SnapshotMsg(snapshot: PendingSnapshot)
    | CommandMsg(index: nat, command: Option<Op>)

  /**
   The service of one peer. `index` is the log index its data reflects; `inHand` is what the applier is sending;
   `saving` is a snapshot the reader has taken and not yet passed to the peer; `waiting` maps a log index to the
   number of the Submit call that waits for it.
   */
  datatype Replica = Replica(
    data: Data, index: nat, inHand: Option<Message>, saving: Option<(nat, Data)>, opId: nat, waiting: map<nat, nat>)

  /** An accepted Submit call: its request, where its entry was put, what came back, and the indices already answered OK when it began. */
  datatype Call = Call(req: Command, index: nat, term: nat, arrived: Option<(Op, Result)>, before: set<nat>)

  /** ErrMaybe may come back although an answer has arrived, when the timer fires as well. */
  datatype Outcome = Answered(reply: Result) | WrongLeader | Maybe

  type Key = (nat, nat)

  datatype System = System(service: Service, c: C.Cluster, replicas: seq<Replica>, calls: map<Key, Call>, outcomes: map<Key, Outcome>)

  datatype Step =
    | Protocol(step: C.Step)
    | Submit(p: nat, req: Command)
    | Return(p: nat, id: nat, timedOut: bool)
    | OfferSnapshot(p: nat)
    | OfferCommand(p: nat)
    | Receive(p: nat, save: bool)
    | Save(p: nat)
    | Crash(p: nat)

  // ---------------------------------------------------------------- the reader

  function Executed(v: Service, data: Data, command: Option<Op>): Data {
    match command
    case None => data
    case Some(op) => v.apply(data, op.req)
  }

  /** What the service holds after the commands at positions 1..i of a log. */
  function StateAt(v: Service, log: seq<Entry>, i: nat): Data
    requires i < |log|
  {
    if i == 0 then v.initial else Executed(v, StateAt(v, log, i - 1), log[i].command)
  }

  /** The reader handles what the applier sent. */
  function Handled(v: Service, r: Replica, save: bool): Replica
    requires r.inHand.Some?
  {
    match r.inHand.value
    case SnapshotMsg(s) =>
      r.(data := if s.data.Some? then s.data.value else r.data, index := s.index, inHand := None)
    case CommandMsg(index, command) =>
      // The applier passes over an entry without a command.
      if command.None? then r.(index := index, inHand := None) else
      var data := Executed(v, r.data, command);
      r.(data := data, index := index, inHand := None, waiting := r.waiting - {index},
         saving := if save then Some((index, data)) else None)
  }

  /** The call the reader answers, with the operation it executed and the result. */
  function Answering(v: Service, r: Replica, p: nat): Option<(Key, Op, Result)>
    requires r.inHand.Some?
  {
    match r.inHand.value
    case SnapshotMsg(_) => None
    case CommandMsg(index, command) =>
      if command.Some? && index in r.waiting
      then Some(((p, r.waiting[index]), command.value, v.answer(r.data, command.value.req))) else None
  }

  /** What a call makes of the operation that arrived. */
  function Returned(p: nat, id: nat, arrived: (Op, Result)): Outcome {
    if arrived.0.me != p || arrived.0.id != id then WrongLeader else Answered(arrived.1)
  }

  // ---------------------------------------------------------------- steps

  /** The step takes over a newer snapshot. */
  ghost predicate TakesOver(c: C.Cluster, step: C.Step)
    requires C.WellFormed(c, step)
  {
    step.ReceiveInstall? && step.call.install.term >= c.peers[step.call.dst].currentTerm
    && step.call.install.lastIndex > c.peers[step.call.dst].lastIncludedIndex
  }

  /** What the code can do, except that a newer snapshot arrives only while the applier is not sending. */
  ghost predicate Possible(s: System, step: Step) {
    && |s.replicas| == |s.c.peers|
    && match step
       case Protocol(step) =>
         && C.CanStep(s.c, step) && C.InBounds(s.c, step)
         && (TakesOver(s.c, step) ==> s.replicas[step.call.dst].inHand.None?)
         && !step.Start? && !step.Apply? && !step.SnapshotSent? && !step.Snapshot? && !step.Restart?
       case Submit(p, _) =>
         && p < |s.replicas| && |s.c.peers[p].log| >= 1
         && (p, s.replicas[p].opId) !in s.calls && (p, s.replicas[p].opId) !in s.outcomes
       case Return(p, id, timedOut) =>
         && p < |s.replicas| && (p, id) in s.calls && (p, id) !in s.outcomes
         && (timedOut ==> !s.c.peers[p].role.Leader? || s.c.peers[p].currentTerm != s.calls[(p, id)].term)
         && (!timedOut ==> s.calls[(p, id)].arrived.Some?)
       case OfferSnapshot(p) => p < |s.replicas| && s.replicas[p].inHand.None? && s.c.peers[p].pending.Some?
       case OfferCommand(p) =>
         && p < |s.replicas| && s.replicas[p].inHand.None? && s.c.peers[p].pending.None?
         && C.CanStep(s.c, C.Apply(p)) && C.InBounds(s.c, C.Apply(p))
       case Receive(p, _) =>
         && p < |s.replicas| && s.replicas[p].inHand.Some? && s.replicas[p].saving.None?
         && (s.replicas[p].inHand.value.SnapshotMsg? ==> C.CanStep(s.c, C.SnapshotSent(p)) && C.InBounds(s.c, C.SnapshotSent(p)))
       case Save(p) =>
         && p < |s.replicas| && s.replicas[p].saving.Some?
         && C.CanStep(s.c, SaveStep(s, p)) && C.InBounds(s.c, SaveStep(s, p))
       case Crash(p) => p < |s.replicas| && C.CanStep(s.c, C.Restart(p)) && C.InBounds(s.c, C.Restart(p))
  }

  /** A newer snapshot is not behind what was applied. */
  ghost predicate InstallPremise(s: System, step: Step)
    requires Possible(s, step)
  {
    step.Protocol? && TakesOver(s.c, step.step) ==>
      step.step.call.install.lastIndex >= s.c.peers[step.step.call.dst].lastApplied
  }

  ghost predicate CanStep(s: System, step: Step) {
    Possible(s, step) && InstallPremise(s, step)
  }

  function SaveStep(s: System, p: nat): C.Step
    requires p < |s.replicas| && s.replicas[p].saving.Some?
  {
    C.Snapshot(p, s.replicas[p].saving.value.0, s.replicas[p].saving.value.1)
  }

  ghost function AnsweredIndices(s: System): set<nat> {
    set k | k in s.outcomes && s.outcomes[k].Answered? && k in s.calls :: s.calls[k].index
  }

  ghost function SubmitStep(p: nat, id: nat, req: Command): C.Step {
    C.Start(p, Some(Op(p, id, req)))
  }

  ghost function AfterSubmit(s: System, p: nat, req: Command): System
    requires Possible(s, Submit(p, req))
  {
    var r := s.replicas[p];
    var key := (p, r.opId);
    var peer := s.c.peers[p];
    var s' := s.(c := C.After(s.c, SubmitStep(p, r.opId, req)));
    if !peer.role.Leader? then
      s'.(replicas := s.replicas[p := r.(opId := r.opId + 1)], outcomes := s.outcomes[key := WrongLeader])
    else
      var index := peer.lastIncludedIndex + |peer.log|;
      s'.(replicas := s.replicas[p := r.(opId := r.opId + 1, waiting := r.waiting[index := r.opId])],
          calls := s.calls[key := Call(req, index, peer.currentTerm, None, AnsweredIndices(s))])
  }

  ghost function AfterReceive(s: System, p: nat, save: bool): System
    requires Possible(s, Receive(p, save))
  {
    var r := s.replicas[p];
    var s' := s.(replicas := s.replicas[p := Handled(s.service, r, save)],
                 c := if r.inHand.value.SnapshotMsg? then C.After(s.c, C.SnapshotSent(p)) else s.c);
    match Answering(s.service, r, p)
    case None => s'
    case Some((key, op, reply)) =>
      if key in s.calls then s'.(calls := s.calls[key := s.calls[key].(arrived := Some((op, reply)))]) else s'
  }

  ghost function After(s: System, step: Step): System
    requires Possible(s, step)
  {
    match step
    case Protocol(step) => s.(c := C.After(s.c, step))
    case Submit(p, req) => AfterSubmit(s, p, req)
    case Return(p, id, timedOut) =>
      var call := s.calls[(p, id)];
      s.(outcomes := s.outcomes[(p, id) := if timedOut then Maybe else Returned(p, id, call.arrived.value)],
         replicas := s.replicas[p := s.replicas[p].(waiting := s.replicas[p].waiting - {call.index})])
    case OfferSnapshot(p) =>
      s.(replicas := s.replicas[p := s.replicas[p].(inHand := Some(SnapshotMsg(s.c.peers[p].pending.value)))])
    case OfferCommand(p) =>
      var (_, entry) := ApplyNext(s.c.peers[p]);
      s.(c := C.After(s.c, C.Apply(p)),
         replicas := s.replicas[p := s.replicas[p].(inHand := Some(CommandMsg(s.c.peers[p].lastApplied + 1, entry.command)))])
    case Receive(p, save) => AfterReceive(s, p, save)
    case Save(p) => s.(c := C.After(s.c, SaveStep(s, p)), replicas := s.replicas[p := s.replicas[p].(saving := None)])
    case Crash(p) => s.(c := C.After(s.c, C.Restart(p)), replicas := s.replicas[p := Replica(s.service.initial, 0, None, None, 0, map[])])
  }

  ghost function Boot(v: Service, n: nat): System {
    System(v, C.Boot(n), seq(n, _ => Replica(v.initial, 0, None, None, 0, map[])), map[], map[])
  }

  ghost predicate Legal(s: System, steps: seq<Step>)
    decreases |steps|
  {
    |steps| > 0 ==> CanStep(s, steps[0]) && Legal(After(s, steps[0]), steps[1..])
  }

  ghost function Trace(s: System, steps: seq<Step>): System
    requires Legal(s, steps)
    decreases |steps|
  {
    if |steps| == 0 then s else Trace(After(s, steps[0]), steps[1..])
  }
}
