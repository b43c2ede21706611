/** The replicated state machine as the object it is: Submit and the reader over one peer and one state machine. */
module RsmNode {
  import opened KvStore
  import opened Services
  import opened ShardTypes
  import opened Machines
  import opened RaftTypes
  import opened RaftPeer
  import opened RaftNode
  import opened RsmSystem

  /** What a waiting Submit sees: its channel delivers, or a timer tick shows the peer's term and role. */
  datatype Wake = Delivered(op: Op, reply: Result) | Tick(term: nat, isLeader: bool)

  predicate Benign(term: nat, wake: Wake) {
    wake.Tick? && wake.isLeader && wake.term == term
  }

  /** The outcome of a call by the first wake-up that decides it. */
  ghost predicate Decides(me: nat, id: nat, term: nat, wakes: seq<Wake>, outcome: Option<Outcome>) {
    match outcome
    case None => forall i :: 0 <= i < |wakes| ==> Benign(term, wakes[i])
    case Some(o) =>
      exists i :: 0 <= i < |wakes| && (forall j :: 0 <= j < i ==> Benign(term, wakes[j])) && !Benign(term, wakes[i])
                  && o == if wakes[i].Tick? then Maybe
                          else if wakes[i].op.me == me && wakes[i].op.id == id then Answered(wakes[i].reply) else WrongLeader
  }

  class RSM {
    const me: nat
    const rf: Raft
    const sm: StateMachine
    var opId: nat
    var pending: map<nat, nat>

    constructor (rf: Raft, sm: StateMachine)
      ensures this.rf == rf && this.sm == sm && me == rf.me
      ensures opId == 0 && pending == map[]
    {
      this.rf, this.sm, me := rf, sm, rf.me;
      opId, pending := 0, map[];
    }

    /** The replica as one value, for a given log index and given contents of the applier's hands. */
    ghost function State(index: nat, inHand: Option<Message>, saving: Option<(nat, Data)>): Replica
      requires sm.Valid()
      reads this, sm.Repr()
    {
      Replica(sm.Contents(), index, inHand, saving, opId, pending)
    }

    /** The locked half of Submit: number the operation, start it, and wait at its index. */
    method BeginSubmit(req: Command) returns (id: nat, result: StartResult, out: seq<(nat, Outgoing)>)
      requires rf.Valid() && rf.State().Sane()
      modifies this, rf
      ensures rf.Valid() && id == old(opId) && opId == old(opId) + 1
      ensures (rf.State(), result) == HandleStart(old(rf.State()), Some(Op(me, id, req)))
      ensures pending == if result.isLeader then old(pending)[result.index := id] else old(pending)
      ensures result.isLeader == old(rf.state).Leader?
      ensures result.isLeader ==> result.index == old(rf.lastIncludedIndex + |rf.log|) && result.term == old(rf.currentTerm)
    {
      id := opId;
      var op := Op(me, id, req);
      opId := opId + 1;
      result, out := rf.Start(Some(op));
      if !result.isLeader {
        return;
      }
      pending := pending[result.index := id];
    }

    /** The waiting half of Submit, over the wake-ups it gets. */
    method AwaitAnswer(id: nat, term: nat, wakes: seq<Wake>) returns (outcome: Option<Outcome>)
      ensures Decides(me, id, term, wakes, outcome)
    {
      var i := 0;
      while i < |wakes|
        invariant 0 <= i <= |wakes| && forall j :: 0 <= j < i ==> Benign(term, wakes[j])
      {
        match wakes[i]
        case Delivered(op, reply) =>
          if op.me != me || op.id != id {
            return Some(WrongLeader);
          }
          return Some(Answered(reply));
        case Tick(curTerm, curLeader) =>
          if !curLeader || curTerm != term {
            return Some(Maybe);
          }
        i := i + 1;
      }
      return None;
    }

    /** What Submit does on its way out. */
    method Forget(index: nat)
      modifies this
      ensures pending == old(pending) - {index} && opId == old(opId)
    {
      pending := pending - {index};
    }

    /** The reader handles one message of the applier, and answers the call that waits for it. */
    method HandleMessage(ghost index: nat, message: Message, save: bool) returns (answer: Option<(Key, Op, Result)>, saving: Option<(nat, Data)>)
      requires sm.Valid() && this !in sm.Repr() && (message.CommandMsg? ==> message.command.Some?)
      requires message.CommandMsg? && sm.group != null ==> OpShard(sm.group.hash, message.command.value.req) < NSHARDS
      requires message.SnapshotMsg? && message.snapshot.data.Some? ==> Fits(sm.Kind(), message.snapshot.data.value)
      modifies this, sm.Repr()
      ensures sm.Valid()
      ensures answer == Answering(sm.Kind(), old(State(index, Some(message), None)), me)
      ensures exists at: nat :: State(at, None, saving) == Handled(sm.Kind(), old(State(index, Some(message), None)), save)
      ensures answer.Some? <==> message.CommandMsg? && message.index in old(pending)
      ensures answer.Some? ==>
        answer.value == ((me, old(pending)[message.index]), message.command.value,
                         sm.Kind().answer(old(sm.Contents()), message.command.value.req))
      ensures message.CommandMsg? ==>
        sm.Contents() == sm.Kind().apply(old(sm.Contents()), message.command.value.req) && pending == old(pending) - {message.index}
      ensures message.SnapshotMsg? ==>
        pending == old(pending) && sm.Contents() == if message.snapshot.data.Some? then message.snapshot.data.value else old(sm.Contents())
      ensures opId == old(opId) && saving == if message.CommandMsg? && save then Some((message.index, sm.Contents())) else None
    {
      answer, saving := None, None;
      ghost var after := Handled(sm.Kind(), State(index, Some(message), None), save);
      if message.SnapshotMsg? {
        sm.Restore(message.snapshot.data);
      } else {
        var op := message.command.value;
        var result := sm.DoOp(op.req);
        if message.index in pending {
          answer := Some(((me, pending[message.index]), op, result));
        }
        pending := pending - {message.index};
        if save {
          var bytes := sm.Snapshot();
          saving := Some((message.index, bytes));
        }
      }
      assert State(after.index, None, saving) == after;
    }

    /** The reader hands its snapshot to the peer. */
    method PassSnapshot(saving: (nat, Data))
      requires rf.Valid()
      modifies rf
      ensures rf.Valid() && rf.State() == TakeSnapshot(old(rf.State()), saving.0, saving.1)
    {
      rf.Snapshot(saving.0, saving.1);
    }
  }
}
