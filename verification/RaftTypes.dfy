/** Values shared by the abstract protocol and the peers: log entries, and how one log is merged into another. */
module RaftTypes {
  import opened KvStore
  import opened Services

  /** A client operation: the replica that submitted it, its number there, and the request. */
  datatype Op = Op(me: nat, id: nat, req: Command)

  datatype Entry = Entry(term: nat, command: Option<Op>, index: nat)

  datatype Role = Follower | Candidate | Leader

  const NOBODY := -1

  datatype VoteReq = VoteReq(cand: nat, term: nat, lastIndex: nat, lastTerm: nat)

  datatype VoteReply = VoteReply(term: nat, granted: bool)

  datatype AppendMsg = AppendMsg(term: nat, leader: nat, prev: nat, prevTerm: nat, entries: seq<Entry>, commit: nat)

  datatype AppendReply = AppendReply(term: nat, success: bool, conflictIndex: nat)

  datatype InstallMsg = InstallMsg(term: nat, leader: nat, lastIndex: nat, lastTerm: nat, data: Option<Data>)

  function Max(a: nat, b: nat): nat { if a >= b then a else b }

  function Min(a: nat, b: nat): nat { if a <= b then a else b }

  function LastTerm(log: seq<Entry>): nat
    requires |log| >= 1
  {
    log[|log| - 1].term
  }

  /** The two logs hold the same entries at positions 0..k. */
  ghost predicate AgreeTo(a: seq<Entry>, b: seq<Entry>, k: nat) {
    k < |a| && k < |b| && forall i :: 0 <= i <= k ==> a[i] == b[i]
  }

  /** How many of `entries`, from position i on, the log already holds (by term) after position `prev`. */
  function Matched(log: seq<Entry>, prev: nat, entries: seq<Entry>, i: nat): (r: nat)
    requires i <= |entries|
    ensures i <= r <= |entries|
    ensures r > i ==> prev + r < |log|
    ensures forall j :: i <= j < r ==> prev + 1 + j < |log| && log[prev + 1 + j].term == entries[j].term
    ensures r < |entries| ==> prev + 1 + r >= |log| || log[prev + 1 + r].term != entries[r].term
    decreases |entries| - i
  {
    if i < |entries| && prev + 1 + i < |log| && log[prev + 1 + i].term == entries[i].term
    then Matched(log, prev, entries, i + 1)
    else i
  }

  /** A follower's log after the leader's entries following position `prev` were accepted. */
  function Merge(log: seq<Entry>, prev: nat, entries: seq<Entry>): seq<Entry>
    requires prev < |log|
  {
    var i := Matched(log, prev, entries, 0);
    if i < |entries| then log[..prev + 1 + i] + entries[i..] else log
  }

  /** A candidate's last entry is at least as late as the last entry of `log`. */
  predicate UpToDate(lastIndex: nat, lastTerm: nat, log: seq<Entry>)
    requires |log| >= 1
  {
    lastTerm > LastTerm(log) || (lastTerm == LastTerm(log) && lastIndex >= |log| - 1)
  }
}
