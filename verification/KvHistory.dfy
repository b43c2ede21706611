/** What a history of requests on one versioned map can show a client. */
module KvHistory {
  import opened KvStore
  import opened Sets

  /** A key that was never written reads as version 0. */
  function Version(store: Store, key: string): nat {
    if key in store then store[key].version else 0
  }

  function Run(store: Store, reqs: seq<Request>): Store
    decreases |reqs|
  {
    if |reqs| == 0 then store else Run(Apply(store, reqs[0]), reqs[1..])
  }

  /** The answer to request i of a history. */
  function AnswerOf(store: Store, reqs: seq<Request>, i: nat): Reply
    requires i < |reqs|
  {
    Answer(Run(store, reqs[..i]), reqs[i])
  }

  predicate Writes(store: Store, reqs: seq<Request>, i: nat, key: string)
    requires i < |reqs|
  {
    reqs[i].Put? && reqs[i].key == key && AnswerOf(store, reqs, i) == PutReply(OK)
  }

  /** The writes to a key among the first n requests. */
  function WritesOf(store: Store, reqs: seq<Request>, n: nat, key: string): set<nat>
    requires n <= |reqs|
  {
    set i: nat | i < n && Writes(store, reqs, i, key)
  }

  lemma {:induction false} RunSplit(store: Store, reqs: seq<Request>, n: nat)
    requires n < |reqs|
    ensures Run(store, reqs[..n + 1]) == Apply(Run(store, reqs[..n]), reqs[n])
    decreases n
  {
    if n > 0 {
      var rest := reqs[1..];
      RunSplit(Apply(store, reqs[0]), rest, n - 1);
      assert reqs[..n + 1][1..] == rest[..n] && reqs[..n][1..] == rest[..n - 1];
    } else {
      assert reqs[..1][1..] == [];
    }
  }

  lemma WritesNext(store: Store, reqs: seq<Request>, n: nat, key: string)
    requires n < |reqs|
    ensures |WritesOf(store, reqs, n + 1, key)| == |WritesOf(store, reqs, n, key)| + if Writes(store, reqs, n, key) then 1 else 0
  {
    var before := WritesOf(store, reqs, n, key);
    assert WritesOf(store, reqs, n + 1, key) == if Writes(store, reqs, n, key) then before + {n} else before;
  }

  /** The version of a key counts the writes to it: every OK stands for exactly one. */
  lemma {:induction false} VersionCountsWrites(reqs: seq<Request>, n: nat, key: string)
    requires n <= |reqs|
    ensures Version(Run(map[], reqs[..n]), key) == |WritesOf(map[], reqs, n, key)|
    decreases n
  {
    if n > 0 {
      VersionCountsWrites(reqs, n - 1, key);
      RunSplit(map[], reqs, n - 1);
      WritesNext(map[], reqs, n - 1, key);
    } else {
      assert WritesOf(map[], reqs, 0, key) == {};
    }
  }

  /**
   What a write is told: OK exactly when it names the number of writes that came before it; otherwise that there is no
   such key, or that it names another version.
   */
  lemma WriteIsTold(reqs: seq<Request>, i: nat)
    requires i < |reqs| && reqs[i].Put?
    ensures var writes := |WritesOf(map[], reqs, i, reqs[i].key)|;
            AnswerOf(map[], reqs, i) == PutReply(if reqs[i].version == writes then OK else if writes == 0 then ErrNoKey else ErrVersion)
  {
    VersionCountsWrites(reqs, i, reqs[i].key);
    StoredHasVersion(reqs, i, reqs[i].key);
  }

  /** Only keys that were written are stored. */
  lemma {:induction false} StoredHasVersion(reqs: seq<Request>, n: nat, key: string)
    requires n <= |reqs|
    ensures key in Run(map[], reqs[..n]) <==> Version(Run(map[], reqs[..n]), key) > 0
    decreases n
  {
    if n > 0 {
      StoredHasVersion(reqs, n - 1, key);
      RunSplit(map[], reqs, n - 1);
    }
  }

  /** The value of a key is the one its last write put there. */
  lemma {:induction false} LastWrite(reqs: seq<Request>, n: nat, key: string) returns (j: nat)
    requires n <= |reqs| && key in Run(map[], reqs[..n])
    ensures j < n && Writes(map[], reqs, j, key) && forall k: nat :: j < k < n ==> !Writes(map[], reqs, k, key)
    ensures Run(map[], reqs[..n])[key].value == reqs[j].value
    decreases n
  {
    j := 0;
    if n > 0 {
      RunSplit(map[], reqs, n - 1);
      if Writes(map[], reqs, n - 1, key) {
        j := n - 1;
      } else {
        j := LastWrite(reqs, n - 1, key);
      }
    }
  }

  /** A read answers the last write and the number of writes, or that there was none. */
  lemma ReadIsTold(reqs: seq<Request>, i: nat)
    requires i < |reqs| && reqs[i].Get?
    ensures var writes := WritesOf(map[], reqs, i, reqs[i].key);
            if writes == {} then AnswerOf(map[], reqs, i) == GetReply("", 0, ErrNoKey)
            else exists j: nat ::
              && j in writes && (forall k: nat :: k in writes ==> k <= j)
              && AnswerOf(map[], reqs, i) == GetReply(reqs[j].value, |writes|, OK)
  {
    var key := reqs[i].key;
    VersionCountsWrites(reqs, i, key);
    StoredHasVersion(reqs, i, key);
    if key in Run(map[], reqs[..i]) {
      var j := LastWrite(reqs, i, key);
      assert j in WritesOf(map[], reqs, i, key);
    }
  }

  /** However often a write is repeated, with whatever between, one copy at most takes effect. */
  lemma AtMostOnce(reqs: seq<Request>, i: nat, j: nat)
    requires i < j < |reqs| && reqs[i].Put? && reqs[j].Put?
    requires reqs[i].key == reqs[j].key && reqs[i].version == reqs[j].version
    ensures AnswerOf(map[], reqs, i) == PutReply(OK) ==> AnswerOf(map[], reqs, j) != PutReply(OK)
    ensures AnswerOf(map[], reqs, i) == PutReply(OK) ==>
              Run(map[], reqs[..j + 1]) == Run(map[], reqs[..j]) && AnswerOf(map[], reqs, j) == PutReply(ErrVersion)
  {
    var key := reqs[i].key;
    if AnswerOf(map[], reqs, i) == PutReply(OK) {
      WriteIsTold(reqs, i);
      VersionCountsWrites(reqs, j, key);
      RunSplit(map[], reqs, j);
      var before, after := WritesOf(map[], reqs, i, key), WritesOf(map[], reqs, j, key);
      assert before + {i} <= after;
      NoLarger(before + {i}, after);
    }
  }
}
