/** The clients' retry loops, and what their verdicts say about the single map. */
module Clerks {
  import opened KvStore
  import opened KvHistory

  /** The clerk of the stand-alone server, of the replicated store, and of the sharded store. */
  datatype Rule = Single | Replicated | Sharded

  /** An attempt's answer ends the loop; None is an attempt without an answer. */
  predicate Final(rule: Rule, answer: Option<Err>) {
    answer.Some? &&
    match rule
    case Single => true
    case Replicated => answer.value in {OK, ErrVersion, ErrNoKey}
    case Sharded => answer.value !in {ErrWrongGroup, ErrFrozen, ErrWrongLeader}
  }

  /** What the caller of Put is told when attempt k (from 0) is the one that ends the loop. */
  function Verdict(rule: Rule, k: nat, err: Err): Err {
    match rule
    case Single => if k > 0 then ErrMaybe else err
    case _ => if k > 0 && err == ErrVersion then ErrMaybe else err
  }

  ghost predicate EndsAt(rule: Rule, answers: seq<Option<Err>>, k: nat) {
    k < |answers| && Final(rule, answers[k]) && forall i :: 0 <= i < k ==> !Final(rule, answers[i])
  }

  /** The loop's result: none while no attempt has ended it. */
  ghost predicate Told(rule: Rule, answers: seq<Option<Err>>, err: Option<Err>) {
    match err
    case None => forall i {:trigger answers[i]} :: 0 <= i < |answers| ==> !Final(rule, answers[i])
    case Some(e) => exists k: nat {:trigger EndsAt(rule, answers, k)} :: EndsAt(rule, answers, k) && e == Verdict(rule, k, answers[k].value)
  }

  // ---------------------------------------------------------------- the loops

  class SingleClerk {
    constructor () {}

    method Put(answers: seq<Option<Err>>) returns (err: Option<Err>)
      ensures Told(Single, answers, err)
    {
      if |answers| == 0 {
        return None;
      }
      var i, answer := 1, answers[0];
      if answer.Some? {
        assert EndsAt(Single, answers, 0);
      }
      while answer.None?
        invariant 1 <= i <= |answers| && answer == answers[i - 1]
        invariant forall j :: 0 <= j < i - 1 ==> !Final(Single, answers[j])
        invariant i > 1 ==> answer.None?
        decreases |answers| - i
      {
        if i == |answers| {
          return None;
        }
        answer := answers[i];
        i := i + 1;
        if answer.Some? {
          assert EndsAt(Single, answers, i - 1);
          return Some(ErrMaybe);
        }
      }
      err := answer;
    }
  }

  /** The server that is tried k attempts after server i. */
  function Hops(n: nat, i: nat, k: nat): (index: nat)
    requires i < n
    ensures index < n
  {
    if k == 0 then i
    else
      var before := Hops(n, i, k - 1);
      if before + 1 == n then 0 else before + 1
  }

  /** One server further, round the ring. */
  method NextServer(n: nat, index: nat) returns (next: nat)
    requires index < n
    ensures next == if index + 1 == n then 0 else index + 1
  {
    next := (index + 1) % n;
  }

  /** The replicated store's clerk tries one server after the other, and remembers who answered. */
  class ReplicatedClerk {
    const servers: seq<string>
    var leader: nat

    ghost predicate Valid()
      reads this
    {
      leader < |servers|
    }

    constructor (servers: seq<string>)
      requires |servers| > 0
      ensures Valid() && this.servers == servers && leader == 0
    {
      this.servers, leader := servers, 0;
    }

    method Put(answers: seq<Option<Err>>) returns (err: Option<Err>)
      requires Valid()
      modifies this
      ensures Valid() && Told(Replicated, answers, err)
      ensures forall k: nat {:trigger EndsAt(Replicated, answers, k)} :: EndsAt(Replicated, answers, k) ==>
                leader == Hops(|servers|, old(leader), k)
      ensures err.None? ==> leader == old(leader)
    {
      var index: nat, resend := leader, 0;
      while resend < |answers|
        invariant 0 <= resend <= |answers| && index < |servers| && leader == old(leader)
        invariant index == Hops(|servers|, leader, resend)
        invariant forall j {:trigger answers[j]} :: 0 <= j < resend ==> !Final(Replicated, answers[j])
      {
        var answer := answers[resend];
        if answer.Some? && (answer.value == OK || answer.value == ErrVersion || answer.value == ErrNoKey) {
          assert EndsAt(Replicated, answers, resend);
          leader := index;
          if resend > 0 && answer.value == ErrVersion {
            return Some(ErrMaybe);
          }
          return Some(answer.value);
        }
        index := NextServer(|servers|, index);
        resend := resend + 1;
      }
      return None;
    }

    /** Get repeats until some server answers from its log. */
    method Get(answers: seq<Option<Reply>>) returns (reply: Option<Reply>)
      requires Valid()
      modifies this
      ensures Valid()
      ensures reply.None? ==> leader == old(leader) && forall i :: 0 <= i < |answers| ==> !FromLog(answers[i])
      ensures reply.Some? ==> exists k: nat {:trigger FirstFromLog(answers, k)} ::
        FirstFromLog(answers, k) && reply == answers[k] && leader == Hops(|servers|, old(leader), k)
    {
      var index: nat, i := leader, 0;
      while i < |answers|
        invariant 0 <= i <= |answers| && leader == old(leader) && index == Hops(|servers|, leader, i)
        invariant forall j :: 0 <= j < i ==> !FromLog(answers[j])
      {
        if answers[i].Some? && (answers[i].value.err == OK || answers[i].value.err == ErrNoKey) {
          assert FirstFromLog(answers, i);
          leader := index;
          return answers[i];
        }
        index := NextServer(|servers|, index);
        i := i + 1;
      }
      return None;
    }
  }

  /** A server answered a read from its log. */
  predicate FromLog(answer: Option<Reply>) {
    answer.Some? && answer.value.err in {OK, ErrNoKey}
  }

  ghost predicate FirstFromLog(answers: seq<Option<Reply>>, k: nat) {
    k < |answers| && FromLog(answers[k]) && forall i :: 0 <= i < k ==> !FromLog(answers[i])
  }

  /** The clerk of one shard group makes one attempt at a time; no answer counts as a wrong leader. */
  class GroupClerk {
    const servers: seq<string>
    var leader: nat

    ghost predicate Valid()
      reads this
    {
      leader < |servers| || (servers == [] && leader == 0)
    }

    constructor (servers: seq<string>)
      ensures Valid() && this.servers == servers && leader == 0
    {
      this.servers, leader := servers, 0;
    }

    /** None stands for the panic of a clerk without servers. */
    method Put(answer: Option<Err>) returns (err: Option<Err>)
      requires Valid()
      modifies this
      ensures Valid() && (err.None? <==> servers == [])
      ensures err.Some? ==> err.value == if answer.None? then ErrWrongLeader else answer.value
      ensures leader == if err == Some(ErrWrongLeader) then (old(leader) + 1) % |servers| else old(leader)
    {
      var index := leader;
      if index >= |servers| {
        return None;
      }
      if answer.None? || answer.value == ErrWrongLeader {
        leader := (index + 1) % |servers|;
        return Some(ErrWrongLeader);
      }
      leader := index;
      return answer;
    }
  }

  /** One round of the sharded clerk: the group the current configuration names, its servers, and the answer. */
  datatype Round = Round(gid: nat, servers: seq<string>, answer: Option<Err>)

  function AnswersOf(rounds: seq<Round>): (answers: seq<Option<Err>>)
    ensures |answers| == |rounds| && forall i :: 0 <= i < |rounds| ==> answers[i] == rounds[i].answer
  {
    seq(|rounds|, i requires 0 <= i < |rounds| => rounds[i].answer)
  }

  /** The servers the clerk has cached for each group before round i: the first it was told stay. */
  function Cached(cache: map<nat, seq<string>>, rounds: seq<Round>, i: nat): map<nat, seq<string>>
    requires i <= |rounds|
  {
    if i == 0 then cache
    else
      var before := Cached(cache, rounds, i - 1);
      if rounds[i - 1].gid in before then before else before[rounds[i - 1].gid := rounds[i - 1].servers]
  }

  /** The servers asked in round i. */
  function ServersAt(cache: map<nat, seq<string>>, rounds: seq<Round>, i: nat): seq<string>
    requires i < |rounds|
  {
    Cached(cache, rounds, i + 1)[rounds[i].gid]
  }

  /** Round i asks a server, and does not end the loop. */
  ghost predicate Passed(cache: map<nat, seq<string>>, rounds: seq<Round>, i: nat) {
    i < |rounds| && ServersAt(cache, rounds, i) != [] && !Final(Sharded, rounds[i].answer)
  }

  ghost predicate AllPassed(cache: map<nat, seq<string>>, rounds: seq<Round>, n: nat) {
    forall i: nat {:trigger Passed(cache, rounds, i)} :: i < n ==> Passed(cache, rounds, i)
  }

  /** Round i is reached, and there is no server to ask. */
  ghost predicate PanicsAt(cache: map<nat, seq<string>>, rounds: seq<Round>, i: nat) {
    i < |rounds| && ServersAt(cache, rounds, i) == [] && AllPassed(cache, rounds, i)
  }

  ghost predicate Panics(cache: map<nat, seq<string>>, rounds: seq<Round>) {
    exists i: nat :: PanicsAt(cache, rounds, i)
  }

  lemma EndsWithoutPanic(cache: map<nat, seq<string>>, rounds: seq<Round>, n: nat)
    requires n <= |rounds| && AllPassed(cache, rounds, n)
    requires n < |rounds| ==> ServersAt(cache, rounds, n) != [] && Final(Sharded, rounds[n].answer)
    ensures !Panics(cache, rounds)
    ensures n == |rounds| ==> Told(Sharded, AnswersOf(rounds), None)
    ensures n < |rounds| ==> EndsAt(Sharded, AnswersOf(rounds), n)
  {
    forall i: nat
      ensures !PanicsAt(cache, rounds, i)
    {
      assert i < n ==> Passed(cache, rounds, i);
      assert !Passed(cache, rounds, n);
    }
    forall i: nat | i < n
      ensures !Final(Sharded, AnswersOf(rounds)[i])
    {
      assert Passed(cache, rounds, i);
    }
  }

  /** A single round panics exactly if no servers are known for its group; an unassigned shard, of group 0, is an input. */
  lemma PanicsUnassigned(cache: map<nat, seq<string>>, round: Round)
    ensures Panics(cache, [round]) <==> (if round.gid in cache then cache[round.gid] == [] else round.servers == [])
    ensures Panics(map[], [Round(0, [], None)])
  {
    assert PanicsAt(map[], [Round(0, [], None)], 0) by {
      assert Cached(map[], [Round(0, [], None)], 1)[0] == [];
    }
    assert Cached(cache, [round], 0) == cache;
    if Panics(cache, [round]) {
      var i: nat :| PanicsAt(cache, [round], i);
    } else {
      assert !PanicsAt(cache, [round], 0);
    }
  }

  class ShardedClerk {
    var rcks: map<nat, GroupClerk>

    ghost predicate Valid()
      reads this, rcks.Values
    {
      forall g :: g in rcks ==> rcks[g] in rcks.Values && rcks[g].Valid()
    }

    /** The servers of the cached clerks. */
    ghost function Cache(): map<nat, seq<string>>
      reads this
    {
      map g | g in rcks :: rcks[g].servers
    }

    constructor ()
      ensures Valid() && rcks == map[]
    {
      rcks := map[];
    }

    method GetOrMakeClerk(gid: nat, servers: seq<string>) returns (clerk: GroupClerk)
      requires Valid()
      modifies this
      ensures Valid() && gid in rcks && rcks[gid] == clerk
      ensures gid in old(rcks) ==> rcks == old(rcks)
      ensures gid !in old(rcks) ==> rcks == old(rcks)[gid := clerk] && fresh(clerk) && clerk.servers == servers
    {
      if gid in rcks {
        return rcks[gid];
      }
      clerk := new GroupClerk(servers);
      rcks := rcks[gid := clerk];
    }

    /** One round: None when the group has no servers. */
    method AskRound(round: Round) returns (err: Option<Err>)
      requires Valid()
      modifies this, rcks.Values
      ensures Valid() && forall g {:trigger rcks[g]} :: g in rcks ==> rcks[g] in old(rcks.Values) || fresh(rcks[g])
      ensures Cache() == if round.gid in old(Cache()) then old(Cache()) else old(Cache())[round.gid := round.servers]
      ensures err.None? <==> Cache()[round.gid] == []
      ensures err.Some? ==> err.value == if round.answer.None? then ErrWrongLeader else round.answer.value
    {
      var clerk := GetOrMakeClerk(round.gid, round.servers);
      assert Cache() == if round.gid in old(Cache()) then old(Cache()) else old(Cache())[round.gid := round.servers];
      err := clerk.Put(round.answer);
    }

    /** A round whose group has no servers ends in a panic. */
    method Put(rounds: seq<Round>) returns (err: Option<Err>, panicked: bool)
      requires Valid()
      modifies this, rcks.Values
      ensures Valid()
      ensures panicked <==> Panics(old(Cache()), rounds)
      ensures if panicked then err.None? else Told(Sharded, AnswersOf(rounds), err)
    {
      ghost var cache := Cache();
      var resend := 0;
      while resend < |rounds|
        invariant 0 <= resend <= |rounds| && Valid() && Cache() == Cached(cache, rounds, resend)
        invariant forall g {:trigger rcks[g]} :: g in rcks ==> rcks[g] in old(rcks.Values) || fresh(rcks[g])
        invariant AllPassed(cache, rounds, resend)
      {
        var e := AskRound(rounds[resend]);
        if e.None? {
          assert PanicsAt(cache, rounds, resend);
          return None, true;
        }
        if e.value == ErrWrongGroup || e.value == ErrFrozen || e.value == ErrWrongLeader {
          resend := resend + 1;
          continue;
        }
        EndsWithoutPanic(cache, rounds, resend);
        if e.value == ErrVersion && resend > 0 {
          return Some(ErrMaybe), false;
        }
        return e, false;
      }
      EndsWithoutPanic(cache, rounds, resend);
      return None, false;
    }
  }

  // ---------------------------------------------------------------- what the verdict means

  /** An attempt was answered with this error, and ran at one of these places of the history with this result. */
  ghost predicate AnsweredAt(reqs: seq<Request>, places: set<nat>, err: Err) {
    exists p: nat :: p in places && p < |reqs| && AnswerOf(map[], reqs, p) == PutReply(err)
  }

  /**
   Where the copies of one Put ran in the history of the map: attempt i ran at places[i], however often. Answers of the
   map are true, and different attempts run at different places.
   */
  ghost predicate Truthful(reqs: seq<Request>, put: Request, answers: seq<Option<Err>>, places: seq<set<nat>>) {
    && put.Put? && |places| == |answers|
    && (forall i, p: nat {:trigger p in places[i]} :: 0 <= i < |places| && p in places[i] ==> p < |reqs| && reqs[p] == put)
    && (forall i, j, p: nat {:trigger p in places[i], p in places[j]} ::
          0 <= i < j < |places| && p in places[i] ==> p !in places[j])
    && (forall i {:trigger answers[i]} :: 0 <= i < |answers| && answers[i].Some? && answers[i].value in {OK, ErrVersion, ErrNoKey} ==>
          AnsweredAt(reqs, places[i], answers[i].value))
  }

  /** Every attempt runs at most once, as the log entry of a Submit does. */
  ghost predicate Once(places: seq<set<nat>>) {
    forall i, p, q {:trigger p in places[i], q in places[i]} :: 0 <= i < |places| && p in places[i] && q in places[i] ==> p == q
  }

  /** The servers that refused the attempt will not run it. */
  predicate Refusal(answer: Option<Err>) {
    answer.Some? && answer.value in {ErrWrongLeader, ErrWrongGroup, ErrFrozen}
  }

  ghost predicate RefusedStay(answers: seq<Option<Err>>, places: seq<set<nat>>) {
    forall i {:trigger places[i]} :: 0 <= i < |places| && i < |answers| && Refusal(answers[i]) ==> places[i] == {}
  }

  /** A copy of attempt i wrote, at place p. */
  ghost predicate Wrote(reqs: seq<Request>, places: seq<set<nat>>, i: nat, p: nat) {
    i < |places| && p in places[i] && p < |reqs| && AnswerOf(map[], reqs, p) == PutReply(OK)
  }

  ghost predicate NothingWritten(reqs: seq<Request>, places: seq<set<nat>>) {
    forall i: nat, p: nat {:trigger Wrote(reqs, places, i, p)} :: !Wrote(reqs, places, i, p)
  }

  /** What the attempts could still do, given what is assumed of the network and the servers. */
  datatype Trust = Trust(once: bool, refusals: bool)

  ghost predicate Possible(trust: Trust, reqs: seq<Request>, put: Request, answers: seq<Option<Err>>, places: seq<set<nat>>) {
    Truthful(reqs, put, answers, places) && (trust.once ==> Once(places)) && (trust.refusals ==> RefusedStay(answers, places))
  }

  /** From these answers it follows that the write never happens. */
  ghost predicate Conclusive(trust: Trust, put: Request, answers: seq<Option<Err>>) {
    forall reqs, places {:trigger Possible(trust, reqs, put, answers, places)} ::
      Possible(trust, reqs, put, answers, places) ==> NothingWritten(reqs, places)
  }

  /** These are the attempts of a loop that ended with the last of them. */
  ghost predicate Ended(rule: Rule, answers: seq<Option<Err>>, err: Err) {
    |answers| > 0 && EndsAt(rule, answers, |answers| - 1) && err == Verdict(rule, |answers| - 1, answers[|answers| - 1].value)
  }

  /** OK: one copy of the attempt that was answered wrote, and no other copy of any attempt did, before or after. */
  lemma OkMeansOnce(rule: Rule, reqs: seq<Request>, put: Request, answers: seq<Option<Err>>, places: seq<set<nat>>)
    returns (k: nat, p: nat)
    requires Truthful(reqs, put, answers, places) && Told(rule, answers, Some(OK))
    ensures EndsAt(rule, answers, k) && Wrote(reqs, places, k, p)
    ensures forall i: nat, q: nat :: Wrote(reqs, places, i, q) ==> i == k && q == p
  {
    k :| EndsAt(rule, answers, k) && OK == Verdict(rule, k, answers[k].value);
    assert answers[k].value == OK;
    p :| p in places[k] && p < |reqs| && AnswerOf(map[], reqs, p) == PutReply(OK);
    forall i: nat, q: nat | Wrote(reqs, places, i, q)
      ensures i == k && q == p
    {
      if q < p {
        AtMostOnce(reqs, q, p);
      } else if p < q {
        AtMostOnce(reqs, p, q);
      }
      assert p in places[k] && q in places[i];
    }
  }

  // ---------------------------------------------------------------- writes that make a version current

  /** n writes to a key, one after the other. */
  function Filler(key: string, n: nat): (reqs: seq<Request>)
    ensures |reqs| == n
  {
    if n == 0 then [] else Filler(key, n - 1) + [Put(key, "", n - 1)]
  }

  lemma {:induction false} FillerRun(key: string, n: nat)
    ensures Version(Run(map[], Filler(key, n)), key) == n && (key in Run(map[], Filler(key, n)) <==> n > 0)
  {
    if n > 0 {
      var reqs := Filler(key, n);
      FillerRun(key, n - 1);
      RunSplit(map[], reqs, n - 1);
      assert reqs[..n - 1] == Filler(key, n - 1) && reqs[..n] == reqs;
    }
  }

  /** A Put, enough writes to make its version current, and the same Put again. */
  function LateCopy(put: Request): (reqs: seq<Request>)
    requires put.Put?
    ensures |reqs| == put.version + 2 && reqs[0] == put && reqs[put.version + 1] == put
  {
    [put] + Filler(put.key, put.version) + [put]
  }

  lemma LateCopyWrites(put: Request)
    requires put.Put? && put.version > 0
    ensures AnswerOf(map[], LateCopy(put), 0) == PutReply(ErrNoKey)
    ensures AnswerOf(map[], LateCopy(put), put.version + 1) == PutReply(OK)
  {
    var reqs, fill := LateCopy(put), Filler(put.key, put.version);
    assert reqs[..0] == [];
    assert reqs[..put.version + 1] == [put] + fill && ([put] + fill)[1..] == fill;
    assert Run(map[], [put] + fill) == Run(Apply(map[], put), fill);
    FillerRun(put.key, put.version);
  }

  /** A Put whose version is current, twice. */
  function Twice(put: Request): (reqs: seq<Request>)
    requires put.Put?
    ensures |reqs| == put.version + 2 && reqs[put.version] == put && reqs[put.version + 1] == put
  {
    Filler(put.key, put.version) + [put, put]
  }

  lemma TwiceWrites(put: Request)
    requires put.Put?
    ensures AnswerOf(map[], Twice(put), put.version) == PutReply(OK)
    ensures AnswerOf(map[], Twice(put), put.version + 1) == PutReply(ErrVersion)
  {
    var reqs := Twice(put);
    assert reqs[..put.version] == Filler(put.key, put.version);
    FillerRun(put.key, put.version);
    AtMostOnce(reqs, put.version, put.version + 1);
  }

  // ---------------------------------------------------------------- when an error is conclusive

  /**
   ErrVersion is reported only when the single attempt was answered so. The write then never happens, provided that a
   call is run at most once; a network that runs one call twice can report it for a write that took effect.
   */
  lemma VersionMeansNever(rule: Rule, put: Request, answers: seq<Option<Err>>, trust: Trust)
    requires put.Put? && Ended(rule, answers, ErrVersion)
    ensures answers == [Some(ErrVersion)]
    ensures Conclusive(trust, put, answers) <==> trust.once
  {
    if trust.once {
      forall reqs, places | Possible(trust, reqs, put, answers, places)
        ensures NothingWritten(reqs, places)
      {
        assert AnsweredAt(reqs, places[0], answers[0].value);
      }
    } else {
      var reqs, places := Twice(put), [{put.version, put.version + 1}];
      TwiceWrites(put);
      assert AnsweredAt(reqs, places[0], ErrVersion);
      assert Possible(trust, reqs, put, answers, places);
      assert Wrote(reqs, places, 0, put.version);
    }
  }

  /** The last attempt ran first, and attempt i ran when its version had become current. */
  function LatePlaces(n: nat, i: nat, put: Request): (places: seq<set<nat>>)
    requires i < n - 1 && put.Put?
    ensures |places| == n
  {
    seq(n, j => if j == i then {put.version + 1} else if j == n - 1 then {0} else {})
  }

  lemma LateIsPossible(rule: Rule, put: Request, answers: seq<Option<Err>>, i: nat, trust: Trust)
    requires put.Put? && put.version > 0 && Ended(rule, answers, ErrNoKey) && i < |answers| - 1
    requires trust.refusals ==> !Refusal(answers[i])
    ensures !Conclusive(trust, put, answers)
  {
    var reqs, places := LateCopy(put), LatePlaces(|answers|, i, put);
    LateCopyWrites(put);
    assert 0 in places[|answers| - 1];
    assert AnsweredAt(reqs, places[|answers| - 1], ErrNoKey);
    forall j | 0 <= j < |answers| && answers[j].Some? && answers[j].value in {OK, ErrVersion, ErrNoKey}
      ensures AnsweredAt(reqs, places[j], answers[j].value)
    {
      assert j < |answers| - 1 ==> !Final(rule, answers[j]);
    }
    assert Possible(trust, reqs, put, answers, places);
    assert Wrote(reqs, places, i, put.version + 1);
  }

  /** Attempts before the last that cannot run leave nothing to write. */
  lemma NoKeyAlone(rule: Rule, put: Request, answers: seq<Option<Err>>, trust: Trust)
    requires put.Put? && Ended(rule, answers, ErrNoKey) && trust.once
    requires put.version == 0 || |answers| == 1 || (trust.refusals && forall i :: 0 <= i < |answers| - 1 ==> Refusal(answers[i]))
    ensures Conclusive(trust, put, answers)
  {
    var last := |answers| - 1;
    forall reqs, places | Possible(trust, reqs, put, answers, places)
      ensures NothingWritten(reqs, places)
    {
      assert AnsweredAt(reqs, places[last], ErrNoKey);
      var p: nat :| p in places[last] && p < |reqs| && AnswerOf(map[], reqs, p) == PutReply(ErrNoKey);
      WriteIsTold(reqs, p);
      forall i: nat, q: nat
        ensures !Wrote(reqs, places, i, q)
      {
        assert i < last && i < |places| && trust.refusals && Refusal(answers[i]) ==> places[i] == {};
      }
    }
  }

  /**
   When ErrNoKey means that the write never happens, with calls that run at most once. Not knowing what refusals mean:
   exactly if there was one attempt, or the version is 0, which is never told ErrNoKey. Trusting refusals: exactly if
   every earlier attempt was refused, or the version is 0. The clerks of the replicated and of the sharded store report
   ErrNoKey in all cases.
   */
  lemma NoKeyConclusive(rule: Rule, put: Request, answers: seq<Option<Err>>)
    requires put.Put? && Ended(rule, answers, ErrNoKey)
    ensures Conclusive(Trust(true, false), put, answers) <==> |answers| == 1 || put.version == 0
    ensures Conclusive(Trust(true, true), put, answers) <==>
              put.version == 0 || forall i :: 0 <= i < |answers| - 1 ==> Refusal(answers[i])
  {
    if |answers| == 1 || put.version == 0 {
      NoKeyAlone(rule, put, answers, Trust(true, false));
    } else {
      LateIsPossible(rule, put, answers, 0, Trust(true, false));
    }
    if put.version == 0 || forall i :: 0 <= i < |answers| - 1 ==> Refusal(answers[i]) {
      NoKeyAlone(rule, put, answers, Trust(true, true));
    } else {
      var i: nat :| i < |answers| - 1 && !Refusal(answers[i]);
      LateIsPossible(rule, put, answers, i, Trust(true, true));
    }
  }

  /** An input: the first attempt got no answer, the second ErrNoKey, and both clerks report that. */
  lemma NoKeyAfterResend(rule: Rule)
    requires rule != Single
    ensures var put, answers := Put("x", "b", 1), [None, Some(ErrNoKey)];
            Told(rule, answers, Some(ErrNoKey)) && !Conclusive(Trust(true, true), put, answers)
  {
    var put, answers := Put("x", "b", 1), [None, Some(ErrNoKey)];
    assert EndsAt(rule, answers, 1);
    assert !Refusal(answers[0]);
    NoKeyConclusive(rule, put, answers);
  }

  /** The answers after which a clerk tries again. */
  predicate Inconclusive(rule: Rule, answer: Option<Err>) {
    || answer.None?
    || (rule.Replicated? && answer.value !in {OK, ErrVersion, ErrNoKey})
    || (rule.Sharded? && answer.value in {ErrWrongLeader, ErrWrongGroup, ErrFrozen})
  }

  /** The first answer that is not of that kind is what the caller is told, but for what a resend makes of it. */
  lemma ToldExactly(rule: Rule, answers: seq<Option<Err>>, k: nat, told: Option<Err>)
    requires k < |answers| && !Inconclusive(rule, answers[k]) && forall i :: 0 <= i < k ==> Inconclusive(rule, answers[i])
    ensures var err := answers[k].value;
            Told(rule, answers, told) <==>
              told == Some(if k > 0 && (rule.Single? || err == ErrVersion) then ErrMaybe else err)
  {
    assert EndsAt(rule, answers, k);
    if told.None? {
      assert Final(rule, answers[k]);
    } else if Told(rule, answers, told) {
      var l: nat :| EndsAt(rule, answers, l) && told.value == Verdict(rule, l, answers[l].value);
      assert l == k;
    }
  }

  /** The single server's clerk says OK exactly when its first attempt was answered OK. */
  lemma SingleToldOk(answers: seq<Option<Err>>)
    ensures Told(Single, answers, Some(OK)) <==> |answers| > 0 && answers[0] == Some(OK)
    ensures Told(Single, [None, Some(OK)], Some(ErrMaybe))
  {
    if |answers| > 0 && answers[0] == Some(OK) {
      assert EndsAt(Single, answers, 0);
    }
    assert EndsAt(Single, [None, Some(OK)], 1);
  }

  /** Its verdict is the one its comment promises exactly for a first attempt, or an answer that becomes ErrMaybe anyway. */
  lemma SingleKeepsPromise(k: nat, err: Err)
    ensures Verdict(Single, k, err) == Verdict(Replicated, k, err) <==> k == 0 || err in {ErrVersion, ErrMaybe}
  {
  }
}
