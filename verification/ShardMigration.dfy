/**
 Every step of groups, controllers and clients keeps the migration invariant, shard by shard. A request in flight
 belongs to a target: if that target is published the request can no longer change anything, and if it is the pending
 one the request finds the shard at a stage of its move where its effect is the next stage, or nothing.
 */
module ShardMigration {
  import opened KvStore
  import opened KvHistory
  import opened ShardTypes
  import opened ShardSystem
  import opened ShardInvariant

  // ---------------------------------------------------------------- what is left alone

  /** s' is s with another state for one shard at one group, and possibly more packets. */
  ghost predicate Updated(s: System, s': System, g: nat, x: nat, st: ShardState)
    requires ConfigsOk(s) && ConfigsOk(s') && g in s.groups && x < NSHARDS
  {
    && s'.hash == s.hash && s'.configs == s.configs && s'.published == s.published && s'.groups.Keys == s.groups.Keys
    && At(s', g, x) == st && s.net <= s'.net
    && (forall h, y: nat {:trigger At(s', h, y)} :: h in s.groups && y < NSHARDS && (h != g || y != x) ==> At(s', h, y) == At(s, h, y))
  }

  /** The shard looks the same at every group. */
  ghost predicate SameShard(s: System, s': System, x: nat)
    requires ConfigsOk(s) && ConfigsOk(s') && x < NSHARDS
  {
    && s'.hash == s.hash && s'.configs == s.configs && s'.published == s.published && s'.groups.Keys == s.groups.Keys
    && forall g {:trigger At(s', g, x)} :: g in s.groups ==> At(s', g, x) == At(s, g, x)
  }

  lemma SamePacket(s: System, s': System, x: nat, store: Store, p: Packet)
    requires ConfigsOk(s) && ConfigsOk(s') && x < NSHARDS && SameShard(s, s', x) && PacketOk(s, x, store, p)
    ensures PacketOk(s', x, store, p)
  {
  }

  lemma SameShardInv(s: System, s': System, x: nat, store: Store)
    requires ConfigsOk(s) && ConfigsOk(s') && x < NSHARDS && SameShard(s, s', x) && ShardInv(s, x, store)
    requires forall p :: p in s'.net ==> p in s.net || PacketOk(s', x, store, p)
    ensures ShardInv(s', x, store)
  {
    forall p | p in s'.net
      ensures PacketOk(s', x, store, p)
    {
      if p in s.net {
        SamePacket(s, s', x, store, p);
      }
    }
    forall j: nat | 1 <= j <= s'.published
      ensures Over(s', x, j)
    {
      assert Over(s, x, j);
    }
  }

  /** The current move, if there is one, has not lost what it had reached. */
  ghost predicate Onward(s: System, s': System, x: nat)
    requires ConfigsOk(s) && ConfigsOk(s') && x < NSHARDS && s'.configs == s.configs && s'.published == s.published
  {
    s.published < Last(s) ==>
      var j := Last(s);
      && (OldState(s, x, j).highest == Num(s, j) ==> OldState(s', x, j).highest == Num(s, j))
      && (NewState(s, x, j).owned ==> NewState(s', x, j).owned)
      && (NewState(s, x, j).owned && !OldState(s, x, j).owned ==> !OldState(s', x, j).owned)
  }

  lemma PacketOnward(s: System, s': System, x: nat, store: Store, p: Packet)
    requires ConfigsOk(s) && ConfigsOk(s') && x < NSHARDS
    requires s'.configs == s.configs && s'.published == s.published && s'.hash == s.hash
    requires Onward(s, s', x) && PacketOk(s, x, store, p)
    ensures PacketOk(s', x, store, p)
  {
  }

  /** A group's state for a shard changes only upwards, or beyond everything published. */
  predicate Later(st: ShardState, st': ShardState, cur: nat) {
    || st' == st || st'.highest > st.highest || (st'.highest == st.highest && st.highest > cur)
    || (st'.highest == st.highest && st'.owned == st.owned)
  }

  lemma OverLater(s: System, s': System, g: nat, x: nat, st: ShardState)
    requires ConfigsOk(s) && ConfigsOk(s') && g in s.groups && x < NSHARDS && Updated(s, s', g, x, st)
    requires AllOver(s, x) && Later(At(s, g, x), st, Num(s, s.published))
    ensures AllOver(s', x)
  {
    forall j: nat | 1 <= j <= s'.published
      ensures Over(s', x, j)
    {
      assert Over(s, x, j);
      assert Num(s, j) <= Num(s, s.published);
    }
  }

  // ---------------------------------------------------------------- a group handles a request

  /** What handling one migration request leaves behind. */
  ghost predicate Handled(s: System, s': System, g: nat, x: nat, store: Store, st: ShardState)
    requires ConfigsOk(s) && ConfigsOk(s') && g in s.groups && x < NSHARDS && Updated(s, s', g, x, st)
  {
    ShardOk(s', x, store) && Onward(s, s', x) && Later(At(s, g, x), st, Num(s, s.published))
  }

  lemma FreezeHandled(s: System, s': System, g: nat, x: nat, store: Store, j: nat, num: nat)
    requires ConfigsOk(s) && ConfigsOk(s') && g in s.groups && x < NSHARDS && ShardInv(s, x, store)
    requires CallOk(s, x, store, g, j, Freeze(x, num))
    requires Updated(s, s', g, x, OnFreeze(At(s, g, x), num).0)
    ensures Handled(s, s', g, x, store, OnFreeze(At(s, g, x), num).0)
    ensures DoneOk(s', x, store, j, Freeze(x, num), OnFreeze(At(s, g, x), num).1)
  {
    if j <= s.published {
      assert Over(s, x, j);
      assert At(s', g, x) == At(s, g, x);
    } else {
      assert j == Last(s) && g == Owner(s, s.published, x);
    }
  }

  lemma InstallHandled(s: System, s': System, g: nat, x: nat, store: Store, j: nat, num: nat, state: Option<Store>)
    requires ConfigsOk(s) && ConfigsOk(s') && g in s.groups && x < NSHARDS && ShardInv(s, x, store)
    requires CallOk(s, x, store, g, j, Install(x, num, state))
    requires Updated(s, s', g, x, OnInstall(At(s, g, x), num, state).0)
    ensures Handled(s, s', g, x, store, OnInstall(At(s, g, x), num, state).0)
    ensures DoneOk(s', x, store, j, Install(x, num, state), OnInstall(At(s, g, x), num, state).1)
  {
    if j <= s.published {
      assert Over(s, x, j);
      assert At(s', g, x) == At(s, g, x);
    } else {
      assert j == Last(s) && g == Owner(s, Last(s), x);
    }
  }

  lemma DeleteHandled(s: System, s': System, g: nat, x: nat, store: Store, j: nat, num: nat)
    requires ConfigsOk(s) && ConfigsOk(s') && g in s.groups && x < NSHARDS && ShardInv(s, x, store)
    requires CallOk(s, x, store, g, j, Delete(x, num))
    requires Updated(s, s', g, x, OnDelete(At(s, g, x), num).0)
    ensures Handled(s, s', g, x, store, OnDelete(At(s, g, x), num).0)
    ensures DoneOk(s', x, store, j, Delete(x, num), OnDelete(At(s, g, x), num).1)
  {
    if j <= s.published {
      assert Over(s, x, j);
      assert At(s', g, x) == At(s, g, x);
    } else {
      assert j == Last(s) && g == Owner(s, s.published, x);
    }
  }

  lemma OpHandled(s: System, s': System, x: nat, store: Store, call: Packet)
    requires ConfigsOk(s) && ConfigsOk(s') && x < NSHARDS && ShardInv(s, x, store)
    requires call in s.net && call.Call? && call.to in s.groups && OpShard(s.hash, call.op) == x
    requires Updated(s, s', call.to, x, OnShard(At(s, call.to, x), call.op).0)
    requires s'.net == s.net + {Done(call.to, call.target, call.op, OnShard(At(s, call.to, x), call.op).1)}
    ensures ShardInv(s', x, store)
  {
    var st := OnShard(At(s, call.to, x), call.op).0;
    assert PacketOk(s, x, store, call);
    match call.op {
      case Freeze(_, num) => FreezeHandled(s, s', call.to, x, store, call.target, num);
      case Install(_, num, state) => InstallHandled(s, s', call.to, x, store, call.target, num, state);
      case Delete(_, num) => DeleteHandled(s, s', call.to, x, store, call.target, num);
    }
    OverLater(s, s', call.to, x, st);
    PacketOnward(s, s', x, store, call);
    forall p | p in s'.net
      ensures PacketOk(s', x, store, p)
    {
      if p in s.net {
        PacketOnward(s, s', x, store, p);
      }
    }
  }

  // ---------------------------------------------------------------- a group serves a client

  /** A group that answers is the one server of the shard, and holds exactly the shard's part of the map. */
  lemma ServerHolds(s: System, x: nat, store: Store, g: nat)
    requires ConfigsOk(s) && x < NSHARDS && g in s.groups && ShardInv(s, x, store)
    requires At(s, g, x).owned && !At(s, g, x).frozen
    ensures At(s, g, x).store == store
    ensures forall h :: h in s.groups && At(s, h, x).owned && !At(s, h, x).frozen ==> h == g
    ensures s.published < Last(s) && MovesAt(s, x, Last(s)) ==>
              OldState(s, x, Last(s)).highest != Num(s, Last(s)) || NewState(s, x, Last(s)).owned
  {
  }

  lemma ServedPacket(s: System, s': System, x: nat, store: Store, store': Store, g: nat, p: Packet)
    requires ConfigsOk(s) && ConfigsOk(s') && x < NSHARDS && g in s.groups && ShardInv(s, x, store)
    requires At(s, g, x).owned && !At(s, g, x).frozen
    requires Updated(s, s', g, x, At(s, g, x).(store := store'))
    requires p in s.net
    ensures PacketOk(s', x, store', p)
  {
    ServerHolds(s, x, store, g);
    assert PacketOk(s, x, store, p);
    match p
    case Call(to, j, op) =>
      if OpShard(s.hash, op) == x {
        ServedCall(s, s', x, store, store', to, j, op);
      }
    case Done(from, j, op, reply) =>
      if OpShard(s.hash, op) == x {
        ServedCall(s, s', x, store, store', from, j, op);
        ServedDone(s, s', x, store, store', j, op, reply);
      }
    case _ =>
  }

  /** A shard that serves is not on its way frozen; nothing about its move changes but what is in it. */
  ghost predicate ServesOn(s: System, s': System, x: nat)
    requires ConfigsOk(s) && ConfigsOk(s') && x < NSHARDS
  {
    && s'.configs == s.configs && s'.published == s.published
    && (s.published < Last(s) && MovesAt(s, x, Last(s)) ==>
          var j := Last(s);
          && (OldState(s, x, j).highest != Num(s, j) || NewState(s, x, j).owned)
          && OldState(s', x, j).highest == OldState(s, x, j).highest && OldState(s', x, j).owned == OldState(s, x, j).owned
          && NewState(s', x, j).owned == NewState(s, x, j).owned)
  }

  lemma ServedCall(s: System, s': System, x: nat, store: Store, store': Store, to: nat, j: nat, op: ShardOp)
    requires ConfigsOk(s) && ConfigsOk(s') && x < NSHARDS && ServesOn(s, s', x) && CallOk(s, x, store, to, j, op)
    ensures CallOk(s', x, store', to, j, op)
  {
  }

  lemma ServedDone(s: System, s': System, x: nat, store: Store, store': Store, j: nat, op: ShardOp, reply: ShardReply)
    requires ConfigsOk(s) && ConfigsOk(s') && x < NSHARDS && ServesOn(s, s', x) && MovesAt(s, x, j)
    requires DoneOk(s, x, store, j, op, reply)
    ensures MovesAt(s', x, j) && DoneOk(s', x, store', j, op, reply)
  {
  }

  lemma ServedShard(s: System, s': System, x: nat, store: Store, store': Store, g: nat)
    requires ConfigsOk(s) && ConfigsOk(s') && x < NSHARDS && g in s.groups && ShardInv(s, x, store)
    requires At(s, g, x).owned && !At(s, g, x).frozen
    requires Updated(s, s', g, x, At(s, g, x).(store := store')) && s'.net == s.net
    ensures ShardInv(s', x, store')
  {
    ServerHolds(s, x, store, g);
    OverLater(s, s', g, x, At(s, g, x).(store := store'));
    forall p | p in s'.net
      ensures PacketOk(s', x, store', p)
    {
      ServedPacket(s, s', x, store, store', g, p);
    }
  }

  function Abs(s: System): Store {
    Run(map[], Requests(s.history))
  }

  /** A longer history is explained when its last answer is the single map's. */
  lemma HistoryGrows(history: seq<(Request, Reply)>, req: Request, reply: Reply)
    requires Explained(history) && reply == Answer(Run(map[], Requests(history)), req)
    ensures Explained(history + [(req, reply)])
    ensures Run(map[], Requests(history + [(req, reply)])) == Apply(Run(map[], Requests(history)), req)
  {
    var longer := history + [(req, reply)];
    var reqs, n := Requests(longer), |history|;
    assert reqs[..n] == Requests(history) && reqs[..n + 1] == reqs;
    RunSplit(map[], reqs, n);
    forall i | 0 <= i < |longer|
      ensures longer[i].1 == AnswerOf(map[], reqs, i)
    {
      if i < n {
        assert history[i].1 == AnswerOf(map[], Requests(history), i);
        assert reqs[..i] == Requests(history)[..i];
      }
    }
  }

  /** Groups keep their shape under any step that only changes shards in place. */
  lemma ConfigsKept(s: System, s': System)
    requires ConfigsOk(s) && s'.configs == s.configs && s'.published == s.published && s'.groups.Keys == s.groups.Keys
    requires forall g {:trigger s'.groups[g]} :: g in s'.groups ==> |s'.groups[g]| == NSHARDS
    ensures ConfigsOk(s')
  {
  }

  /** Plans and publish requests depend on nothing that groups do. */
  lemma PlansKept(s: System, s': System, p: Packet)
    requires ConfigsOk(s) && ConfigsOk(s') && s'.configs == s.configs && s'.published == s.published && s'.version == s.version
    requires s.net <= s'.net && PlanOk(s, p)
    ensures PlanOk(s', p)
  {
    if p.PublishCall? {
      forall x: nat | x < NSHARDS
        ensures Through(s', p.target, x)
      {
        assert Through(s, p.target, x);
        var i: nat :| ShardDone(s, p.target, x, i);
        assert ShardDone(s', p.target, x, i);
      }
    }
  }

  /** The answer a group gives, and the shard it answers from. */
  lemma Serves(s: System, abs: Store, g: nat, req: Request)
    requires Inv(s, abs) && g in s.groups
    ensures var x := KeyShard(s.hash, req.key);
            var st := At(s, g, x);
            Definite(OnClient(st, req).1) <==> st.owned && !st.frozen
    ensures var x := KeyShard(s.hash, req.key);
            Definite(OnClient(At(s, g, x), req).1) ==>
              && OnClient(At(s, g, x), req).1 == Answer(abs, req)
              && OnClient(At(s, g, x), req).0 == At(s, g, x).(store := Part(s.hash, Apply(abs, req), x))
    ensures var x := KeyShard(s.hash, req.key);
            !Definite(OnClient(At(s, g, x), req).1) ==> OnClient(At(s, g, x), req).0 == At(s, g, x)
  {
    var x := KeyShard(s.hash, req.key);
    assert ShardInv(s, x, Part(s.hash, abs, x));
    PartApply(s.hash, abs, req, x);
    if At(s, g, x).owned && !At(s, g, x).frozen {
      ServerHolds(s, x, Part(s.hash, abs, x), g);
    }
  }

  lemma RefusedUnchanged(s: System, abs: Store, g: nat, req: Request)
    requires Inv(s, abs) && CanStep(s, Serve(g, req))
    requires !Definite(OnClient(At(s, g, KeyShard(s.hash, req.key)), req).1)
    ensures After(s, Serve(g, req)) == s
  {
    Serves(s, abs, g, req);
    var x := KeyShard(s.hash, req.key);
    assert s.groups[g][x := s.groups[g][x]] == s.groups[g];
    assert s.groups[g := s.groups[g]] == s.groups;
  }

  lemma ServeStep(s: System, abs: Store, g: nat, req: Request)
    requires Inv(s, abs) && CanStep(s, Serve(g, req))
    requires Definite(OnClient(At(s, g, KeyShard(s.hash, req.key)), req).1)
    ensures Inv(After(s, Serve(g, req)), Apply(abs, req))
  {
    var s', z := After(s, Serve(g, req)), KeyShard(s.hash, req.key);
    var abs' := Apply(abs, req);
    Serves(s, abs, g, req);
    ConfigsKept(s, s');
    HistoryGrows(s.history, req, Answer(abs, req));
    var st := At(s, g, z).(store := Part(s.hash, abs', z));
    assert Updated(s, s', g, z, st);
    forall x: nat | x < NSHARDS
      ensures ShardInv(s', x, Part(s'.hash, abs', x))
    {
      ServedShards(s, s', abs, g, req, x);
    }
    forall p | p in s'.net
      ensures PlanOk(s', p)
    {
      PlansKept(s, s', p);
    }
  }

  lemma ServedShards(s: System, s': System, abs: Store, g: nat, req: Request, x: nat)
    requires Inv(s, abs) && ConfigsOk(s') && g in s.groups && x < NSHARDS && s'.net == s.net
    requires var z := KeyShard(s.hash, req.key);
             && At(s, g, z).owned && !At(s, g, z).frozen
             && Updated(s, s', g, z, At(s, g, z).(store := Part(s.hash, Apply(abs, req), z)))
    ensures ShardInv(s', x, Part(s'.hash, Apply(abs, req), x))
  {
    var z := KeyShard(s.hash, req.key);
    assert ShardInv(s, x, Part(s.hash, abs, x));
    PartApply(s.hash, abs, req, x);
    if x == z {
      ServedShard(s, s', x, Part(s.hash, abs, x), Part(s.hash, Apply(abs, req), x), g);
    } else {
      SameShardInv(s, s', x, Part(s.hash, abs, x));
    }
  }

  // ---------------------------------------------------------------- the other steps

  lemma HandleStep(s: System, abs: Store, call: Packet)
    requires Inv(s, abs) && CanStep(s, Handle(call))
    ensures Inv(After(s, Handle(call)), abs)
  {
    var s', z := After(s, Handle(call)), OpShard(s.hash, call.op);
    ConfigsKept(s, s');
    var st := OnShard(At(s, call.to, z), call.op).0;
    assert Updated(s, s', call.to, z, st);
    forall x: nat | x < NSHARDS
      ensures ShardInv(s', x, Part(s'.hash, abs, x))
    {
      assert ShardInv(s, x, Part(s.hash, abs, x));
      if x == z {
        OpHandled(s, s', x, Part(s.hash, abs, x), call);
      } else {
        SameShardInv(s, s', x, Part(s.hash, abs, x));
      }
    }
    forall p | p in s'.net
      ensures PlanOk(s', p)
    {
      if p in s.net {
        PlansKept(s, s', p);
      }
    }
  }

  /** A controller, or a stale copy of one, adds a packet that its knowledge allows. */
  lemma SendStep(s: System, abs: Store, p: Packet)
    requires Inv(s, abs) && PlanOk(s, p)
    requires forall x: nat :: x < NSHARDS ==> PacketOk(s, x, Part(s.hash, abs, x), p)
    ensures Inv(Sent(s, p), abs)
  {
    var s' := Sent(s, p);
    ConfigsKept(s, s');
    forall x: nat | x < NSHARDS
      ensures ShardInv(s', x, Part(s'.hash, abs, x))
    {
      assert ShardInv(s, x, Part(s.hash, abs, x));
      SamePacket(s, s', x, Part(s.hash, abs, x), p);
      SameShardInv(s, s', x, Part(s.hash, abs, x));
    }
    forall q | q in s'.net
      ensures PlanOk(s', q)
    {
      PlansKept(s, s', q);
    }
  }

  lemma AskStep(s: System, abs: Store, j: nat)
    requires Inv(s, abs) && CanStep(s, Ask(j))
    ensures Inv(After(s, Ask(j)), abs)
  {
    assert j == s.published + 1;
    SendStep(s, abs, Plan(j, s.published));
  }

  lemma SendFreezeStep(s: System, abs: Store, j: nat, i: nat, x: nat)
    requires Inv(s, abs) && CanStep(s, SendFreeze(j, i, x))
    ensures Inv(After(s, SendFreeze(j, i, x)), abs)
  {
    assert PlanOk(s, Plan(j, i));
    SendStep(s, abs, Call(Owner(s, i, x), j, Freeze(x, Num(s, j))));
  }

  lemma SendInstallStep(s: System, abs: Store, j: nat, i: nat, x: nat, d: Packet)
    requires Inv(s, abs) && CanStep(s, SendInstall(j, i, x, d))
    ensures Inv(After(s, SendInstall(j, i, x, d)), abs)
  {
    var store := Part(s.hash, abs, x);
    assert PlanOk(s, Plan(j, i));
    assert ShardInv(s, x, store);
    assert PacketOk(s, x, store, d);
    SendStep(s, abs, Call(Owner(s, j, x), j, Install(x, Num(s, j), d.reply.state)));
  }

  lemma SendDeleteStep(s: System, abs: Store, j: nat, i: nat, x: nat, d: Packet)
    requires Inv(s, abs) && CanStep(s, SendDelete(j, i, x, d))
    ensures Inv(After(s, SendDelete(j, i, x, d)), abs)
  {
    var store := Part(s.hash, abs, x);
    assert PlanOk(s, Plan(j, i));
    assert ShardInv(s, x, store);
    assert PacketOk(s, x, store, d);
    SendStep(s, abs, Call(Owner(s, i, x), j, Delete(x, Num(s, j))));
  }

  lemma SendPublishStep(s: System, abs: Store, j: nat)
    requires Inv(s, abs) && CanStep(s, SendPublish(j))
    ensures Inv(After(s, SendPublish(j)), abs)
  {
    SendStep(s, abs, PublishCall(j, s.version));
  }

  /** Once target j is through with a shard, the new owner serves it and the old one is done with it. */
  lemma ThroughMeansMoved(s: System, abs: Store, j: nat, x: nat)
    requires Inv(s, abs) && x < NSHARDS && j == Last(s) == s.published + 1 && Through(s, j, x)
    ensures Serving(NewState(s, x, j), Part(s.hash, abs, x)) && NewState(s, x, j).highest <= Num(s, j)
    ensures Over(s, x, j)
    ensures OldState(s, x, j) == NewState(s, x, j) || Idle(OldState(s, x, j), Num(s, j))
  {
    var store := Part(s.hash, abs, x);
    assert ShardInv(s, x, store);
    var i: nat :| ShardDone(s, j, x, i);
    assert PlanOk(s, Plan(j, i));
    if Owner(s, i, x) != Owner(s, j, x) {
      var d := Done(Owner(s, i, x), j, Delete(x, Num(s, j)), DeleteReply(OK));
      assert PacketOk(s, x, store, d);
    }
  }

  lemma PublishedPacket(s: System, s': System, x: nat, store: Store, p: Packet)
    requires ConfigsOk(s) && ConfigsOk(s') && x < NSHARDS && PacketOk(s, x, store, p)
    requires s.published + 1 == Last(s) && s' == s.(published := Last(s), version := s.version + 1, net := s'.net)
    ensures PacketOk(s', x, store, p)
  {
  }

  /** Publishing the target leaves one settled server. */
  lemma PublishedShard(s: System, s': System, abs: Store, j: nat, x: nat)
    requires Inv(s, abs) && ConfigsOk(s') && x < NSHARDS && j == Last(s) == s.published + 1 && Through(s, j, x)
    requires exists v :: s' == s.(published := j, version := s.version + 1, net := s.net + {PublishDone(j, v)})
    ensures ShardInv(s', x, Part(s.hash, abs, x))
  {
    var store := Part(s.hash, abs, x);
    assert ShardInv(s, x, store);
    assert forall g {:trigger At(s', g, x)} :: g in s.groups ==> At(s', g, x) == At(s, g, x);
    ThroughMeansMoved(s, abs, j, x);
    forall k: nat | 1 <= k <= s'.published
      ensures Over(s', x, k)
    {
      assert Over(s, x, k);
    }
    forall p | p in s'.net
      ensures PacketOk(s', x, store, p)
    {
      if p in s.net {
        assert PacketOk(s, x, store, p);
        PublishedPacket(s, s', x, store, p);
      }
    }
  }

  lemma PublishStep(s: System, abs: Store, call: Packet)
    requires Inv(s, abs) && CanStep(s, Publish(call))
    ensures Inv(After(s, Publish(call)), abs)
  {
    assert PlanOk(s, call);
    if call.version == s.version {
      var s', j := After(s, Publish(call)), call.target;
      assert j == s.published + 1;
      forall x: nat | x < NSHARDS
        ensures ShardInv(s', x, Part(s'.hash, abs, x))
      {
        assert Through(s, j, x);
        PublishedShard(s, s', abs, j, x);
      }
      forall p | p in s'.net
        ensures PlanOk(s', p)
      {
        if p in s.net {
          assert PlanOk(s, p);
          if p.PublishCall? {
            DoneKept(s, s', p.target);
          }
        }
      }
    }
  }

  lemma DoneKept(s: System, s': System, j: nat)
    requires Shaped(s) && Shaped(s') && s.net <= s'.net && s.configs <= s'.configs && j < |s.configs| && AllDone(s, j)
    ensures AllDone(s', j)
  {
    forall x: nat | x < NSHARDS
      ensures Through(s', j, x)
    {
      assert Through(s, j, x);
      var i: nat :| ShardDone(s, j, x, i);
      assert ShardDone(s', j, x, i);
    }
  }

  lemma TargetPacket(s: System, s': System, x: nat, store: Store, p: Packet)
    requires ConfigsOk(s) && ConfigsOk(s') && x < NSHARDS && s.published == Last(s) && PacketOk(s, x, store, p)
    requires exists c :: s' == s.(configs := s.configs + [c])
    ensures PacketOk(s', x, store, p)
  {
  }

  lemma TargetShard(s: System, s': System, x: nat, store: Store, config: Config)
    requires ConfigsOk(s) && ConfigsOk(s') && x < NSHARDS && s.published == Last(s) && ShardInv(s, x, store)
    requires s' == s.(configs := s.configs + [config])
    ensures ShardInv(s', x, store)
  {
    assert forall g {:trigger At(s', g, x)} :: g in s.groups ==> At(s', g, x) == At(s, g, x);
    assert At(s', Owner(s', Last(s'), x), x) == At(s, Owner(s', Last(s'), x), x);
    forall j: nat | 1 <= j <= s'.published
      ensures Over(s', x, j)
    {
      assert Over(s, x, j);
    }
    forall p | p in s'.net
      ensures PacketOk(s', x, store, p)
    {
      TargetPacket(s, s', x, store, p);
    }
  }

  lemma TargetStep(s: System, abs: Store, config: Config)
    requires Inv(s, abs) && CanStep(s, NewTarget(config))
    ensures Inv(After(s, NewTarget(config)), abs)
  {
    var s' := After(s, NewTarget(config));
    forall i, x | 0 <= i < |s'.configs| && 0 <= x < NSHARDS
      ensures s'.configs[i].owner[x] in s'.groups
    {
      assert i < |s.configs| ==> s.configs[i].owner[x] in s.groups;
    }
    forall i, j | 0 <= i < j < |s'.configs|
      ensures s'.configs[i].num < s'.configs[j].num
    {
      assert i < Last(s) ==> s.configs[i].num < s.configs[Last(s)].num;
    }
    forall x: nat | x < NSHARDS
      ensures ShardInv(s', x, Part(s'.hash, abs, x))
    {
      assert ShardInv(s, x, Part(s.hash, abs, x));
      TargetShard(s, s', x, Part(s.hash, abs, x), config);
    }
    forall p | p in s'.net
      ensures PlanOk(s', p)
    {
      assert PlanOk(s, p);
      if p.PublishCall? {
        DoneKept(s, s', p.target);
      }
    }
  }

  // ---------------------------------------------------------------- every step, every run

  /** The map after a step: a definite answer applies its request, everything else leaves it. */
  lemma InvPreserved(s: System, abs: Store, step: Step) returns (abs': Store)
    requires Inv(s, abs) && CanStep(s, step)
    ensures Inv(After(s, step), abs')
  {
    abs' := abs;
    match step {
      case Serve(g, req) =>
        if Definite(OnClient(At(s, g, KeyShard(s.hash, req.key)), req).1) {
          ServeStep(s, abs, g, req);
          abs' := Apply(abs, req);
        } else {
          RefusedUnchanged(s, abs, g, req);
        }
      case Handle(call) => HandleStep(s, abs, call);
      case Ask(j) => AskStep(s, abs, j);
      case SendFreeze(j, i, x) => SendFreezeStep(s, abs, j, i, x);
      case SendInstall(j, i, x, d) => SendInstallStep(s, abs, j, i, x, d);
      case SendDelete(j, i, x, d) => SendDeleteStep(s, abs, j, i, x, d);
      case SendPublish(j) => SendPublishStep(s, abs, j);
      case Publish(call) => PublishStep(s, abs, call);
      case NewTarget(config) => TargetStep(s, abs, config);
    }
  }

  lemma BootInv(hash: string -> nat, gids: set<nat>, num: nat)
    requires GID1 in gids
    ensures Inv(Boot(hash, gids, num), map[])
  {
    var s := Boot(hash, gids, num);
    assert Requests(s.history) == [];
    forall x: nat | x < NSHARDS
      ensures ShardInv(s, x, Part(hash, map[], x))
    {
      assert Part(hash, map[], x) == map[];
    }
  }

  lemma {:induction false} TraceInv(s: System, abs: Store, steps: seq<Step>) returns (abs': Store)
    requires Inv(s, abs) && Legal(s, steps)
    ensures Inv(Trace(s, steps), abs')
    decreases |steps|
  {
    abs' := abs;
    if |steps| > 0 {
      var m := InvPreserved(s, abs, steps[0]);
      abs' := TraceInv(After(s, steps[0]), m, steps[1..]);
    }
  }

  lemma ReachableInv(s: System) returns (abs: Store)
    requires Reachable(s)
    ensures Inv(s, abs) && abs == Abs(s)
  {
    var hash, gids, num, steps :|
      GID1 in gids && 0 !in gids && Legal(Boot(hash, gids, num), steps) && Trace(Boot(hash, gids, num), steps) == s;
    BootInv(hash, gids, num);
    abs := TraceInv(Boot(hash, gids, num), map[], steps);
  }
}
