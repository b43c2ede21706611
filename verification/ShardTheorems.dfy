/** The sharded store in every reachable state of every migration. */
module ShardTheorems {
  import opened KvStore
  import opened ShardTypes
  import opened ShardRules
  import opened ShardSystem
  import opened ShardInvariant
  import opened ShardMigration

  /** Over every run, all definite answers of all groups together are those of one versioned map. */
  lemma OneMap(s: System)
    requires Reachable(s)
    ensures Explained(s.history)
  {
    var abs := ReachableInv(s);
  }

  /**
   A group asked for a key gives the single map's answer and makes its change, or refuses and changes nothing; it
   answers exactly when it owns the shard and has not frozen it.
   */
  lemma AnswersAreTheMaps(s: System, g: nat, req: Request)
    requires Reachable(s) && CanStep(s, Serve(g, req))
    ensures var st, s' := s.groups[g][KeyShard(s.hash, req.key)], After(s, Serve(g, req));
            var reply := OnClient(st, req).1;
            if st.owned && !st.frozen then reply == Answer(Abs(s), req) && Abs(s') == Apply(Abs(s), req)
            else reply.err in {ErrFrozen, ErrWrongGroup} && s' == s
  {
    var abs := ReachableInv(s);
    Serves(s, abs, g, req);
    if Definite(OnClient(At(s, g, KeyShard(s.hash, req.key)), req).1) {
      ServeStep(s, abs, g, req);
    } else {
      RefusedUnchanged(s, abs, g, req);
    }
  }

  /** At most one group serves a shard. */
  lemma SingleServer(s: System, x: nat, g: nat, h: nat)
    requires Reachable(s) && x < NSHARDS && g in s.groups && h in s.groups
    ensures |s.groups[g]| == |s.groups[h]| == NSHARDS
    ensures s.groups[g][x].owned && !s.groups[g][x].frozen && s.groups[h][x].owned && !s.groups[h][x].frozen ==> g == h
  {
    var abs := ReachableInv(s);
    assert ShardInv(s, x, Part(s.hash, abs, x));
    if At(s, g, x).owned && !At(s, g, x).frozen {
      ServerHolds(s, x, Part(s.hash, abs, x), g);
    }
  }

  /** The shard's part of the map is always held by some group. */
  lemma NothingLost(s: System, x: nat) returns (g: nat)
    requires Reachable(s) && x < NSHARDS
    ensures g in s.groups && |s.groups[g]| == NSHARDS
    ensures s.groups[g][x].owned && s.groups[g][x].store == Part(s.hash, Abs(s), x)
  {
    var abs := ReachableInv(s);
    assert ShardInv(s, x, Part(s.hash, abs, x));
    g := Owner(s, Last(s), x);
    if !At(s, g, x).owned {
      g := Owner(s, s.published, x);
    }
  }

  /** When a delete takes a shard from a group, another group already serves it with everything in it. */
  lemma DeletedAfterInstall(s: System, call: Packet)
    requires Reachable(s) && CanStep(s, Handle(call)) && call.op.Delete?
    ensures var x, s' := call.op.shard, After(s, Handle(call));
            s.groups[call.to][x].owned && !s'.groups[call.to][x].owned ==>
              var h := Owner(s, Last(s), x);
              h != call.to && h in s.groups && Serving(At(s, h, x), Part(s.hash, Abs(s), x))
  {
    var abs := ReachableInv(s);
    var x := call.op.shard;
    assert ShardInv(s, x, Part(s.hash, abs, x));
    assert PacketOk(s, x, Part(s.hash, abs, x), call);
    if call.target <= s.published {
      assert Over(s, x, call.target);
    }
  }

  /** A request of a target that is not published yet is answered OK, whichever copy it is, and whoever sent it. */
  lemma PendingIsAnsweredOk(s: System, call: Packet)
    requires Reachable(s) && CanStep(s, Handle(call)) && call.target > s.published
    ensures ErrOf(OnShard(s.groups[call.to][OpShard(s.hash, call.op)], call.op).1) == OK
  {
    var abs := ReachableInv(s);
    var s', x := After(s, Handle(call)), OpShard(s.hash, call.op);
    assert ShardInv(s, x, Part(s.hash, abs, x)) && PacketOk(s, x, Part(s.hash, abs, x), call);
    var abs' := InvPreserved(s, abs, Handle(call));
    var d := Done(call.to, call.target, call.op, OnShard(At(s, call.to, x), call.op).1);
    assert ShardInv(s', x, Part(s'.hash, abs', x)) && PacketOk(s', x, Part(s'.hash, abs', x), d);
  }

  /** A refusal that any controller has had means that its target has been published. */
  lemma RefusalMeansPublished(s: System, d: Packet)
    requires Reachable(s) && d in s.net && d.Done? && OpShard(s.hash, d.op) < NSHARDS && ErrOf(d.reply) != OK
    ensures s.published >= d.target
  {
    var abs := ReachableInv(s);
    var x := OpShard(s.hash, d.op);
    assert ShardInv(s, x, Part(s.hash, abs, x)) && PacketOk(s, x, Part(s.hash, abs, x), d);
  }

  /** Copies of a published target's requests change nothing, however late they arrive. */
  lemma StaleCopiesHarmless(s: System, call: Packet)
    requires Reachable(s) && CanStep(s, Handle(call)) && call.target <= s.published
    ensures After(s, Handle(call)).groups == s.groups
  {
    var abs := ReachableInv(s);
    var x := OpShard(s.hash, call.op);
    assert ShardInv(s, x, Part(s.hash, abs, x));
    assert PacketOk(s, x, Part(s.hash, abs, x), call);
    assert Over(s, x, call.target);
    assert s.groups[call.to][x := s.groups[call.to][x]] == s.groups[call.to];
    assert s.groups[call.to := s.groups[call.to]] == s.groups;
  }

  /**
   The nil state that a freeze returns after the delete is never taken over, and an install that does take effect
   finds nothing of the shard at the group. A decoder that adds to the map it decodes into would do the same.
   */
  lemma InstallsOntoNothing(s: System, call: Packet)
    requires Reachable(s) && CanStep(s, Handle(call)) && call.op.Install?
    ensures var st := s.groups[call.to][call.op.shard];
            OnInstall(st, call.op.num, call.op.state).0 != st ==>
              call.op.state == Some(Part(s.hash, Abs(s), call.op.shard)) && st.store == map[] && !st.owned
  {
    var abs := ReachableInv(s);
    var x := call.op.shard;
    assert ShardInv(s, x, Part(s.hash, abs, x));
    assert PacketOk(s, x, Part(s.hash, abs, x), call);
    if call.target <= s.published {
      assert Over(s, x, call.target);
    }
  }

  /** When no target is pending, the published owner of a shard answers every request for it. */
  lemma PublishedOwnerServes(s: System, x: nat)
    requires Reachable(s) && x < NSHARDS && s.published == |s.configs| - 1
    ensures Shaped(s) && Owner(s, s.published, x) in s.groups
    ensures Serving(At(s, Owner(s, s.published, x), x), Part(s.hash, Abs(s), x))
  {
    var abs := ReachableInv(s);
    assert ShardInv(s, x, Part(s.hash, abs, x));
  }

  /** Configurations are published one after the other, each after the last, and only when every shard has moved. */
  lemma PublishedInOrder(s: System, call: Packet)
    requires Reachable(s) && CanStep(s, Publish(call)) && After(s, Publish(call)) != s
    ensures call.target == s.published + 1 == |s.configs| - 1
    ensures forall x: nat :: x < NSHARDS ==>
              Owner(s, call.target, x) in s.groups && Serving(At(s, Owner(s, call.target, x), x), Part(s.hash, Abs(s), x))
  {
    var abs := ReachableInv(s);
    assert PlanOk(s, call);
    PublishStep(s, abs, call);
    var s' := After(s, Publish(call));
    forall x: nat | x < NSHARDS
      ensures Owner(s, call.target, x) in s.groups && Serving(At(s, Owner(s, call.target, x), x), Part(s.hash, Abs(s), x))
    {
      assert ShardInv(s', x, Part(s'.hash, abs, x));
    }
  }
}
