/** What happens when two controllers work at the same time: two groups may come to serve one shard. */
module ShardCollision {
  import opened KvStore
  import opened ShardTypes
  import opened ShardSystem
  import opened ShardProgram

  /**
   The configuration store, with the keys "Pending" and "Gid1" and their versions, the groups, and two controllers.
   Unlike `ShardSystem` this has no premise on when a target may be registered.
   */
  datatype World = World(
    pending: Option<Config>, pendingVersion: nat, current: Config, version: nat, groups: map<nat, seq<ShardState>>,
    phases: (Phase, Phase))

  datatype Controller = First | Second

  /**
   One question of a controller, carried out and answered. `resent` means that the first attempt of a Put was lost and
   the clerk sent it again, which makes it answer ErrMaybe.
   */
  datatype Turn = Turn(who: Controller, resent: bool)

  function PhaseOf(w: World, who: Controller): Phase {
    if who.First? then w.phases.0 else w.phases.1
  }

  function In(w: World, who: Controller, phase: Phase): World {
    w.(phases := if who.First? then (phase, w.phases.1) else (w.phases.0, phase))
  }

  /** What the configuration store or a group makes of a question. */
  function Carried(w: World, question: Question): (World, Answer) {
    match question
    case GetPending => (w, if w.pending.None? then Missing else ConfigIs(w.pending.value, w.pendingVersion))
    case GetCurrent => (w, ConfigIs(w.current, w.version))
    case PutPending(config, version) =>
      if version == w.pendingVersion then (w.(pending := Some(config), pendingVersion := version + 1), PutIs(OK))
      else (w, PutIs(if w.pending.None? then ErrNoKey else ErrVersion))
    case PutCurrent(config, version) =>
      if version == w.version then (w.(current := config, version := version + 1), PutIs(OK)) else (w, PutIs(ErrVersion))
    case Send(to, op) =>
      if to in w.groups && !op.Client? && op.shard < |w.groups[to]| then
        var (st, reply) := OnShard(w.groups[to][op.shard], op);
        (w.(groups := w.groups[to := w.groups[to][op.shard := st]]), ReplyIs(reply))
      else (w, Lost)
  }

  function Taken(w: World, turn: Turn): World {
    var question := Next(PhaseOf(w, turn.who));
    if question.None? then w
    else
      var (w', answer) := Carried(w, question.value);
      In(w', turn.who, Answered(PhaseOf(w, turn.who), if turn.resent && answer.PutIs? then PutIs(ErrMaybe) else answer))
  }

  function Run(w: World, turns: seq<Turn>): World
    decreases |turns|
  {
    if |turns| == 0 then w else Run(Taken(w, turns[0]), turns[1..])
  }

  predicate Serves(w: World, g: nat, x: nat, store: Store) {
    g in w.groups && x < |w.groups[g]| && w.groups[g][x].owned && !w.groups[g][x].frozen && w.groups[g][x].store == store
  }

  lemma {:induction false} RunOn(w: World, turns: seq<Turn>, more: seq<Turn>)
    ensures Run(w, turns + more) == Run(Run(w, turns), more)
    decreases |turns|
  {
    if |turns| == 0 {
      assert turns + more == more;
    } else {
      assert (turns + more)[1..] == turns[1..] + more;
      RunOn(Taken(w, turns[0]), turns[1..], more);
    }
  }

  // ---------------------------------------------------------------- the collision

  /**
   Both controllers are about to look at shard x, which the group that has it serves, and the targets a and b move it to two
   other groups.
   */
  predicate Poised(w: World, a: Config, b: Config, x: nat) {
    && w.phases == (Looking(a, x), Looking(b, x)) && x < NSHARDS
    && w.current.num < a.num <= b.num
    && var src, g, h := OwnerIn(w.current, x), OwnerIn(a, x), OwnerIn(b, x);
       && src != g && g != h && h != src && 0 !in {src, g, h} && {src, g, h} <= w.groups.Keys
       && (forall k {:trigger w.groups[k]} :: k in {src, g, h} ==> |w.groups[k]| == NSHARDS && w.groups[k][x].highest < a.num)
       && w.groups[src][x].owned && !w.groups[g][x].owned && !w.groups[h][x].owned
  }

  function Times(who: Controller, n: nat): (turns: seq<Turn>)
    ensures |turns| == n && forall turn :: turn in turns ==> turn == Turn(who, false)
  {
    seq(n, _ => Turn(who, false))
  }

  lemma RunTwo(w: World, turn: Turn)
    ensures Run(w, [turn, turn]) == Taken(Taken(w, turn), turn)
  {
    var once := Taken(w, turn);
    assert [turn, turn][1..] == [turn] && [turn][1..] == [];
    assert Run(w, [turn, turn]) == Run(once, [turn]) == Run(Taken(once, turn), []);
  }

  lemma RunThree(w: World, turn: Turn)
    ensures Run(w, [turn, turn, turn]) == Taken(Taken(Taken(w, turn), turn), turn)
  {
    assert [turn, turn, turn][1..] == [turn, turn];
    RunTwo(Taken(w, turn), turn);
  }

  lemma LookTurn(w: World, who: Controller, target: Config, x: nat)
    requires PhaseOf(w, who) == Looking(target, x) && w.current.num < target.num
    requires OwnerIn(w.current, x) != OwnerIn(target, x) && OwnerIn(w.current, x) != 0
    ensures Taken(w, Turn(who, false)) == In(w, who, Checking(target, x, w.current, Freezing))
  {
  }

  lemma CheckTurn(w: World, who: Controller, target: Config, x: nat, from: Config, stage: Stage)
    requires PhaseOf(w, who) == Checking(target, x, from, stage) && w.current.num < target.num
    ensures Taken(w, Turn(who, false)) == In(w, who, Asking(target, x, from, stage))
  {
  }

  function WithShard(w: World, g: nat, x: nat, st: ShardState): World
    requires g in w.groups && x < |w.groups[g]|
  {
    w.(groups := w.groups[g := w.groups[g][x := st]])
  }

  lemma SendTurn(w: World, who: Controller, target: Config, x: nat, from: Config, stage: Stage)
    requires PhaseOf(w, who) == Asking(target, x, from, stage) && x < NSHARDS
    requires Recipient(target, x, from, stage) in w.groups && |w.groups[Recipient(target, x, from, stage)]| == NSHARDS
    ensures var to := Recipient(target, x, from, stage);
            var (st, reply) := OnShard(w.groups[to][x], RequestOf(target, x, stage));
            Taken(w, Turn(who, false)) == In(WithShard(w, to, x, st), who, AfterAsking(target, x, from, stage, ReplyIs(reply)))
  {
  }

  /** Looking, checking and freezing: three turns, and what the old group made of the freeze. */
  lemma ThreeTurns(w: World, who: Controller, target: Config, x: nat)
    requires PhaseOf(w, who) == Looking(target, x) && x < NSHARDS && w.current.num < target.num
    requires var src := OwnerIn(w.current, x); src != OwnerIn(target, x) && src != 0 && src in w.groups && |w.groups[src]| == NSHARDS
    ensures var src := OwnerIn(w.current, x);
            var (st, reply) := OnFreeze(w.groups[src][x], target.num);
            Run(w, Times(who, 3)) == In(WithShard(w, src, x, st), who, AfterAsking(target, x, w.current, Freezing, ReplyIs(reply)))
  {
    var turn := Turn(who, false);
    assert Times(who, 3) == [turn, turn, turn];
    RunThree(w, turn);
    LookTurn(w, who, target, x);
    CheckTurn(Taken(w, turn), who, target, x, w.current, Freezing);
    SendTurn(Taken(Taken(w, turn), turn), who, target, x, w.current, Freezing);
  }

  /** They freeze the shard and come away with what the old group held. */
  lemma FreezeTurns(w: World, who: Controller, target: Config, x: nat)
    requires PhaseOf(w, who) == Looking(target, x) && x < NSHARDS && w.current.num < target.num && OwnerIn(target, x) != 0
    requires var src := OwnerIn(w.current, x);
             && src != OwnerIn(target, x) && src != 0 && src in w.groups && |w.groups[src]| == NSHARDS
             && w.groups[src][x].owned && w.groups[src][x].highest <= target.num
    ensures var src := OwnerIn(w.current, x);
            var st := w.groups[src][x];
            Run(w, Times(who, 3))
            == In(WithShard(w, src, x, st.(highest := target.num, frozen := true)), who,
                  Checking(target, x, w.current, Installing(Some(st.store))))
  {
    ThreeTurns(w, who, target, x);
  }

  /** Two more install it at the new group, which then serves it. */
  lemma InstallTurns(w: World, who: Controller, target: Config, x: nat, from: Config, store: Store)
    requires PhaseOf(w, who) == Checking(target, x, from, Installing(Some(store))) && x < NSHARDS && w.current.num < target.num
    requires var g := OwnerIn(target, x);
             g in w.groups && |w.groups[g]| == NSHARDS && !w.groups[g][x].owned && w.groups[g][x].highest <= target.num
    ensures var g := OwnerIn(target, x);
            Run(w, Times(who, 2))
            == In(WithShard(w, g, x, ShardState(target.num, false, true, store)), who, ToDelete(target, x, from))
  {
    var turn := Turn(who, false);
    assert Times(who, 2) == [turn, turn];
    RunTwo(w, turn);
    CheckTurn(w, who, target, x, from, Installing(Some(store)));
    SendTurn(Taken(w, turn), who, target, x, from, Installing(Some(store)));
  }

  /** Both controllers freeze the shard at its old group, the second over the first, and come away with the same contents. */
  lemma BothFreeze(w: World, a: Config, b: Config, x: nat)
    requires Poised(w, a, b, x)
    ensures var src := OwnerIn(w.current, x);
            var st := w.groups[src][x];
            Run(w, Times(First, 3) + Times(Second, 3))
            == WithShard(w, src, x, st.(highest := b.num, frozen := true)).(phases :=
                 (Checking(a, x, w.current, Installing(Some(st.store))), Checking(b, x, w.current, Installing(Some(st.store)))))
  {
    var src := OwnerIn(w.current, x);
    var st := w.groups[src][x];
    RunOn(w, Times(First, 3), Times(Second, 3));
    FreezeTurns(w, First, a, x);
    FreezeTurns(Run(w, Times(First, 3)), Second, b, x);
    ShardTwice(w, src, x, st.(highest := a.num, frozen := true), st.(highest := b.num, frozen := true));
  }

  lemma ShardTwice(w: World, g: nat, x: nat, st: ShardState, st': ShardState)
    requires g in w.groups && x < |w.groups[g]|
    ensures WithShard(WithShard(w, g, x, st), g, x, st') == WithShard(w, g, x, st')
    ensures forall who, phase :: WithShard(In(w, who, phase), g, x, st) == In(WithShard(w, g, x, st), who, phase)
  {
    assert w.groups[g][x := st][x := st'] == w.groups[g][x := st'];
    assert w.groups[g := w.groups[g][x := st]][g := w.groups[g][x := st']] == w.groups[g := w.groups[g][x := st']];
  }

  /** Each installs it at its own new group. */
  lemma BothInstall(w: World, a: Config, b: Config, x: nat, from: Config, store: Store)
    requires w.phases == (Checking(a, x, from, Installing(Some(store))), Checking(b, x, from, Installing(Some(store))))
    requires x < NSHARDS && w.current.num < a.num <= b.num
    requires var g, h := OwnerIn(a, x), OwnerIn(b, x);
             && g != h && {g, h} <= w.groups.Keys && |w.groups[g]| == |w.groups[h]| == NSHARDS
             && !w.groups[g][x].owned && !w.groups[h][x].owned && w.groups[g][x].highest <= a.num && w.groups[h][x].highest <= b.num
    ensures var w' := Run(w, Times(Second, 2) + Times(First, 2));
            && Serves(w', OwnerIn(a, x), x, store) && Serves(w', OwnerIn(b, x), x, store)
            && w' == w.(groups := w'.groups, phases := w'.phases)
  {
    RunOn(w, Times(Second, 2), Times(First, 2));
    InstallTurns(w, Second, b, x, from, store);
    InstallTurns(Run(w, Times(Second, 2)), First, a, x, from, store);
  }

  /** Each looks, checks and freezes; then the second checks and installs, and then the first. No Put is among the turns. */
  function Collision(): seq<Turn> {
    Times(First, 3) + Times(Second, 3) + (Times(Second, 2) + Times(First, 2))
  }

  /** From there the two groups both serve the shard, with the same contents, whatever the rest of the targets is. */
  lemma Collide(w: World, a: Config, b: Config, x: nat)
    requires Poised(w, a, b, x)
    ensures var w', store := Run(w, Collision()), w.groups[OwnerIn(w.current, x)][x].store;
            && Serves(w', OwnerIn(a, x), x, store) && Serves(w', OwnerIn(b, x), x, store)
            && w'.pending == w.pending && w'.pendingVersion == w.pendingVersion
  {
    var frozen, installed := Times(First, 3) + Times(Second, 3), Times(Second, 2) + Times(First, 2);
    BothFreeze(w, a, b, x);
    BothInstall(Run(w, frozen), a, b, x, w.current, w.groups[OwnerIn(w.current, x)][x].store);
    RunOn(w, frozen, installed);
  }

  /** The first target's group serves shard x already, and the second controller is about to look at it. */
  predicate Overtaken(w: World, a: Config, b: Config, x: nat) {
    && w.phases.1 == Looking(b, x) && x < NSHARDS && w.current.num < b.num
    && var src, g, h := OwnerIn(w.current, x), OwnerIn(a, x), OwnerIn(b, x);
       && src != g && g != h && h != src && 0 !in {src, g, h} && {src, g, h} <= w.groups.Keys
       && (forall k {:trigger w.groups[k]} :: k in {src, g, h} ==> |w.groups[k]| == NSHARDS && w.groups[k][x].highest < b.num)
       && w.groups[g][x].owned && !w.groups[g][x].frozen && !w.groups[h][x].owned
  }

  /** That does harm exactly if the old group has not deleted the shard yet: it is frozen again, and installed twice. */
  lemma OverwriteHarms(w: World, a: Config, b: Config, x: nat)
    requires Overtaken(w, a, b, x)
    ensures var w', src, g, h := Run(w, Times(Second, 5)), OwnerIn(w.current, x), OwnerIn(a, x), OwnerIn(b, x);
            && Serves(w', g, x, w.groups[g][x].store)
            && (w.groups[src][x].owned <==> Serves(w', h, x, w.groups[src][x].store))
            && (!w.groups[src][x].owned ==> w'.groups == w.groups && w'.phases.1 == Stopped(Some(b), false))
  {
    var src := OwnerIn(w.current, x);
    assert Times(Second, 5) == Times(Second, 3) + Times(Second, 2);
    RunOn(w, Times(Second, 3), Times(Second, 2));
    if w.groups[src][x].owned {
      FreezeTurns(w, Second, b, x);
      InstallTurns(Run(w, Times(Second, 3)), Second, b, x, w.current, w.groups[src][x].store);
    } else {
      StaleTurns(w, b, x);
    }
  }

  /** The old group no longer has the shard: it answers ErrStale, and the controller stops. */
  lemma StaleTurns(w: World, b: Config, x: nat)
    requires w.phases.1 == Looking(b, x) && x < NSHARDS && w.current.num < b.num
    requires var src := OwnerIn(w.current, x);
             && src != OwnerIn(b, x) && src != 0 && src in w.groups && |w.groups[src]| == NSHARDS
             && !w.groups[src][x].owned && w.groups[src][x].highest < b.num
    ensures Run(Run(w, Times(Second, 3)), Times(Second, 2)) == w.(phases := (w.phases.0, Stopped(Some(b), false)))
  {
    var src := OwnerIn(w.current, x);
    ThreeTurns(w, Second, b, x);
    SameWorld(w, src, x);
    StoppedTurns(Run(w, Times(Second, 3)));
  }

  lemma SameWorld(w: World, g: nat, x: nat)
    requires g in w.groups && x < |w.groups[g]|
    ensures WithShard(w, g, x, w.groups[g][x]) == w
  {
    assert w.groups[g][x := w.groups[g][x]] == w.groups[g];
    assert w.groups[g := w.groups[g]] == w.groups;
  }

  lemma StoppedTurns(w: World)
    requires w.phases.1.Stopped?
    ensures Run(w, Times(Second, 2)) == w
  {
    assert Times(Second, 2) == [Turn(Second, false), Turn(Second, false)];
    RunTwo(w, Turn(Second, false));
  }

  // ---------------------------------------------------------------- how two controllers get there

  /** Nothing is pending, and each controller has been given its target. */
  predicate Fresh(w: World, a: Config, b: Config) {
    w.pending.None? && w.pendingVersion == 0 && w.phases == (Choosing(a), Choosing(b))
  }

  /** Reading "Pending", where nothing or something lower is. */
  lemma ReadTurn(w: World, who: Controller, goal: Config)
    requires PhaseOf(w, who) == Choosing(goal)
    requires if w.pending.None? then w.pendingVersion == 0 else w.pending.value.num < goal.num
    ensures Taken(w, Turn(who, false)) == In(w, who, Registering(goal, w.pendingVersion, w.pending.None?))
  {
  }

  lemma RegisterTurn(w: World, who: Controller, goal: Config, first: bool)
    requires PhaseOf(w, who) == Registering(goal, w.pendingVersion, first)
    ensures Taken(w, Turn(who, false)) == In(w.(pending := Some(goal), pendingVersion := w.pendingVersion + 1), who, Looking(goal, 0))
  {
  }

  /** A first registration that comes too late, with one attempt lost: the controller goes on as if it had been made. */
  lemma LateTurn(w: World, who: Controller, goal: Config)
    requires PhaseOf(w, who) == Registering(goal, 0, true) && w.pendingVersion > 0
    ensures Taken(w, Turn(who, true)) == In(w, who, Looking(goal, 0))
  {
  }

  /** Only the last turn is one whose Put was lost and sent again. */
  function MaybeTurns(): seq<Turn> {
    [Turn(First, false), Turn(Second, false), Turn(Second, false), Turn(First, true)]
  }

  function OverwriteTurns(): seq<Turn> {
    [Turn(First, false), Turn(First, false), Turn(Second, false), Turn(Second, false)]
  }

  /** Both find nothing pending; one registers, the other's first attempt is lost and its second answered ErrMaybe. */
  lemma MaybeRegisters(w: World, a: Config, b: Config)
    requires Fresh(w, a, b)
    ensures Run(w, MaybeTurns())
            == w.(pending := Some(b), pendingVersion := 1, phases := (Looking(a, 0), Looking(b, 0)))
  {
    RunFour(w, MaybeTurns());
    var w1 := In(w, First, Registering(a, 0, true));
    var w2 := In(w1, Second, Registering(b, 0, true));
    ReadTurn(w, First, a);
    ReadTurn(w1, Second, b);
    RegisterTurn(w2, Second, b, true);
    LateTurn(Taken(w2, Turn(Second, false)), First, a);
  }

  /** One registers; the other finds that target pending, and registers a higher one over it. */
  lemma OverwriteRegisters(w: World, a: Config, b: Config)
    requires Fresh(w, a, b) && a.num < b.num
    ensures Run(w, OverwriteTurns())
            == w.(pending := Some(b), pendingVersion := 2, phases := (Looking(a, 0), Looking(b, 0)))
  {
    RunFour(w, OverwriteTurns());
    var w1 := In(w, First, Registering(a, 0, true));
    var w2 := In(w1.(pending := Some(a), pendingVersion := 1), First, Looking(a, 0));
    ReadTurn(w, First, a);
    RegisterTurn(w1, First, a, true);
    ReadTurn(w2, Second, b);
    RegisterTurn(In(w2, Second, Registering(b, 1, false)), Second, b, false);
  }

  lemma RunFour(w: World, turns: seq<Turn>)
    requires |turns| == 4
    ensures Run(w, turns) == Taken(Taken(Taken(Taken(w, turns[0]), turns[1]), turns[2]), turns[3])
  {
    assert turns[1..][1..] == turns[2..] && turns[2..][1..] == turns[3..] && turns[3..][1..] == [];
    var w1 := Taken(w, turns[0]);
    var w2 := Taken(w1, turns[1]);
    var w3 := Taken(w2, turns[2]);
    assert Run(w, turns) == Run(w1, turns[1..]) == Run(w2, turns[2..]) == Run(w3, turns[3..]) == Run(Taken(w3, turns[3]), []);
  }

  /** Two groups serve one shard, and both confirm the same first write to a key: the compare-and-set is lost. */
  ghost predicate WrittenTwice(w: World, g: nat, h: nat, x: nat) {
    && g != h && Serves(w, g, x, map[]) && Serves(w, h, x, map[])
    && forall key, value :: OnClient(w.groups[g][x], Put(key, value, 0)).1 == OnClient(w.groups[h][x], Put(key, value, 0)).1 == PutReply(OK)
  }

  /** The store as it boots, the first configuration in the register, and two controllers. */
  function Start(gids: set<nat>, a: Config, b: Config): World {
    World(None, 0, Config(1, seq(NSHARDS, _ => GID1)), 1, map g | g in gids :: Started(g), (Choosing(a), Choosing(b)))
  }

  /** The targets take the first shard to two other groups. */
  predicate Apart(gids: set<nat>, a: Config, b: Config) {
    && |a.owner| == |b.owner| == NSHARDS && 1 < a.num && 1 < b.num
    && a.owner[0] != b.owner[0] && GID1 !in {a.owner[0], b.owner[0]} && 0 !in {a.owner[0], b.owner[0]}
    && {GID1, a.owner[0], b.owner[0]} <= gids
  }

  /** No message is lost: a higher target replaces an unfinished one, and both controllers go on. */
  lemma OverwriteSplitsShard(gids: set<nat>, a: Config, b: Config)
    requires Apart(gids, a, b) && a.num < b.num
    ensures WrittenTwice(Run(Start(gids, a, b), OverwriteTurns() + Collision()), a.owner[0], b.owner[0], 0)
    ensures forall turn :: turn in OverwriteTurns() + Collision() ==> !turn.resent
  {
    var w := Start(gids, a, b);
    OverwriteRegisters(w, a, b);
    Collide(Run(w, OverwriteTurns()), a, b, 0);
    RunOn(w, OverwriteTurns(), Collision());
    NothingResent();
  }

  lemma NothingResent()
    ensures forall turn :: turn in OverwriteTurns() + Collision() ==> !turn.resent
  {
    forall turn | turn in Collision()
      ensures !turn.resent
    {
      assert turn in Times(First, 3) || turn in Times(Second, 3) || turn in Times(Second, 2) || turn in Times(First, 2);
    }
  }

  /** Equal numbers are enough when one Put is answered ErrMaybe: that controller works towards what was never registered. */
  lemma MaybeSplitsShard(gids: set<nat>, a: Config, b: Config)
    requires Apart(gids, a, b) && a.num <= b.num
    ensures var w' := Run(Start(gids, a, b), MaybeTurns() + Collision());
            WrittenTwice(w', a.owner[0], b.owner[0], 0) && w'.pending == Some(b) && w'.pendingVersion == 1
  {
    var w := Start(gids, a, b);
    MaybeRegisters(w, a, b);
    Collide(Run(w, MaybeTurns()), a, b, 0);
    RunOn(w, MaybeTurns(), Collision());
  }
}
