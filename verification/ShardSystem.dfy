/**
 Shard migration over any number of groups, controllers and clients. Each group is one atomic state machine. A message
 once sent can be delivered at any later time, any number of times, or never; a controller may stop anywhere and
 another may take over, so what a controller may send depends only on the answers that some controller has had.

 Premise, in `NewTarget`: a target gives every shard to a group, has a higher number, and is chosen only when the
 previous target has been published.
 */
module ShardSystem {
  import opened KvStore
  import opened KvHistory
  import opened ShardTypes

  datatype Config = Config(num: nat, owner: seq<nat>)

  /**
   Messages and what controllers have learned. `target` is the position in `configs` of the configuration that the
   sender was working towards; the groups do not see it. `Plan(j, i)` says that a controller working towards target j
   was answered configuration i when it asked for the current one. `PublishDone` is the answer OK to a swap.
   */
  datatype Packet =
    | Call(to: nat, target: nat, op: ShardOp)
    | Done(from: nat, target: nat, op: ShardOp, reply: ShardReply)
    | Plan(target: nat, current: nat)
    | PublishCall(target: nat, version: nat)
    | PublishDone(target: nat, version: nat)

  /**
   `configs` are the targets in the order they were chosen, `published` the one the register "Gid1" holds at
   `version`; `history` the client requests that some group answered definitely, with the answers.
   */
  datatype System = System(
    hash: string -> nat, groups: map<nat, seq<ShardState>>, configs: seq<Config>, published: nat, version: nat,
    net: set<Packet>, history: seq<(Request, Reply)>)

  datatype Step =
    | Serve(g: nat, req: Request)
    | Handle(call: Packet)
    | Ask(target: nat)
    | SendFreeze(target: nat, current: nat, x: nat)
    | SendInstall(target: nat, current: nat, x: nat, frozenBy: Packet)
    | SendDelete(target: nat, current: nat, x: nat, installedBy: Packet)
    | SendPublish(target: nat)
    | Publish(call: Packet)
    | NewTarget(config: Config)

  // ---------------------------------------------------------------- what a controller knows

  ghost predicate Shaped(s: System) {
    && |s.configs| >= 1 && s.published < |s.configs|
    && (forall i {:trigger s.configs[i]} :: 0 <= i < |s.configs| ==> |s.configs[i].owner| == NSHARDS)
    && (forall g {:trigger s.groups[g]} :: g in s.groups ==> |s.groups[g]| == NSHARDS)
  }

  function Owner(s: System, i: nat, x: nat): nat
    requires i < |s.configs| && x < |s.configs[i].owner|
  {
    s.configs[i].owner[x]
  }

  function Num(s: System, i: nat): nat
    requires i < |s.configs|
  {
    s.configs[i].num
  }

  /** A controller at shard x knows both configurations, and the shard changes hands. */
  ghost predicate Moving(s: System, j: nat, i: nat, x: nat)
    requires Shaped(s)
  {
    && j < |s.configs| && i < |s.configs| && x < NSHARDS
    && Plan(j, i) in s.net && Owner(s, i, x) != Owner(s, j, x)
  }

  /** The old group has answered the freeze, with this state. */
  ghost predicate FrozenBy(s: System, j: nat, i: nat, x: nat, d: Packet)
    requires Shaped(s) && Moving(s, j, i, x)
  {
    && d in s.net && d.Done? && d.from == Owner(s, i, x) && d.target == j && d.op == Freeze(x, Num(s, j))
    && d.reply.FreezeReply? && d.reply.err == OK
  }

  /** The new group has answered the install. */
  ghost predicate InstalledBy(s: System, j: nat, x: nat, d: Packet)
    requires Shaped(s) && j < |s.configs| && x < NSHARDS
  {
    && d in s.net && d.Done? && d.from == Owner(s, j, x) && d.target == j
    && d.op.Install? && d.op.shard == x && d.op.num == Num(s, j) && d.reply == InstallReply(OK)
  }

  /** The controller's loop is through with shard x. */
  ghost predicate ShardDone(s: System, j: nat, x: nat, i: nat)
    requires Shaped(s) && j < |s.configs| && x < NSHARDS
  {
    && i < |s.configs| && Plan(j, i) in s.net
    && (Owner(s, i, x) != Owner(s, j, x) ==> Done(Owner(s, i, x), j, Delete(x, Num(s, j)), DeleteReply(OK)) in s.net)
  }

  ghost predicate Through(s: System, j: nat, x: nat)
    requires Shaped(s) && j < |s.configs| && x < NSHARDS
  {
    exists i: nat :: ShardDone(s, j, x, i)
  }

  ghost predicate AllDone(s: System, j: nat)
    requires Shaped(s) && j < |s.configs|
  {
    forall x: nat :: x < NSHARDS ==> Through(s, j, x)
  }

  // ---------------------------------------------------------------- steps

  ghost predicate Allowed(s: System, config: Config) {
    && |config.owner| == NSHARDS && forall x :: 0 <= x < NSHARDS ==> config.owner[x] != 0 && config.owner[x] in s.groups
  }

  ghost predicate CanStep(s: System, step: Step) {
    && Shaped(s)
    && match step
       case Serve(g, _) => g in s.groups
       case Handle(call) => call in s.net && call.Call? && call.to in s.groups && OpShard(s.hash, call.op) < NSHARDS
       case Ask(j) => j < |s.configs| && Num(s, s.published) < Num(s, j)
       case SendFreeze(j, i, x) => Moving(s, j, i, x)
       case SendInstall(j, i, x, d) => Moving(s, j, i, x) && FrozenBy(s, j, i, x, d)
       case SendDelete(j, i, x, d) => Moving(s, j, i, x) && InstalledBy(s, j, x, d)
       case SendPublish(j) => j < |s.configs| && AllDone(s, j) && Num(s, s.published) < Num(s, j)
       case Publish(call) => call in s.net && call.PublishCall? && call.target < |s.configs|
       case NewTarget(config) =>
         && s.published == |s.configs| - 1 && config.num > Num(s, s.published) && Allowed(s, config)
  }

  ghost function Sent(s: System, p: Packet): System {
    s.(net := s.net + {p})
  }

  ghost function AfterServe(s: System, g: nat, req: Request): System
    requires CanStep(s, Serve(g, req))
  {
    var x := KeyShard(s.hash, req.key);
    var (st, reply) := OnClient(s.groups[g][x], req);
    s.(groups := s.groups[g := s.groups[g][x := st]],
       history := if Definite(reply) then s.history + [(req, reply)] else s.history)
  }

  ghost function AfterHandle(s: System, call: Packet): System
    requires CanStep(s, Handle(call))
  {
    var x := OpShard(s.hash, call.op);
    var (st, reply) := OnShard(s.groups[call.to][x], call.op);
    s.(groups := s.groups[call.to := s.groups[call.to][x := st]],
       net := s.net + {Done(call.to, call.target, call.op, reply)})
  }

  ghost function After(s: System, step: Step): System
    requires CanStep(s, step)
  {
    match step
    case Serve(g, req) => AfterServe(s, g, req)
    case Handle(call) => AfterHandle(s, call)
    case Ask(j) => Sent(s, Plan(j, s.published))
    case SendFreeze(j, i, x) => Sent(s, Call(Owner(s, i, x), j, Freeze(x, Num(s, j))))
    case SendInstall(j, i, x, d) => Sent(s, Call(Owner(s, j, x), j, Install(x, Num(s, j), d.reply.state)))
    case SendDelete(j, i, x, _) => Sent(s, Call(Owner(s, i, x), j, Delete(x, Num(s, j))))
    case SendPublish(j) => Sent(s, PublishCall(j, s.version))
    case Publish(call) =>
      if call.version == s.version
      then s.(published := call.target, version := s.version + 1, net := s.net + {PublishDone(call.target, call.version)})
      else s
    case NewTarget(config) => s.(configs := s.configs + [config])
  }

  /** The first configuration gives every shard to the first group. */
  ghost function Boot(hash: string -> nat, gids: set<nat>, num: nat): System {
    System(hash, map g | g in gids :: Started(g), [Config(num, seq(NSHARDS, _ => GID1))], 0, 1, {}, [])
  }

  ghost predicate Legal(s: System, steps: seq<Step>)
    decreases |steps|
  {
    |steps| > 0 ==> CanStep(s, steps[0]) && Legal(After(s, steps[0]), steps[1..])
  }

  ghost function Trace(s: System, steps: seq<Step>): System
    requires Legal(s, steps)
    decreases |steps|
  {
    if |steps| == 0 then s else Trace(After(s, steps[0]), steps[1..])
  }

  ghost predicate Reachable(s: System) {
    exists hash, gids, num, steps ::
      GID1 in gids && 0 !in gids && Legal(Boot(hash, gids, num), steps) && Trace(Boot(hash, gids, num), steps) == s
  }

  // ---------------------------------------------------------------- the single map

  function Requests(history: seq<(Request, Reply)>): (reqs: seq<Request>)
    ensures |reqs| == |history| && forall i :: 0 <= i < |history| ==> reqs[i] == history[i].0
  {
    seq(|history|, i requires 0 <= i < |history| => history[i].0)
  }

  /** Every answer is the one the single map gives when it serves the same requests in the same order. */
  ghost predicate Explained(history: seq<(Request, Reply)>) {
    forall i {:trigger history[i]} :: 0 <= i < |history| ==> history[i].1 == AnswerOf(map[], Requests(history), i)
  }
}
