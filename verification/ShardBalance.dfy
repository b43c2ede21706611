/** The assignment that Rebalance computes: balanced, and with the fewest possible moves. */
module ShardBalance {
  lemma Pick<T>(s: set<T>) returns (x: T)
    requires s != {}
    ensures x in s
  {
    x :| x in s;
  }

  /** The number of shards of a group. */
  function Count(shards: seq<int>, g: int): nat {
    multiset(shards)[g]
  }

  ghost predicate Live(shards: seq<int>, groups: set<int>) {
    forall x {:trigger shards[x]} :: 0 <= x < |shards| ==> shards[x] in groups
  }

  /** No two groups differ by more than one shard. */
  ghost predicate Even(shards: seq<int>, groups: set<int>) {
    forall g, h {:trigger Count(shards, g), Count(shards, h)} :: g in groups && h in groups ==> Count(shards, g) <= Count(shards, h) + 1
  }

  /** The most loaded group; the smallest number among equals. */
  ghost predicate IsMost(shards: seq<int>, groups: set<int>, g: int) {
    g in groups && forall h {:trigger Count(shards, h)} :: h in groups ==>
      Count(shards, h) < Count(shards, g) || (Count(shards, h) == Count(shards, g) && g <= h)
  }

  ghost predicate IsLeast(shards: seq<int>, groups: set<int>, g: int) {
    g in groups && forall h {:trigger Count(shards, h)} :: h in groups ==>
      Count(shards, g) < Count(shards, h) || (Count(shards, h) == Count(shards, g) && g <= h)
  }

  lemma {:induction false} SomeMost(shards: seq<int>, groups: set<int>) returns (g: int)
    requires groups != {}
    ensures IsMost(shards, groups, g)
    decreases |groups|
  {
    var a := Pick(groups);
    g := a;
    if groups - {a} != {} {
      var b := SomeMost(shards, groups - {a});
      if Count(shards, a) < Count(shards, b) || (Count(shards, a) == Count(shards, b) && b <= a) {
        g := b;
      }
    }
    forall h | h in groups
      ensures Count(shards, h) < Count(shards, g) || (Count(shards, h) == Count(shards, g) && g <= h)
    {
      assert h == a || h in groups - {a};
    }
  }

  lemma {:induction false} SomeLeast(shards: seq<int>, groups: set<int>) returns (g: int)
    requires groups != {}
    ensures IsLeast(shards, groups, g)
    decreases |groups|
  {
    var a := Pick(groups);
    g := a;
    if groups - {a} != {} {
      var b := SomeLeast(shards, groups - {a});
      if Count(shards, b) < Count(shards, a) || (Count(shards, a) == Count(shards, b) && b <= a) {
        g := b;
      }
    }
    forall h | h in groups
      ensures Count(shards, g) < Count(shards, h) || (Count(shards, h) == Count(shards, g) && g <= h)
    {
      assert h == a || h in groups - {a};
    }
  }

  lemma ExistsMost(shards: seq<int>, groups: set<int>)
    requires groups != {}
    ensures exists g :: IsMost(shards, groups, g)
  {
    var g := SomeMost(shards, groups);
  }

  lemma ExistsLeast(shards: seq<int>, groups: set<int>)
    requires groups != {}
    ensures exists g :: IsLeast(shards, groups, g)
  {
    var g := SomeLeast(shards, groups);
  }

  ghost function MostOf(shards: seq<int>, groups: set<int>): (g: int)
    requires groups != {}
    ensures IsMost(shards, groups, g)
  {
    ExistsMost(shards, groups);
    var g :| IsMost(shards, groups, g);
    g
  }

  ghost function LeastOf(shards: seq<int>, groups: set<int>): (g: int)
    requires groups != {}
    ensures IsLeast(shards, groups, g)
  {
    ExistsLeast(shards, groups);
    var g :| IsLeast(shards, groups, g);
    g
  }

  // ---------------------------------------------------------------- sums over groups

  ghost function Total(groups: set<int>, f: int -> nat): nat
    decreases |groups|
  {
    if groups == {} then 0
    else
      assert exists g :: g in groups by { var g := Pick(groups); }
      var g :| g in groups;
      f(g) + Total(groups - {g}, f)
  }

  lemma {:induction false} TotalRemove(groups: set<int>, f: int -> nat, g: int)
    requires g in groups
    ensures Total(groups, f) == f(g) + Total(groups - {g}, f)
    decreases |groups|
  {
    var h :| h in groups && Total(groups, f) == f(h) + Total(groups - {h}, f);
    if h != g {
      TotalRemove(groups - {h}, f, g);
      TotalRemove(groups - {g}, f, h);
      assert groups - {h} - {g} == groups - {g} - {h};
    }
  }

  lemma {:induction false} TotalSame(groups: set<int>, f: int -> nat, f': int -> nat)
    requires forall g :: g in groups ==> f(g) == f'(g)
    ensures Total(groups, f) == Total(groups, f')
    decreases |groups|
  {
    if groups != {} {
      var g := Pick(groups);
      TotalRemove(groups, f, g);
      TotalRemove(groups, f', g);
      TotalSame(groups - {g}, f, f');
    }
  }

  lemma TwoPoints(groups: set<int>, f: int -> nat, f': int -> nat, a: int, b: int)
    requires a in groups && b in groups && a != b
    requires forall g :: g in groups && g != a && g != b ==> f(g) == f'(g)
    ensures Total(groups, f') - Total(groups, f) == f'(a) + f'(b) - f(a) - f(b)
  {
    TotalRemove(groups, f, a);
    TotalRemove(groups - {a}, f, b);
    TotalRemove(groups, f', a);
    TotalRemove(groups - {a}, f', b);
    TotalSame(groups - {a} - {b}, f, f');
  }

  /** A sum of values that are all at most k, and the same from below; sharp when one value is strict. */
  lemma {:induction false} TotalBounds(groups: set<int>, f: int -> nat, k: int, g: int)
    requires g in groups
    ensures (forall h :: h in groups ==> f(h) <= k) ==> Total(groups, f) <= k * |groups| - k + f(g)
    ensures (forall h :: h in groups ==> f(h) >= k) ==> Total(groups, f) >= k * |groups| - k + f(g)
    decreases |groups|
  {
    TotalRemove(groups, f, g);
    var rest := groups - {g};
    if rest != {} {
      var h :| h in rest;
      TotalBounds(rest, f, k, h);
      assert k * |groups| == k * |rest| + k;
    } else {
      assert |groups| == 1 by {
        assert groups == {g};
      }
      assert k * |groups| == k;
    }
  }

  lemma {:induction false} CountsAddUp(shards: seq<int>, groups: set<int>)
    requires Live(shards, groups)
    ensures Total(groups, g => Count(shards, g)) == |shards|
    decreases |shards|
  {
    if |shards| == 0 {
      TotalSame(groups, g => Count(shards, g), g => 0);
      TotalZero(groups, g => 0);
    } else {
      var init, last := shards[..|shards| - 1], shards[|shards| - 1];
      assert shards == init + [last];
      CountsAddUp(init, groups);
      TotalRemove(groups, g => Count(shards, g), last);
      TotalRemove(groups, g => Count(init, g), last);
      TotalSame(groups - {last}, g => Count(shards, g), g => Count(init, g));
    }
  }

  lemma {:induction false} TotalZero(groups: set<int>, f: int -> nat)
    requires forall g :: g in groups ==> f(g) == 0
    ensures Total(groups, f) == 0
    decreases |groups|
  {
    if groups != {} {
      var g := Pick(groups);
      TotalRemove(groups, f, g);
      TotalZero(groups - {g}, f);
    }
  }

  // ---------------------------------------------------------------- how far from balanced

  function Floor(n: nat, groups: nat): nat
    requires groups > 0
  {
    n / groups
  }

  function Ceiling(n: nat, groups: nat): nat
    requires groups > 0
  {
    if n % groups == 0 then n / groups else n / groups + 1
  }

  function Above(c: nat, cap: nat): nat {
    if c > cap then c - cap else 0
  }

  /** Shards that some group has too many. */
  ghost function Surplus(shards: seq<int>, groups: set<int>): nat
    requires groups != {}
  {
    Total(groups, g => Above(Count(shards, g), Ceiling(|shards|, |groups|)))
  }

  /** Shards that some group has too few. */
  ghost function Deficit(shards: seq<int>, groups: set<int>): nat
    requires groups != {}
  {
    Total(groups, g => Above(Floor(|shards|, |groups|), Count(shards, g)))
  }

  ghost function Excess(shards: seq<int>, groups: set<int>): nat
    requires groups != {}
  {
    if Surplus(shards, groups) > Deficit(shards, groups) then Surplus(shards, groups) else Deficit(shards, groups)
  }

  lemma FloorCeiling(n: nat, groups: nat)
    requires groups > 0
    ensures Floor(n, groups) * groups <= n <= Ceiling(n, groups) * groups
    ensures Ceiling(n, groups) == Floor(n, groups) || Ceiling(n, groups) == Floor(n, groups) + 1
    ensures n < (Floor(n, groups) + 1) * groups && (n == 0 || (Ceiling(n, groups) - 1) * groups < n)
    ensures Ceiling(n, groups) == Floor(n, groups) ==> n == Floor(n, groups) * groups
  {
    assert n == (n / groups) * groups + n % groups;
    assert (n / groups + 1) * groups == (n / groups) * groups + groups;
  }

  /** Where the extreme groups stand when they differ by two or more. */
  lemma UnevenCases(shards: seq<int>, groups: set<int>, mg: int, lg: int)
    requires groups != {} && Live(shards, groups) && IsMost(shards, groups, mg) && IsLeast(shards, groups, lg)
    requires Count(shards, mg) >= Count(shards, lg) + 2
    ensures var q, c := Floor(|shards|, |groups|), Ceiling(|shards|, |groups|);
            && Count(shards, lg) <= q && Count(shards, mg) >= c
            && (Count(shards, mg) == c ==> Count(shards, lg) < q && q + 1 == c)
            && (Count(shards, lg) == q ==> Count(shards, mg) > c && q + 1 == c)
  {
    var q, c, G := Floor(|shards|, |groups|), Ceiling(|shards|, |groups|), |groups|;
    var f := g => Count(shards, g);
    FloorCeiling(|shards|, G);
    CountsAddUp(shards, groups);
    if f(lg) > q {
      TotalBounds(groups, f, q + 1, lg);
    }
    if f(mg) < c {
      TotalBounds(groups, f, c - 1, mg);
    }
    if c == q {
      TotalBounds(groups, f, f(mg), lg);
      TotalBounds(groups, f, f(lg), mg);
      if f(mg) == c {
        assert false;
      }
      if f(lg) == q {
        assert false;
      }
    }
  }

  lemma SurplusGone(shards: seq<int>, groups: set<int>)
    requires groups != {} && forall g {:trigger Count(shards, g)} :: g in groups ==> Count(shards, g) <= Ceiling(|shards|, |groups|)
    ensures Surplus(shards, groups) == 0
  {
    TotalZero(groups, g => Above(Count(shards, g), Ceiling(|shards|, |groups|)));
  }

  lemma DeficitGone(shards: seq<int>, groups: set<int>)
    requires groups != {} && forall g {:trigger Count(shards, g)} :: g in groups ==> Count(shards, g) >= Floor(|shards|, |groups|)
    ensures Deficit(shards, groups) == 0
  {
    TotalZero(groups, g => Above(Floor(|shards|, |groups|), Count(shards, g)));
  }

  /** A shard goes from one group to another. */
  ghost predicate Given(shards: seq<int>, x: nat, from: int, to: int, moved: seq<int>) {
    x < |shards| && shards[x] == from != to && moved == shards[x := to]
  }

  lemma GivenCounts(shards: seq<int>, x: nat, from: int, to: int, moved: seq<int>, g: int)
    requires Given(shards, x, from, to, moved)
    ensures Count(shards, from) > 0
    ensures Count(moved, g) == if g == from then Count(shards, g) - 1 else if g == to then Count(shards, g) + 1 else Count(shards, g)
  {
    assert multiset(moved) == multiset(shards) - multiset{from} + multiset{to};
    assert shards[x] in multiset(shards);
  }

  /** How a gift changes the two sums. */
  lemma GivenSums(shards: seq<int>, groups: set<int>, x: nat, from: int, to: int, moved: seq<int>)
    requires from in groups && to in groups && Given(shards, x, from, to, moved)
    ensures Count(shards, from) > 0
    ensures var c := Ceiling(|shards|, |groups|);
            Surplus(moved, groups) - Surplus(shards, groups)
            == Above(Count(shards, from) - 1, c) - Above(Count(shards, from), c) + Above(Count(shards, to) + 1, c) - Above(Count(shards, to), c)
    ensures var q := Floor(|shards|, |groups|);
            Deficit(moved, groups) - Deficit(shards, groups)
            == Above(q, Count(shards, from) - 1) - Above(q, Count(shards, from)) + Above(q, Count(shards, to) + 1) - Above(q, Count(shards, to))
  {
    var q, c := Floor(|shards|, |groups|), Ceiling(|shards|, |groups|);
    forall g
      ensures Count(moved, g) == if g == from then Count(shards, g) - 1 else if g == to then Count(shards, g) + 1 else Count(shards, g)
    {
      GivenCounts(shards, x, from, to, moved, g);
    }
    GivenCounts(shards, x, from, to, moved, from);
    TwoPoints(groups, g => Above(Count(shards, g), c), g => Above(Count(moved, g), c), from, to);
    TwoPoints(groups, g => Above(q, Count(shards, g)), g => Above(q, Count(moved, g)), from, to);
  }

  // ---------------------------------------------------------------- one move

  /** The first shard of a group. */
  function First(shards: seq<int>, g: int): (x: nat)
    requires g in shards
    ensures x < |shards| && shards[x] == g && g !in shards[..x]
  {
    if shards[0] == g then 0
    else
      assert shards == [shards[0]] + shards[1..];
      First(shards[1..], g) + 1
  }

  lemma MostHasShards(shards: seq<int>, g: int)
    ensures Count(shards, g) > 0 <==> g in shards
  {
    assert g in multiset(shards) <==> g in shards;
  }

  /** The most loaded group gives its first shard to the least loaded one. */
  ghost function Move(shards: seq<int>, groups: set<int>): (moved: seq<int>)
    requires groups != {} && Count(shards, MostOf(shards, groups)) >= 1
    ensures |moved| == |shards| && (Live(shards, groups) ==> Live(moved, groups))
  {
    MostHasShards(shards, MostOf(shards, groups));
    shards[First(shards, MostOf(shards, groups)) := LeastOf(shards, groups)]
  }

  ghost predicate Uneven(shards: seq<int>, groups: set<int>)
    requires groups != {}
  {
    Count(shards, MostOf(shards, groups)) >= Count(shards, LeastOf(shards, groups)) + 2
  }

  lemma UnevenIffNotEven(shards: seq<int>, groups: set<int>)
    requires groups != {}
    ensures Uneven(shards, groups) <==> !Even(shards, groups)
  {
    var mg, lg := MostOf(shards, groups), LeastOf(shards, groups);
    if !Uneven(shards, groups) {
      forall g, h | g in groups && h in groups
        ensures Count(shards, g) <= Count(shards, h) + 1
      {
        assert Count(shards, g) <= Count(shards, mg) && Count(shards, lg) <= Count(shards, h);
      }
    }
  }

  /** Every move takes exactly one from the excess. */
  lemma MoveLowers(shards: seq<int>, groups: set<int>)
    requires groups != {} && Live(shards, groups) && Uneven(shards, groups)
    ensures Excess(Move(shards, groups), groups) == Excess(shards, groups) - 1
  {
    var mg, lg := MostOf(shards, groups), LeastOf(shards, groups);
    var q, c := Floor(|shards|, |groups|), Ceiling(|shards|, |groups|);
    MostHasShards(shards, mg);
    UnevenCases(shards, groups, mg, lg);
    FloorCeiling(|shards|, |groups|);
    GivenSums(shards, groups, First(shards, mg), mg, lg, Move(shards, groups));
    if Count(shards, mg) == c {
      SurplusGone(shards, groups);
    }
    if Count(shards, lg) == q {
      DeficitGone(shards, groups);
    }
  }

  /** Even assignments are exactly those without excess. */
  lemma EvenIffNoExcess(shards: seq<int>, groups: set<int>)
    requires groups != {} && Live(shards, groups)
    ensures Even(shards, groups) <==> Excess(shards, groups) == 0
  {
    UnevenIffNotEven(shards, groups);
    if Even(shards, groups) {
      EvenBounds(shards, groups);
      SurplusGone(shards, groups);
      DeficitGone(shards, groups);
    } else {
      MoveLowers(shards, groups);
    }
  }

  lemma EvenBounds(shards: seq<int>, groups: set<int>)
    requires groups != {} && Live(shards, groups) && Even(shards, groups)
    ensures forall g {:trigger Count(shards, g)} :: g in groups ==>
              Floor(|shards|, |groups|) <= Count(shards, g) <= Ceiling(|shards|, |groups|)
  {
    var q, c, f := Floor(|shards|, |groups|), Ceiling(|shards|, |groups|), g => Count(shards, g);
    FloorCeiling(|shards|, |groups|);
    CountsAddUp(shards, groups);
    forall g | g in groups
      ensures q <= Count(shards, g) <= c
    {
      TotalBounds(groups, f, q, g);
      TotalBounds(groups, f, c, g);
    }
  }

  // ---------------------------------------------------------------- the whole second loop

  ghost function Settle(shards: seq<int>, groups: set<int>): (settled: seq<int>)
    requires groups != {} && Live(shards, groups)
    ensures |settled| == |shards| && Live(settled, groups)
    decreases Excess(shards, groups)
  {
    if !Uneven(shards, groups) then shards
    else
      MoveLowers(shards, groups);
      Settle(Move(shards, groups), groups)
  }

  /** The shards that two assignments place differently. */
  ghost function Changed(shards: seq<int>, other: seq<int>): set<nat>
    requires |shards| == |other|
  {
    set x: nat | x < |shards| && shards[x] != other[x]
  }

  /** Any even assignment differs in at least as many shards as the excess. */
  lemma {:induction false} FewestMoves(shards: seq<int>, other: seq<int>, groups: set<int>)
    requires groups != {} && |shards| == |other| && Live(shards, groups) && Live(other, groups) && Even(other, groups)
    ensures |Changed(shards, other)| >= Excess(shards, groups)
    decreases |Changed(shards, other)|
  {
    if Changed(shards, other) == {} {
      forall x | 0 <= x < |shards|
        ensures shards[x] == other[x]
      {
        assert x !in Changed(shards, other);
      }
      assert shards == other;
      EvenIffNoExcess(shards, groups);
    } else {
      var x := Pick(Changed(shards, other));
      var closer := shards[x := other[x]];
      assert Changed(closer, other) == Changed(shards, other) - {x};
      FewestMoves(closer, other, groups);
      GivenSums(shards, groups, x, shards[x], other[x], closer);
    }
  }

  /** Groups that have received a shard stay within one of the least loaded. */
  ghost predicate NearLeast(shards: seq<int>, groups: set<int>, received: set<int>) {
    forall g, h {:trigger Count(shards, g), Count(shards, h)} :: g in received && h in groups ==> Count(shards, g) <= Count(shards, h) + 1
  }

  lemma MoveKeepsNear(shards: seq<int>, groups: set<int>, received: set<int>)
    requires groups != {} && Live(shards, groups) && Uneven(shards, groups) && NearLeast(shards, groups, received) && received <= groups
    ensures MostOf(shards, groups) !in received
    ensures NearLeast(Move(shards, groups), groups, received + {LeastOf(shards, groups)})
  {
    var mg, lg, moved := MostOf(shards, groups), LeastOf(shards, groups), Move(shards, groups);
    MostHasShards(shards, mg);
    assert Given(shards, First(shards, mg), mg, lg, moved);
    assert mg in received ==> Count(shards, mg) <= Count(shards, lg) + 1;
    forall g, h | g in received + {lg} && h in groups
      ensures Count(moved, g) <= Count(moved, h) + 1
    {
      GivenCounts(shards, First(shards, mg), mg, lg, moved, g);
      GivenCounts(shards, First(shards, mg), mg, lg, moved, h);
      assert Count(shards, lg) <= Count(shards, h);
    }
  }

  /** The second loop changes exactly as many shards as it makes moves: none moves twice. */
  lemma {:induction false} SettleFrom(start: seq<int>, shards: seq<int>, groups: set<int>, received: set<int>)
    requires groups != {} && Live(shards, groups) && |start| == |shards| && received <= groups && NearLeast(shards, groups, received)
    requires forall x {:trigger shards[x]} :: 0 <= x < |shards| && start[x] != shards[x] ==> shards[x] in received
    ensures |Changed(start, Settle(shards, groups))| == |Changed(start, shards)| + Excess(shards, groups)
    ensures Even(Settle(shards, groups), groups)
    decreases Excess(shards, groups)
  {
    UnevenIffNotEven(shards, groups);
    if !Uneven(shards, groups) {
      EvenIffNoExcess(shards, groups);
    } else {
      var mg, lg, moved := MostOf(shards, groups), LeastOf(shards, groups), Move(shards, groups);
      MostHasShards(shards, mg);
      MoveLowers(shards, groups);
      MoveKeepsNear(shards, groups, received);
      var x := First(shards, mg);
      assert start[x] == shards[x];
      assert Changed(start, moved) == Changed(start, shards) + {x};
      SettleFrom(start, moved, groups, received + {lg});
    }
  }

  /** The second loop ends even, after as many changes as any even assignment needs at least. */
  lemma SettleIsOptimal(shards: seq<int>, groups: set<int>)
    requires groups != {} && Live(shards, groups)
    ensures Even(Settle(shards, groups), groups)
    ensures |Changed(shards, Settle(shards, groups))| == Excess(shards, groups)
    ensures forall other {:trigger Changed(shards, other)} :: |other| == |shards| && Live(other, groups) && Even(other, groups) ==>
              |Changed(shards, Settle(shards, groups))| <= |Changed(shards, other)|
  {
    SettleFrom(shards, shards, groups, {});
    assert Changed(shards, shards) == {};
    forall other | |other| == |shards| && Live(other, groups) && Even(other, groups)
      ensures Excess(shards, groups) <= |Changed(shards, other)|
    {
      FewestMoves(shards, other, groups);
    }
  }

  // ---------------------------------------------------------------- the first loop, and all of it

  /** From shard i on, every shard without a live group goes to the least loaded group of that moment. */
  ghost function Assign(shards: seq<int>, groups: set<int>, i: nat): (placed: seq<int>)
    requires groups != {} && i <= |shards|
    ensures |placed| == |shards|
    ensures forall x {:trigger placed[x]} :: 0 <= x < |shards| ==>
              (x >= i ==> placed[x] in groups) && (x < i || shards[x] in groups ==> placed[x] == shards[x])
    decreases |shards| - i
  {
    if i == |shards| then shards
    else Assign(if shards[i] in groups then shards else shards[i := LeastOf(shards, groups)], groups, i + 1)
  }

  ghost function Rebalanced(shards: seq<int>, groups: set<int>): (balanced: seq<int>)
    ensures |balanced| == |shards|
  {
    if groups == {} then seq(|shards|, _ => 0) else Settle(Assign(shards, groups, 0), groups)
  }

  /** Rebalance leaves every shard in a live group, evenly, and costs the fewest moves after the orphans are placed. */
  lemma RebalancedIsOptimal(shards: seq<int>, groups: set<int>)
    requires groups != {}
    ensures Live(Rebalanced(shards, groups), groups) && Even(Rebalanced(shards, groups), groups)
    ensures var placed := Assign(shards, groups, 0);
            && |Changed(placed, Rebalanced(shards, groups))| == Excess(placed, groups)
            && forall other {:trigger Changed(placed, other)} :: |other| == |placed| && Live(other, groups) && Even(other, groups) ==>
                 |Changed(placed, Rebalanced(shards, groups))| <= |Changed(placed, other)|
  {
    SettleIsOptimal(Assign(shards, groups, 0), groups);
  }

  /** When it is the turn of shard x, those before it are placed: an orphan goes to the group that is least loaded then. */
  lemma {:induction false} OrphansGoToLeast(shards: seq<int>, groups: set<int>, i: nat, x: nat)
    requires groups != {} && i <= x < |shards|
    ensures var placed := Assign(shards, groups, i);
            if shards[x] in groups then placed[x] == shards[x]
            else IsLeast(placed[..x] + shards[x..], groups, placed[x])
    decreases |shards| - i
  {
    var next := if shards[i] in groups then shards else shards[i := LeastOf(shards, groups)];
    var placed := Assign(shards, groups, i);
    if i < x {
      OrphansGoToLeast(next, groups, i + 1, x);
      assert next[x..] == shards[x..];
    } else {
      assert placed[x] == next[x];
      assert placed[..x] + shards[x..] == shards;
    }
  }

  lemma {:induction false} AssignNothing(shards: seq<int>, groups: set<int>, i: nat)
    requires groups != {} && i <= |shards| && Live(shards, groups)
    ensures Assign(shards, groups, i) == shards
    decreases |shards| - i
  {
    if i < |shards| {
      AssignNothing(shards, groups, i + 1);
    }
  }

  /** Rebalancing what is balanced changes nothing. */
  lemma RebalancedTwice(shards: seq<int>, groups: set<int>)
    requires groups != {}
    ensures Rebalanced(Rebalanced(shards, groups), groups) == Rebalanced(shards, groups)
  {
    var once := Rebalanced(shards, groups);
    SettleIsOptimal(Assign(shards, groups, 0), groups);
    AssignNothing(once, groups, 0);
    UnevenIffNotEven(once, groups);
  }

  // ---------------------------------------------------------------- joining and leaving

  /** No group has more than one shard more than any of these. */
  ghost predicate NearMost(shards: seq<int>, groups: set<int>, veterans: set<int>) {
    forall g, h {:trigger Count(shards, g), Count(shards, h)} :: g in veterans && h in groups ==> Count(shards, h) <= Count(shards, g) + 1
  }

  lemma MoveKeepsNearMost(shards: seq<int>, groups: set<int>, veterans: set<int>)
    requires groups != {} && veterans <= groups && Live(shards, groups) && NearMost(shards, groups, veterans) && Uneven(shards, groups)
    ensures LeastOf(shards, groups) !in veterans && NearMost(Move(shards, groups), groups, veterans)
  {
    var mg, lg, moved := MostOf(shards, groups), LeastOf(shards, groups), Move(shards, groups);
    MostHasShards(shards, mg);
    assert Given(shards, First(shards, mg), mg, lg, moved);
    assert lg in veterans ==> Count(shards, mg) <= Count(shards, lg) + 1;
    forall g, h | g in veterans && h in groups
      ensures Count(moved, h) <= Count(moved, g) + 1
    {
      GivenCounts(shards, First(shards, mg), mg, lg, moved, g);
      GivenCounts(shards, First(shards, mg), mg, lg, moved, h);
      assert Count(shards, h) <= Count(shards, mg);
    }
  }

  lemma {:induction false} SettleOntoNewcomers(shards: seq<int>, groups: set<int>, veterans: set<int>)
    requires groups != {} && veterans <= groups && Live(shards, groups) && NearMost(shards, groups, veterans)
    ensures forall x {:trigger shards[x]} :: 0 <= x < |shards| && Settle(shards, groups)[x] != shards[x] ==>
              Settle(shards, groups)[x] in groups - veterans
    decreases Excess(shards, groups)
  {
    if Uneven(shards, groups) {
      var moved := Move(shards, groups);
      MostHasShards(shards, MostOf(shards, groups));
      MoveLowers(shards, groups);
      MoveKeepsNearMost(shards, groups, veterans);
      SettleOntoNewcomers(moved, groups, veterans);
      forall x | 0 <= x < |shards| && Settle(shards, groups)[x] != shards[x]
        ensures Settle(shards, groups)[x] in groups - veterans
      {
        assert moved[x] == shards[x] || moved[x] == LeastOf(shards, groups);
      }
    }
  }

  /** When groups join a balanced configuration, shards move onto the joining groups only. */
  lemma JoinMovesOntoNewcomers(shards: seq<int>, veterans: set<int>, groups: set<int>)
    requires groups != {} && veterans <= groups && Live(shards, veterans) && Even(shards, veterans)
    ensures forall x {:trigger shards[x]} :: 0 <= x < |shards| && Rebalanced(shards, groups)[x] != shards[x] ==>
              Rebalanced(shards, groups)[x] in groups - veterans
  {
    AssignNothing(shards, groups, 0);
    forall g, h | g in veterans && h in groups
      ensures Count(shards, h) <= Count(shards, g) + 1
    {
      if h !in veterans {
        MostHasShards(shards, h);
      }
    }
    SettleOntoNewcomers(shards, groups, veterans);
  }

  lemma {:induction false} AssignKeepsEven(shards: seq<int>, groups: set<int>, i: nat)
    requires groups != {} && i <= |shards| && Even(shards, groups)
    ensures Even(Assign(shards, groups, i), groups)
    decreases |shards| - i
  {
    if i < |shards| {
      if shards[i] in groups {
        AssignKeepsEven(shards, groups, i + 1);
      } else {
        var lg, next := LeastOf(shards, groups), shards[i := LeastOf(shards, groups)];
        forall g, h | g in groups && h in groups
          ensures Count(next, g) <= Count(next, h) + 1
        {
          GivenCounts(shards, i, shards[i], lg, next, g);
          GivenCounts(shards, i, shards[i], lg, next, h);
          assert Count(shards, lg) <= Count(shards, h) && Count(shards, g) <= Count(shards, h) + 1;
        }
        AssignKeepsEven(next, groups, i + 1);
      }
    }
  }

  /** When groups leave a balanced configuration and some stay, only the shards of departed groups move. */
  lemma LeaveMovesOrphansOnly(shards: seq<int>, before: set<int>, groups: set<int>)
    requires groups != {} && groups <= before && Even(shards, before)
    ensures forall x {:trigger shards[x]} :: 0 <= x < |shards| && Rebalanced(shards, groups)[x] != shards[x] ==> shards[x] !in groups
  {
    AssignKeepsEven(shards, groups, 0);
    UnevenIffNotEven(Assign(shards, groups, 0), groups);
  }
}
