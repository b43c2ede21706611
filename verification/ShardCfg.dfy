/** A shard configuration as the object it is, changed in place by joining, leaving and rebalancing. */
module ShardCfg {
  import opened ShardBalance

  type Servers = seq<string>

  /** What a change returns; Fatal is the end of the program. */
  datatype Verdict = Done | Refused | Fatal

  predicate Ascending(s: seq<int>) {
    forall i, j :: 0 <= i < j < |s| ==> s[i] < s[j]
  }

  /** No server of the one is a server of the other. */
  ghost predicate Apart(groups: map<int, Servers>, servers: map<int, Servers>) {
    forall g, h, a {:trigger a in groups[g], a in servers[h]} ::
      g in groups && h in servers && a in groups[g] ==> a !in servers[h]
  }

  ghost predicate ApartWithin(servers: map<int, Servers>) {
    forall g, h, a {:trigger a in servers[g], a in servers[h]} ::
      g in servers && h in servers && g != h && a in servers[g] ==> a !in servers[h]
  }

  /** A missing counter reads as 0. */
  function CountIn(counts: map<int, nat>, g: int): nat {
    if g in counts then counts[g] else 0
  }

  class ShardConfig {
    var Num: nat
    const Shards: array<int>
    var Groups: map<int, Servers>

    /** The counters of analyze start at 257. */
    ghost predicate Valid()
      reads this
    {
      Shards.Length <= 256
    }

    constructor (n: nat)
      requires n <= 256
      ensures Valid() && fresh(Shards) && Num == 0 && Groups == map[] && Shards[..] == seq(n, _ => 0)
    {
      Num, Groups := 0, map[];
      Shards := new int[n](_ => 0);
      new;
      assert Shards[..] == seq(n, _ => 0);
    }

    // -------------------------------------------------------------- analyze

    /** How many shards each group has. */
    method Counts() returns (counts: map<int, nat>)
      ensures forall g :: CountIn(counts, g) == Count(Shards[..], g)
    {
      counts := map[];
      var s := 0;
      while s < Shards.Length
        invariant 0 <= s <= Shards.Length
        invariant forall g :: CountIn(counts, g) == Count(Shards[..s], g)
      {
        var g := Shards[s];
        assert Shards[..s + 1] == Shards[..s] + [g];
        counts := counts[g := CountIn(counts, g) + 1];
        forall k
          ensures CountIn(counts, k) == Count(Shards[..s + 1], k)
        {
          CountAppended(Shards[..s], g, k);
        }
        s := s + 1;
      }
      assert Shards[..s] == Shards[..];
    }

    /** The keys of Groups, sorted. */
    method SortedGroups() returns (groups: seq<int>)
      ensures Ascending(groups) && forall g :: g in groups <==> g in Groups
    {
      groups := [];
      var keys := Groups.Keys;
      while keys != {}
        invariant keys <= Groups.Keys && Ascending(groups)
        invariant forall g :: g in groups <==> g in Groups && g !in keys
        decreases |keys|
      {
        ghost var w := Pick(keys);
        var k :| k in keys;
        groups := Insert(groups, k);
        keys := keys - {k};
      }
    }

    method Insert(s: seq<int>, k: int) returns (r: seq<int>)
      requires Ascending(s) && k !in s
      ensures Ascending(r) && forall g :: g in r <==> g in s || g == k
    {
      var i := 0;
      while i < |s| && s[i] < k
        invariant 0 <= i <= |s| && forall j :: 0 <= j < i ==> s[j] < k
      {
        i := i + 1;
      }
      r := s[..i] + [k] + s[i..];
      InsertedAscending(s, i, k);
    }

    method Analyze() returns (mg: int, mn: int, lg: int, ln: int)
      requires Valid()
      ensures Groups == map[] ==> mg == -1 && mn == -1 && lg == -1 && ln == 257
      ensures Groups != map[] ==>
        && mg == MostOf(Shards[..], Groups.Keys) && mn == Count(Shards[..], mg)
        && lg == LeastOf(Shards[..], Groups.Keys) && ln == Count(Shards[..], lg)
    {
      var counts := Counts();
      mn, mg, ln, lg := -1, -1, 257, -1;
      var groups := SortedGroups();
      ghost var shards := Shards[..];
      var i := 0;
      while i < |groups|
        invariant 0 <= i <= |groups|
        invariant i == 0 ==> mg == -1 && mn == -1 && lg == -1 && ln == 257
        invariant i > 0 ==> mg in groups[..i] && mn == Count(shards, mg) && lg in groups[..i] && ln == Count(shards, lg)
        invariant forall j {:trigger groups[j]} :: 0 <= j < i ==>
          Count(shards, groups[j]) < mn || (Count(shards, groups[j]) == mn && mg <= groups[j])
        invariant forall j {:trigger groups[j]} :: 0 <= j < i ==>
          ln < Count(shards, groups[j]) || (Count(shards, groups[j]) == ln && lg <= groups[j])
      {
        var g := groups[i];
        var n := CountIn(counts, g);
        CountBounded(shards, g);
        if n < ln {
          ln, lg := n, g;
        }
        if n > mn {
          mn, mg := n, g;
        }
        i := i + 1;
      }
      if Groups != map[] {
        ghost var k := Pick(Groups.Keys);
        assert k in groups;
        OneMost(shards, Groups.Keys, mg);
        OneLeast(shards, Groups.Keys, lg);
      } else {
        SomeMember(groups);
      }
    }

    method Least() returns (lg: int)
      requires Valid()
      ensures lg == if Groups == map[] then -1 else LeastOf(Shards[..], Groups.Keys)
    {
      var mg, mn, ln;
      mg, mn, lg, ln := Analyze();
    }

    // -------------------------------------------------------------- rebalancing

    /** Assign every shard that no group has. */
    method AssignOrphans()
      requires Valid() && Groups != map[]
      modifies Shards
      ensures Shards[..] == Assign(old(Shards[..]), Groups.Keys, 0)
    {
      var s := 0;
      while s < Shards.Length
        invariant 0 <= s <= Shards.Length
        invariant Assign(Shards[..], Groups.Keys, s) == Assign(old(Shards[..]), Groups.Keys, 0)
      {
        ghost var before := Shards[..];
        if Shards[s] !in Groups {
          var lg := Least();
          Shards[s] := lg;
          assert Shards[..] == before[s := lg];
        }
        s := s + 1;
      }
    }

    /** Move the first shard of mg to lg. */
    method MoveOne(mg: int, lg: int)
      requires mg in Shards[..]
      modifies Shards
      ensures Shards[..] == old(Shards[..])[First(old(Shards[..]), mg) := lg]
    {
      ghost var before := Shards[..];
      var s := 0;
      while s < Shards.Length
        invariant 0 <= s <= Shards.Length && Shards[..] == before && s <= First(before, mg)
      {
        if Shards[s] == mg {
          Shards[s] := lg;
          return;
        }
        s := s + 1;
      }
    }

    method Rebalance()
      requires Valid()
      modifies Shards
      ensures Shards[..] == Rebalanced(old(Shards[..]), Groups.Keys)
      ensures Groups == map[] ==> forall x :: 0 <= x < Shards.Length ==> Shards[x] == 0
    {
      if |Groups| < 1 {
        assert Groups == map[];
        var s := 0;
        while s < Shards.Length
          invariant 0 <= s <= Shards.Length && forall x :: 0 <= x < s ==> Shards[x] == 0
        {
          Shards[s] := 0;
          s := s + 1;
        }
        assert Shards[..] == seq(Shards.Length, _ => 0);
        return;
      }
      assert Groups.Keys != {};
      AssignOrphans();
      ghost var placed := Shards[..];
      while true
        invariant Live(Shards[..], Groups.Keys) && Settle(Shards[..], Groups.Keys) == Settle(placed, Groups.Keys)
        decreases Excess(Shards[..], Groups.Keys)
      {
        ghost var before := Shards[..];
        var mg, mn, lg, ln := Analyze();
        if mn < ln + 2 {
          break;
        }
        MoveLowers(before, Groups.Keys);
        MostHasShards(before, mg);
        MoveOne(mg, lg);
        assert Shards[..] == Move(before, Groups.Keys);
      }
    }

    // -------------------------------------------------------------- joining and leaving

    /** One group's servers against one other's. */
    method Shares(xservers: Servers, servers: Servers) returns (clash: bool)
      ensures clash <==> exists a :: a in xservers && a in servers
    {
      var i := 0;
      while i < |xservers|
        invariant 0 <= i <= |xservers| && forall j :: 0 <= j < i ==> xservers[j] !in servers
      {
        if xservers[i] in servers {
          return true;
        }
        i := i + 1;
      }
      return false;
    }

    method SharesAny(servers: Servers) returns (clash: bool)
      ensures clash <==> exists g, a {:trigger a in Groups[g]} :: g in Groups && a in Groups[g] && a in servers
    {
      var keys := Groups.Keys;
      while keys != {}
        invariant keys <= Groups.Keys
        invariant forall g, a {:trigger a in Groups[g]} :: g in Groups && g !in keys && a in Groups[g] ==> a !in servers
        decreases |keys|
      {
        ghost var w := Pick(keys);
        var xgid :| xgid in keys;
        clash := Shares(Groups[xgid], servers);
        if clash {
          return true;
        }
        keys := keys - {xgid};
      }
      return false;
    }

    /**
     The order in which the new groups are visited is arbitrary. A refused join may have added some of the new groups.
     */
    method Join(servers: map<int, Servers>) returns (changed: Verdict)
      requires Valid()
      modifies this
      ensures Valid()
      ensures changed.Done? <==> servers != map[] && servers.Keys !! old(Groups).Keys && Apart(old(Groups), servers) && ApartWithin(servers)
      ensures changed.Done? ==> Groups == old(Groups) + servers && Num == old(Num) + 1
      ensures !changed.Done? ==> Num == old(Num)
      ensures changed.Refused? ==> !(servers.Keys !! old(Groups).Keys)
      ensures changed.Fatal? ==> servers == map[] || !Apart(old(Groups), servers) || !ApartWithin(servers)
      ensures forall g {:trigger Groups[g]} :: g in Groups ==>
                if g in old(Groups) then Groups[g] == old(Groups)[g] else g in servers && Groups[g] == servers[g]
      ensures old(Groups).Keys <= Groups.Keys
    {
      var todo := servers.Keys;
      while todo != {}
        invariant todo <= servers.Keys && Num == old(Num)
        invariant (servers.Keys - todo) !! old(Groups).Keys
        invariant Groups == old(Groups) + (servers - todo)
        invariant Apart(old(Groups), servers - todo) && ApartWithin(servers - todo)
        decreases |todo|
      {
        ghost var w := Pick(todo);
        var gid :| gid in todo;
        if gid in Groups {
          return Refused;
        }
        var clash := SharesAny(servers[gid]);
        if clash {
          JoinClashes(old(Groups), servers, todo, gid);
          return Fatal;
        }
        JoinOne(old(Groups), servers, todo, gid);
        Groups := Groups[gid := servers[gid]];
        todo := todo - {gid};
      }
      assert servers - {} == servers;
      if servers == map[] {
        return Fatal;
      }
      Num := Num + 1;
      return Done;
    }

    method Leave(gids: seq<int>) returns (changed: Verdict)
      requires Valid()
      modifies this
      ensures Valid()
      ensures changed.Done? <==> gids != [] && (forall i :: 0 <= i < |gids| ==> gids[i] in old(Groups) && gids[i] !in gids[..i])
      ensures changed.Done? ==> Groups == old(Groups) - (set g | g in gids) && Num == old(Num) + 1
      ensures !changed.Done? ==> Num == old(Num) && Groups.Keys <= old(Groups).Keys
      ensures changed.Fatal? <==> gids == []
    {
      var i := 0;
      while i < |gids|
        invariant 0 <= i <= |gids| && Num == old(Num)
        invariant Groups == old(Groups) - (set g | g in gids[..i])
        invariant forall j :: 0 <= j < i ==> gids[j] in old(Groups) && gids[j] !in gids[..j]
      {
        if gids[i] !in Groups {
          return Refused;
        }
        assert gids[..i + 1] == gids[..i] + [gids[i]];
        Groups := Groups - {gids[i]};
        i := i + 1;
      }
      assert gids[..i] == gids;
      if |gids| == 0 {
        return Fatal;
      }
      Num := Num + 1;
      return Done;
    }

    method JoinBalance(servers: map<int, Servers>) returns (changed: Verdict)
      requires Valid()
      modifies this, Shards
      ensures Valid()
      ensures changed.Done? ==> Groups == old(Groups) + servers && Shards[..] == Rebalanced(old(Shards[..]), Groups.Keys)
      ensures changed.Done? && Live(old(Shards[..]), old(Groups).Keys) && Even(old(Shards[..]), old(Groups).Keys) ==>
                Even(Shards[..], Groups.Keys) && forall x :: 0 <= x < Shards.Length && Shards[x] != old(Shards[x]) ==> Shards[x] in servers
      ensures !changed.Done? ==> Shards[..] == old(Shards[..])
    {
      changed := Join(servers);
      if !changed.Done? {
        return;
      }
      Rebalance();
      assert Groups.Keys != {} by {
        ghost var g := Pick(servers.Keys);
      }
      RebalancedIsOptimal(old(Shards[..]), Groups.Keys);
      if Live(old(Shards[..]), old(Groups).Keys) && Even(old(Shards[..]), old(Groups).Keys) {
        JoinMovesOntoNewcomers(old(Shards[..]), old(Groups).Keys, Groups.Keys);
        forall x | 0 <= x < Shards.Length && Shards[x] != old(Shards[x])
          ensures Shards[x] in servers
        {
          assert old(Shards[..])[x] == old(Shards[x]);
        }
      }
    }

    method LeaveBalance(gids: seq<int>) returns (changed: Verdict)
      requires Valid()
      modifies this, Shards
      ensures Valid()
      ensures changed.Done? ==> Groups == old(Groups) - (set g | g in gids) && Shards[..] == Rebalanced(old(Shards[..]), Groups.Keys)
      ensures changed.Done? && Groups != map[] && Even(old(Shards[..]), old(Groups).Keys) ==>
                Even(Shards[..], Groups.Keys) && forall x :: 0 <= x < Shards.Length && Shards[x] != old(Shards[x]) ==> old(Shards[x]) !in Groups
      ensures !changed.Done? ==> Shards[..] == old(Shards[..])
    {
      changed := Leave(gids);
      if !changed.Done? {
        return;
      }
      Rebalance();
      if Groups != map[] && Even(old(Shards[..]), old(Groups).Keys) {
        RebalancedIsOptimal(old(Shards[..]), Groups.Keys);
        LeaveMovesOrphansOnly(old(Shards[..]), old(Groups).Keys, Groups.Keys);
        forall x | 0 <= x < Shards.Length && Shards[x] != old(Shards[x])
          ensures old(Shards[x]) !in Groups
        {
          assert old(Shards[..])[x] == old(Shards[x]);
        }
      }
    }
  }

  // ---------------------------------------------------------------- helpers

  lemma CountBounded(shards: seq<int>, g: int)
    ensures Count(shards, g) <= |shards|
  {
    assert |multiset(shards)| == |shards|;
    assert multiset(shards)[g := 0] <= multiset(shards);
    assert multiset(shards) == multiset(shards)[g := 0] + multiset{}[g := Count(shards, g)];
  }

  lemma SomeMember<T>(s: seq<T>)
    ensures s == [] || exists g :: g in s
  {
    if s != [] {
      assert s[0] in s;
    }
  }

  lemma InsertedAscending(s: seq<int>, i: nat, k: int)
    requires Ascending(s) && i <= |s| && (forall j :: 0 <= j < i ==> s[j] < k) && k !in s && (i < |s| ==> s[i] >= k)
    ensures Ascending(s[..i] + [k] + s[i..])
    ensures forall g :: g in s[..i] + [k] + s[i..] <==> g in s || g == k
  {
    var r := s[..i] + [k] + s[i..];
    assert s == s[..i] + s[i..];
    forall j | i <= j < |s|
      ensures s[j] > k
    {
      assert s[j] >= s[i] && s[j] in s;
    }
    forall a, b | 0 <= a < b < |r|
      ensures r[a] < r[b]
    {
      assert r[b] == if b < i then s[b] else if b == i then k else s[b - 1];
    }
  }

  lemma CountAppended(shards: seq<int>, g: int, k: int)
    ensures Count(shards + [g], k) == Count(shards, k) + if k == g then 1 else 0
  {
  }

  lemma OneMost(shards: seq<int>, groups: set<int>, g: int)
    requires groups != {} && IsMost(shards, groups, g)
    ensures g == MostOf(shards, groups)
  {
    var h := MostOf(shards, groups);
    assert Count(shards, g) <= Count(shards, h);
  }

  lemma OneLeast(shards: seq<int>, groups: set<int>, g: int)
    requires groups != {} && IsLeast(shards, groups, g)
    ensures g == LeastOf(shards, groups)
  {
    var h := LeastOf(shards, groups);
    assert Count(shards, g) >= Count(shards, h);
  }

  /** A new group that shares a server with what is there clashes with the old groups or with another new one. */
  lemma JoinClashes(groups: map<int, Servers>, servers: map<int, Servers>, todo: set<int>, gid: int)
    requires gid in todo && todo <= servers.Keys && gid !in groups && (servers.Keys - todo) !! groups.Keys
    requires var now := groups + (servers - todo); exists g, a {:trigger a in now[g]} :: g in now && a in now[g] && a in servers[gid]
    ensures !Apart(groups, servers) || !ApartWithin(servers)
  {
    var now := groups + (servers - todo);
    var g, a :| g in now && a in now[g] && a in servers[gid];
    if g in groups {
      assert a in groups[g] && a in servers[gid];
    } else {
      assert a in servers[g] && a in servers[gid];
    }
  }

  lemma JoinOne(groups: map<int, Servers>, servers: map<int, Servers>, todo: set<int>, gid: int)
    requires gid in todo && todo <= servers.Keys && (servers.Keys - todo) !! groups.Keys
    requires gid !in groups + (servers - todo)
    requires var now := groups + (servers - todo); forall g, a {:trigger a in now[g]} :: g in now && a in now[g] ==> a !in servers[gid]
    requires Apart(groups, servers - todo) && ApartWithin(servers - todo)
    ensures var next := servers - (todo - {gid});
            && Apart(groups, next) && ApartWithin(next)
            && groups + next == (groups + (servers - todo))[gid := servers[gid]]
  {
    var now, next := groups + (servers - todo), servers - (todo - {gid});
    forall g, h, a | g in groups && h in next && a in groups[g]
      ensures a !in next[h]
    {
      assert g in now && a in now[g];
      assert h != gid ==> next[h] == (servers - todo)[h];
    }
    forall g, h, a | g in next && h in next && g != h && a in next[g]
      ensures a !in next[h]
    {
      if g == gid {
        assert h in now && now[h] == next[h];
      } else {
        assert g in now && now[g] == next[g];
        assert h != gid ==> h in servers - todo && next[h] == (servers - todo)[h];
      }
    }
  }
}
