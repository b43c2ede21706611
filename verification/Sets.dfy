/** Finite sets of numbers and their sizes. */
module Sets {
  /** The numbers below n. */
  function Below(n: nat): (all: set<nat>)
    ensures |all| == n && forall q: nat :: q in all <==> q < n
  {
    if n == 0 then {} else Below(n - 1) + {n - 1}
  }

  lemma {:induction false} NoLarger<T>(s: set<T>, t: set<T>)
    requires s <= t
    ensures |s| <= |t|
    decreases s
  {
    if s != {} {
      var x :| x in s;
      NoLarger(s - {x}, t - {x});
    }
  }

  lemma SmallerSet<T>(s: set<T>, t: set<T>, x: T)
    requires s <= t && x in t && x !in s
    ensures |s| < |t|
  {
    NoLarger(s, t - {x});
  }
}
