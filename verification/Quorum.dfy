/** Sentinel quorum arithmetic and the disruption budget that goes with it. */
module Quorum {
  /** Go's division truncates towards zero. */
  function Truncated(n: int): int {
    if n >= 0 then n / 2 else -(-n / 2)
  }

  function GetQuorum(replicas: int): int {
    Truncated(replicas) + 1
  }

  /** Validated specifications ask for at least this many sentinels. */
  const MIN_SENTINELS: int := 3

  /** The disruption budget always keeps this many pods, whatever the number of replicas. */
  const MIN_AVAILABLE: int := 2

  lemma UnionOfDisjoint<T>(a: set<T>, b: set<T>, all: set<T>)
    requires a <= all && b <= all && a * b == {}
    ensures |a| + |b| <= |all|
  {
    assert |a + b| == |a| + |b|;
    Within(a + b, all);
  }

  lemma Within<T>(a: set<T>, all: set<T>)
    requires a <= all
    ensures |a| <= |all| && |all - a| == |all| - |a|
  {
    assert all == a + (all - a);
  }

  /** Two groups of sentinels that each reach the quorum share a member. */
  lemma QuorumsIntersect<T>(all: set<T>, a: set<T>, b: set<T>)
    requires |all| >= MIN_SENTINELS
    requires a <= all && b <= all
    requires |a| >= GetQuorum(|all|) && |b| >= GetQuorum(|all|)
    ensures a * b != {}
  {
    if a * b == {} {
      UnionOfDisjoint(a, b, all);
    }
  }

  function Interval(lo: int, hi: int): (s: set<int>)
    requires lo <= hi
    ensures |s| == hi - lo
    ensures forall x :: x in s <==> lo <= x < hi
    decreases hi - lo
  {
    if lo == hi then {} else Interval(lo, hi - 1) + {hi - 1}
  }

  /** The quorum is the least size with that property: with one less, two groups can miss each other. */
  lemma SmallerGroupsCanMiss(replicas: int) returns (a: set<int>, b: set<int>)
    requires replicas >= MIN_SENTINELS
    ensures a <= Interval(0, replicas) && b <= Interval(0, replicas)
    ensures |a| == |b| == GetQuorum(replicas) - 1
    ensures a * b == {}
  {
    var h := GetQuorum(replicas) - 1;
    a, b := Interval(0, h), Interval(h, 2 * h);
  }

  /** A quorum survives exactly as long as at most (replicas - 1) / 2 sentinels are down. */
  lemma SurvivesExactly<T>(all: set<T>, down: set<T>)
    requires |all| >= MIN_SENTINELS && down <= all
    ensures |all - down| >= GetQuorum(|all|) <==> |down| <= (|all| - 1) / 2
  {
    Within(down, all);
  }

  /** How many pods a voluntary disruption may leave. */
  ghost predicate AllowedByBudget(up: int, replicas: int) {
    MIN_AVAILABLE <= up <= replicas
  }

  ghost predicate BudgetKeepsQuorum(replicas: int) {
    forall up :: AllowedByBudget(up, replicas) ==> up >= GetQuorum(replicas)
  }

  /** The fixed budget guarantees a quorum for three sentinels and for no other validated number. */
  lemma BudgetKeepsQuorumOnlyForThree(replicas: int)
    requires replicas >= MIN_SENTINELS
    ensures BudgetKeepsQuorum(replicas) <==> replicas == 3
  {
    assert AllowedByBudget(MIN_AVAILABLE, replicas);
  }
}
