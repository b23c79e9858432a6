/** The status conditions of an object: a list that is used as a map (api/v1alpha1/redissentinel_status.go). */
module Conditions {
  import opened Basics
  import Sorting

  datatype ConditionType =
    Available | Healthy | Running | Creating | Recovering | Scaling | ScalingDown | Upgrading | Updating | Failed

  /** `updatedAt` orders the list and is not stored with the object; the stamps are what a reader sees. */
  datatype Condition = Condition(
    kind: ConditionType, status: string, updatedAt: nat, updateStamp: nat, transitionStamp: nat,
    reason: string, message: string)

  function NewClusterCondition(kind: ConditionType, status: string, reason: string, message: string, now: nat): Condition {
    Condition(kind, status, now, now, now, reason, message)
  }

  predicate SameNews(a: Condition, b: Condition) {
    a.status == b.status && a.reason == b.reason && a.message == b.message
  }

  // ---------------------------------------------------------------- the list as a value

  function Position(list: seq<Condition>, kind: ConditionType): (pos: int)
    ensures -1 <= pos < |list|
    ensures pos == -1 <==> forall i :: 0 <= i < |list| ==> list[i].kind != kind
    ensures pos >= 0 ==> list[pos].kind == kind && forall i :: 0 <= i < pos ==> list[i].kind != kind
  {
    if list == [] then -1
    else if list[0].kind == kind then 0
    else
      var p := Position(list[1..], kind);
      if p == -1 then -1 else p + 1
  }

  /** The same news again only refreshes the time; other news replaces the entry; a new kind is appended. */
  function Put(list: seq<Condition>, c: Condition, now: nat): seq<Condition> {
    var pos := Position(list, c.kind);
    if pos == -1 then list + [c]
    else if SameNews(list[pos], c) then list[pos := list[pos].(updatedAt := now, updateStamp := now)]
    else list[pos := c]
  }

  function Without(list: seq<Condition>, kind: ConditionType): seq<Condition> {
    var pos := Position(list, kind);
    if pos == -1 then list else list[..pos] + list[pos + 1..]
  }

  /** Descending update times. */
  function Age(c: Condition): int {
    0 - c.updatedAt
  }

  /** The list as another reader receives it: update times are not stored. */
  function Refetched(list: seq<Condition>): (r: seq<Condition>)
    ensures |r| == |list|
    ensures forall i :: 0 <= i < |list| ==> r[i] == list[i].(updatedAt := 0)
  {
    seq(|list|, i requires 0 <= i < |list| => list[i].(updatedAt := 0))
  }

  // ---------------------------------------------------------------- the status object

  class RedisSentinelStatus {
    var conditions: seq<Condition>
    var masterIP: string
    var sentinelIP: string

    constructor ()
      ensures conditions == [] && masterIP == "" && sentinelIP == ""
    {
      conditions, masterIP, sentinelIP := [], "", "";
    }

    method GetClusterCondition(kind: ConditionType) returns (pos: int, cp: Option<Condition>)
      ensures pos == Position(conditions, kind)
      ensures cp == if pos == -1 then None else Some(conditions[pos])
    {
      for i := 0 to |conditions|
        invariant forall j :: 0 <= j < i ==> conditions[j].kind != kind
      {
        if conditions[i].kind == kind {
          return i, Some(conditions[i]);
        }
      }
      return -1, None;
    }

    method SetClusterCondition(c: Condition, now: nat)
      modifies this`conditions
      ensures conditions == Put(old(conditions), c, now)
    {
      var pos, cp := GetClusterCondition(c.kind);
      if cp.Some? && SameNews(cp.value, c) {
        conditions := conditions[pos := conditions[pos].(updatedAt := now, updateStamp := now)];
        return;
      }
      if cp.Some? {
        conditions := conditions[pos := c];
      } else {
        conditions := conditions + [c];
      }
    }

    method ClearCondition(kind: ConditionType)
      modifies this`conditions
      ensures conditions == Without(old(conditions), kind)
    {
      var pos, _ := GetClusterCondition(kind);
      if pos == -1 {
        return;
      }
      conditions := conditions[..pos] + conditions[pos + 1..];
    }

    method DescConditionsByTime()
      modifies this`conditions
      ensures Sorting.IsSorting(old(conditions), conditions, Age)
    {
      Sorting.SortSorts(conditions, Age);
      conditions := Sorting.Sort(conditions, Age);
    }

    method SetScalingUpCondition(message: string, now: nat)
      modifies this`conditions
      ensures conditions == Put(old(conditions), News(ScalingUp, message, now), now)
      ensures RecordedIn(old(conditions), conditions, Scaling, "Scaling up", message, now)
    {
      SetClusterCondition(NewClusterCondition(Scaling, "True", "Scaling up", message, now), now);
      PutRecords(old(conditions), ScalingUp, message, now);
    }

    method SetCreateCondition(message: string, now: nat)
      modifies this`conditions
      ensures conditions == Put(old(conditions), News(Create, message, now), now)
      ensures RecordedIn(old(conditions), conditions, Creating, "Creating", message, now)
    {
      SetClusterCondition(NewClusterCondition(Creating, "True", "Creating", message, now), now);
      PutRecords(old(conditions), Create, message, now);
    }

    /** Recorded under the type `Scaling`, as scaling up is. */
    method SetScalingDownCondition(message: string, now: nat)
      modifies this`conditions
      ensures conditions == Put(old(conditions), News(ScaleDown, message, now), now)
      ensures RecordedIn(old(conditions), conditions, Scaling, "Scaling down", message, now)
    {
      SetClusterCondition(NewClusterCondition(Scaling, "True", "Scaling down", message, now), now);
      PutRecords(old(conditions), ScaleDown, message, now);
    }

    method SetUpgradingCondition(message: string, now: nat)
      modifies this`conditions
      ensures conditions == Put(old(conditions), News(Upgrade, message, now), now)
      ensures RecordedIn(old(conditions), conditions, Upgrading, "Cluster upgrading", message, now)
    {
      SetClusterCondition(NewClusterCondition(Upgrading, "True", "Cluster upgrading", message, now), now);
      PutRecords(old(conditions), Upgrade, message, now);
    }

    method SetUpdatingCondition(message: string, now: nat)
      modifies this`conditions
      ensures conditions == Put(old(conditions), News(Update, message, now), now)
      ensures RecordedIn(old(conditions), conditions, Updating, "Cluster updating", message, now)
    {
      SetClusterCondition(NewClusterCondition(Updating, "True", "Cluster updating", message, now), now);
      PutRecords(old(conditions), Update, message, now);
    }

    method SetReadyCondition(message: string, now: nat)
      modifies this`conditions
      ensures conditions == Put(old(conditions), News(Ready, message, now), now)
      ensures RecordedIn(old(conditions), conditions, Healthy, "Cluster available", message, now)
    {
      SetClusterCondition(NewClusterCondition(Healthy, "True", "Cluster available", message, now), now);
      PutRecords(old(conditions), Ready, message, now);
    }

    method SetFailedCondition(message: string, now: nat)
      modifies this`conditions
      ensures conditions == Put(old(conditions), News(Fail, message, now), now)
      ensures RecordedIn(old(conditions), conditions, Failed, "Cluster failed", message, now)
    {
      SetClusterCondition(NewClusterCondition(Failed, "True", "Cluster failed", message, now), now);
      PutRecords(old(conditions), Fail, message, now);
    }
  }

  // ---------------------------------------------------------------- runs

  /** The seven setters. */
  datatype Setter = ScalingUp | Create | ScaleDown | Upgrade | Update | Ready | Fail

  /** The condition each setter records. */
  function News(s: Setter, message: string, now: nat): Condition {
    match s
    case ScalingUp => NewClusterCondition(Scaling, "True", "Scaling up", message, now)
    case Create => NewClusterCondition(Creating, "True", "Creating", message, now)
    case ScaleDown => NewClusterCondition(Scaling, "True", "Scaling down", message, now)
    case Upgrade => NewClusterCondition(Upgrading, "True", "Cluster upgrading", message, now)
    case Update => NewClusterCondition(Updating, "True", "Cluster updating", message, now)
    case Ready => NewClusterCondition(Healthy, "True", "Cluster available", message, now)
    case Fail => NewClusterCondition(Failed, "True", "Cluster failed", message, now)
  }

  datatype Action = Set(setter: Setter, message: string, now: nat) | Clear(kind: ConditionType) | StoreStatus | Refetch

  /** `latest` is the condition set last, unless it was cleared or its time was lost since. */
  datatype State = State(list: seq<Condition>, clock: nat, latest: Option<ConditionType>)

  ghost predicate Step(s: State, a: Action, s': State) {
    match a
    case Set(setter, message, now) =>
      && now > s.clock
      && s' == State(Put(s.list, News(setter, message, now), now), now, Some(News(setter, message, now).kind))
    case Clear(kind) =>
      s' == State(Without(s.list, kind), s.clock, if s.latest == Some(kind) then None else s.latest)
    case StoreStatus =>
      && Sorting.IsSorting(s.list, s'.list, Age)
      && s'.clock == s.clock && s'.latest == s.latest
    case Refetch =>
      s' == State(Refetched(s.list), s.clock, None)
  }

  ghost predicate IsRun(run: seq<State>, actions: seq<Action>) {
    && |run| == |actions| + 1
    && run[0] == State([], 0, None)
    && forall k :: 0 <= k < |actions| ==> Step(run[k], actions[k], run[k + 1])
  }

  const SETTABLE: set<ConditionType> := {Scaling, Creating, Upgrading, Updating, Healthy, Failed}

  ghost predicate Distinct(list: seq<Condition>) {
    forall i, j :: 0 <= i < j < |list| ==> list[i].kind != list[j].kind
  }

  ghost predicate Invariant(s: State) {
    && Distinct(s.list)
    && (forall i :: 0 <= i < |s.list| ==> s.list[i].kind in SETTABLE && s.list[i].updatedAt <= s.clock)
    && (s.latest.Some? ==> Position(s.list, s.latest.value) >= 0)
    && (s.latest.Some? ==> forall i :: 0 <= i < |s.list| ==>
         (s.list[i].updatedAt == s.clock <==> s.list[i].kind == s.latest.value))
  }

  /** The list as a finite map from types to conditions. */
  ghost function AsMap(list: seq<Condition>): map<ConditionType, Condition> {
    map kind | kind in Kinds(list) :: list[Position(list, kind)]
  }

  ghost function Kinds(list: seq<Condition>): (kinds: set<ConditionType>)
    ensures forall k :: k in kinds <==> Position(list, k) >= 0
  {
    var kinds := set c | c in list :: c.kind;
    assert forall k :: Position(list, k) >= 0 ==> list[Position(list, k)] in list;
    kinds
  }

  /** With distinct types an entry of the list is an entry of the map. */
  lemma EntryIff(list: seq<Condition>, c: Condition)
    requires Distinct(list)
    ensures c in list <==> c.kind in AsMap(list) && AsMap(list)[c.kind] == c
  {
    if c in list {
      var i :| 0 <= i < |list| && list[i] == c;
      var p := Position(list, c.kind);
      assert p == i;
    } else if c.kind in AsMap(list) {
      assert list[Position(list, c.kind)] in list;
    }
  }

  /** A map with the list's entries is the list's map. */
  lemma MapFromMembers(list: seq<Condition>, m: map<ConditionType, Condition>)
    requires Distinct(list)
    requires forall k :: k in m ==> m[k].kind == k
    requires forall c :: c in list <==> c.kind in m && m[c.kind] == c
    ensures AsMap(list) == m
  {
    forall k | k in AsMap(list)
      ensures k in m && AsMap(list)[k] == m[k]
    {
      assert list[Position(list, k)] in list;
    }
    forall k | k in m
      ensures k in AsMap(list)
    {
      EntryIff(list, m[k]);
    }
  }

  /** The actions on a map that the actions on the list implement. */
  ghost function MapAction(m: map<ConditionType, Condition>, a: Action): map<ConditionType, Condition> {
    match a
    case Set(setter, message, now) =>
      var c := News(setter, message, now);
      m[c.kind := if c.kind in m && SameNews(m[c.kind], c) then m[c.kind].(updatedAt := now, updateStamp := now) else c]
    case Clear(kind) => m - {kind}
    case StoreStatus => m
    case Refetch => map kind | kind in m :: m[kind].(updatedAt := 0)
  }

  /** The entry that a setter leaves behind. */
  ghost function Entry(list: seq<Condition>, c: Condition, now: nat): (e: Condition)
    ensures e.kind == c.kind
  {
    var pos := Position(list, c.kind);
    if pos >= 0 && SameNews(list[pos], c) then list[pos].(updatedAt := now, updateStamp := now) else c
  }

  lemma PutMembers(list: seq<Condition>, c: Condition, now: nat)
    requires Distinct(list)
    ensures Distinct(Put(list, c, now))
    ensures forall d :: d in Put(list, c, now) <==> d == Entry(list, c, now) || (d in list && d.kind != c.kind)
  {
    var pos, new_, e := Position(list, c.kind), Put(list, c, now), Entry(list, c, now);
    if pos >= 0 {
      assert new_ == list[pos := e];
      forall d
        ensures d in new_ <==> d == e || (d in list && d.kind != c.kind)
      {
        if d in list && d.kind != c.kind {
          var i :| 0 <= i < |list| && list[i] == d;
          assert new_[i] == d;
        }
        assert new_[pos] == e;
      }
    }
  }

  lemma PutKeeps(list: seq<Condition>, setter: Setter, message: string, now: nat)
    requires Distinct(list)
    ensures var c := News(setter, message, now);
      AsMap(Put(list, c, now)) == MapAction(AsMap(list), Set(setter, message, now))
  {
    var c := News(setter, message, now);
    var new_, m := Put(list, c, now), MapAction(AsMap(list), Set(setter, message, now));
    PutMembers(list, c, now);
    assert m == AsMap(list)[c.kind := Entry(list, c, now)];
    forall d
      ensures d in new_ <==> d.kind in m && m[d.kind] == d
    {
      EntryIff(list, d);
    }
    MapFromMembers(new_, m);
  }

  lemma WithoutMembers(list: seq<Condition>, kind: ConditionType)
    requires Distinct(list)
    ensures Distinct(Without(list, kind))
    ensures forall d :: d in Without(list, kind) <==> d in list && d.kind != kind
  {
    var pos, new_ := Position(list, kind), Without(list, kind);
    if pos >= 0 {
      assert forall i :: 0 <= i < |new_| ==> new_[i] == list[if i < pos then i else i + 1];
      forall d | d in list && d.kind != kind
        ensures d in new_
      {
        var i :| 0 <= i < |list| && list[i] == d;
        assert new_[if i < pos then i else i - 1] == d;
      }
    }
  }

  lemma WithoutKeeps(list: seq<Condition>, kind: ConditionType)
    requires Distinct(list)
    ensures AsMap(Without(list, kind)) == AsMap(list) - {kind}
  {
    var new_, m := Without(list, kind), AsMap(list) - {kind};
    WithoutMembers(list, kind);
    forall d
      ensures d in new_ <==> d.kind in m && m[d.kind] == d
    {
      EntryIff(list, d);
    }
    MapFromMembers(new_, m);
  }

  lemma SortingKeeps(list: seq<Condition>, sorted: seq<Condition>)
    requires Distinct(list) && multiset(list) == multiset(sorted)
    ensures Distinct(sorted) && AsMap(sorted) == AsMap(list)
    ensures forall d :: d in sorted <==> d in list
  {
    Sorting.PermutationFacts(list, sorted);
    Sorting.PermutationKeepsDistinct(list, sorted);
    forall i, j | 0 <= i < j < |sorted|
      ensures sorted[i].kind != sorted[j].kind
    {
      EntryIff(list, sorted[i]);
      EntryIff(list, sorted[j]);
      assert sorted[i] in list && sorted[j] in list && sorted[i] != sorted[j];
    }
    forall d
      ensures d in sorted <==> d.kind in AsMap(list) && AsMap(list)[d.kind] == d
    {
      EntryIff(list, d);
    }
    MapFromMembers(sorted, AsMap(list));
  }

  lemma SamePosition(a: seq<Condition>, b: seq<Condition>, kind: ConditionType)
    requires |a| == |b| && forall i :: 0 <= i < |a| ==> a[i].kind == b[i].kind
    ensures Position(a, kind) == Position(b, kind)
  {
  }

  lemma RefetchEntry(list: seq<Condition>, kind: ConditionType)
    ensures var r, m := AsMap(Refetched(list)), MapAction(AsMap(list), Refetch);
      (kind in r <==> kind in m) && (kind in r ==> r[kind] == m[kind])
  {
    SamePosition(list, Refetched(list), kind);
  }

  lemma RefetchKeeps(list: seq<Condition>)
    ensures AsMap(Refetched(list)) == MapAction(AsMap(list), Refetch)
  {
    var r, m := AsMap(Refetched(list)), MapAction(AsMap(list), Refetch);
    forall kind
      ensures kind in r <==> kind in m
      ensures kind in r ==> r[kind] == m[kind]
    {
      RefetchEntry(list, kind);
    }
    SameMap(r, m);
  }

  /** The invariant speaks of the members of the list only, apart from their being distinct. */
  ghost predicate GoodMember(c: Condition, clock: nat, latest: Option<ConditionType>) {
    && c.kind in SETTABLE && c.updatedAt <= clock
    && (latest.Some? ==> (c.updatedAt == clock <==> c.kind == latest.value))
  }

  ghost predicate HasLatest(s: State) {
    s.latest.Some? ==> s.latest.value in Kinds(s.list)
  }

  lemma ByMembers(s: State)
    ensures Invariant(s) <==>
      Distinct(s.list) && HasLatest(s) && forall d :: d in s.list ==> GoodMember(d, s.clock, s.latest)
  {
    assert forall i :: 0 <= i < |s.list| ==> s.list[i] in s.list;
  }

  lemma SetKeepsInvariant(s: State, setter: Setter, message: string, now: nat, s': State)
    requires Invariant(s) && Step(s, Set(setter, message, now), s')
    ensures Invariant(s')
  {
    var c := News(setter, message, now);
    PutMembers(s.list, c, now);
    ByMembers(s);
    var e := Entry(s.list, c, now);
    assert e in s'.list;
    EntryIff(s'.list, e);
    forall d | d in s'.list
      ensures GoodMember(d, s'.clock, s'.latest)
    {
      assert d == e || d in s.list;
    }
    ByMembers(s');
  }

  lemma ClearKeepsInvariant(s: State, kind: ConditionType, s': State)
    requires Invariant(s) && Step(s, Clear(kind), s')
    ensures Invariant(s')
  {
    WithoutMembers(s.list, kind);
    WithoutKeeps(s.list, kind);
    ByMembers(s);
    assert s.latest.Some? ==> s.latest.value in AsMap(s.list);
    assert s'.latest.Some? ==> s'.latest.value in AsMap(s'.list);
    ByMembers(s');
  }

  lemma StoreKeepsInvariant(s: State, s': State)
    requires Invariant(s) && Step(s, StoreStatus, s')
    ensures Invariant(s')
  {
    SortingKeeps(s.list, s'.list);
    ByMembers(s);
    assert s.latest.Some? ==> s.latest.value in AsMap(s.list);
    ByMembers(s');
  }

  lemma StepKeepsInvariant(s: State, a: Action, s': State)
    requires Invariant(s) && Step(s, a, s')
    ensures Invariant(s')
    ensures AsMap(s'.list) == MapAction(AsMap(s.list), a)
  {
    match a
    case Set(setter, message, now) =>
      PutKeeps(s.list, setter, message, now);
      SetKeepsInvariant(s, setter, message, now, s');
    case Clear(kind) =>
      WithoutKeeps(s.list, kind);
      ClearKeepsInvariant(s, kind, s');
    case StoreStatus =>
      SortingKeeps(s.list, s'.list);
      StoreKeepsInvariant(s, s');
    case Refetch =>
      RefetchKeeps(s.list);
  }

  /** Types stay unique, so the list never holds more than the six types that are ever set. */
  lemma AtMostSix(s: State)
    requires Invariant(s)
    ensures |s.list| <= 6
  {
    KindsCount(s.list);
    assert Kinds(s.list) <= SETTABLE;
    assert |SETTABLE| == 6;
    assert |SETTABLE| == |Kinds(s.list)| + |SETTABLE - Kinds(s.list)| by {
      assert SETTABLE == Kinds(s.list) + (SETTABLE - Kinds(s.list));
    }
  }

  lemma {:induction false} KindsCount(list: seq<Condition>)
    requires Distinct(list)
    ensures |Kinds(list)| == |list|
  {
    if list == [] {
      assert Kinds(list) == {};
    } else {
      var front, last := list[..|list| - 1], list[|list| - 1];
      KindsCount(front);
      assert list == front + [last];
      KindsStep(front, last);
      assert last.kind !in Kinds(front);
    }
  }

  lemma KindsStep(front: seq<Condition>, last: Condition)
    ensures Kinds(front + [last]) == Kinds(front) + {last.kind}
  {
    var list := front + [last];
    forall k
      ensures k in Kinds(list) <==> k in Kinds(front) || k == last.kind
    {
      if Position(front, k) >= 0 {
        assert list[Position(front, k)].kind == k;
      }
      if 0 <= Position(list, k) < |front| {
        assert front[Position(list, k)].kind == k;
      }
      assert list[|front|] == last;
    }
  }

  lemma {:induction false} InvariantHolds(run: seq<State>, actions: seq<Action>, k: nat)
    requires IsRun(run, actions) && k <= |actions|
    ensures Invariant(run[k])
  {
    if k > 0 {
      InvariantHolds(run, actions, k - 1);
      assert Step(run[k - 1], actions[k - 1], run[k - 1 + 1]);
      StepKeepsInvariant(run[k - 1], actions[k - 1], run[k]);
    }
  }

  /**
   * Over every run of setters, clears, status updates and re-reads the list is a map: types
   * are unique, at most six entries exist, and every action does to the map what it should.
   */
  lemma ListIsAMap(run: seq<State>, actions: seq<Action>, k: nat)
    requires IsRun(run, actions) && k <= |actions|
    ensures Distinct(run[k].list) && |run[k].list| <= 6
    ensures k < |actions| ==> AsMap(run[k + 1].list) == MapAction(AsMap(run[k].list), actions[k])
  {
    InvariantHolds(run, actions, k);
    AtMostSix(run[k]);
    if k < |actions| {
      StepKeepsInvariant(run[k], actions[k], run[k + 1]);
    }
  }

  lemma LatestComesFirst(s: State)
    requires Invariant(s) && s.latest.Some? && Sorting.Ascending(s.list, Age)
    ensures s.list != [] && s.list[0].kind == s.latest.value && s.list[0].updatedAt == s.clock
    ensures forall i :: 0 < i < |s.list| ==> s.list[i].updatedAt < s.clock
  {
    var p := Position(s.list, s.latest.value);
    assert s.list[p].updatedAt == s.clock;
    assert p > 0 ==> Age(s.list[0]) <= Age(s.list[p]);
    assert s.list[0].updatedAt == s.clock;
    forall i | 0 < i < |s.list|
      ensures s.list[i].kind != s.list[0].kind
    {
    }
  }

  /** The entry a setter leaves tells its news. */
  lemma EntryTellsNews(list: seq<Condition>, c: Condition, now: nat)
    requires Distinct(list) && c.updatedAt == now
    ensures var m := AsMap(Put(list, c, now));
      c.kind in m && SameNews(m[c.kind], c) && m[c.kind].updatedAt == now
  {
    PutMembers(list, c, now);
    EntryIff(Put(list, c, now), Entry(list, c, now));
  }

  /**
   * The map has the type, true, for this reason, with this message and at this time; the time
   * of the last transition moves unless the same was said already. Every other type is as before.
   */
  ghost predicate Recorded(before: map<ConditionType, Condition>, after: map<ConditionType, Condition>,
                           kind: ConditionType, reason: string, message: string, now: nat) {
    && kind in after && after - {kind} == before - {kind}
    && var c := after[kind];
      && c.kind == kind && c.status == "True" && c.reason == reason && c.message == message
      && c.updatedAt == now && c.updateStamp == now
      && var repeated :=
           kind in before && before[kind].status == "True" && before[kind].reason == reason && before[kind].message == message;
        c.transitionStamp == if repeated then before[kind].transitionStamp else now
  }

  /** The same of a list, whose types stay unique. */
  ghost predicate RecordedIn(before: seq<Condition>, after: seq<Condition>,
                             kind: ConditionType, reason: string, message: string, now: nat) {
    Distinct(before) ==> Distinct(after) && Recorded(AsMap(before), AsMap(after), kind, reason, message, now)
  }

  lemma PutRecords(list: seq<Condition>, setter: Setter, message: string, now: nat)
    ensures var c := News(setter, message, now); RecordedIn(list, Put(list, c, now), c.kind, c.reason, message, now)
  {
    hide AsMap;
    hide Put;
    if Distinct(list) {
      PutMembers(list, News(setter, message, now), now);
      PutKeeps(list, setter, message, now);
      AsMapKinds(list);
    }
  }

  lemma AsMapKinds(list: seq<Condition>)
    ensures forall kind :: kind in AsMap(list) ==> AsMap(list)[kind].kind == kind
  {
  }

  /** The head of a stored list, right after c was set. */
  ghost predicate Heads(stored: seq<Condition>, c: Condition) {
    && stored != [] && stored[0].kind == c.kind && SameNews(stored[0], c) && stored[0].updatedAt == c.updatedAt
    && forall i :: 0 < i < |stored| ==> stored[i].updatedAt < c.updatedAt
  }

  /** c was set last: it stands in the list with its news, at the latest time. */
  ghost predicate StandsLatest(s: State, c: Condition) {
    && s.latest == Some(c.kind) && s.clock == c.updatedAt
    && var m := AsMap(s.list); c.kind in m && SameNews(m[c.kind], c) && m[c.kind].updatedAt == c.updatedAt
  }

  lemma SetStands(s: State, setter: Setter, message: string, now: nat, s': State)
    requires Invariant(s) && Step(s, Set(setter, message, now), s')
    ensures StandsLatest(s', News(setter, message, now))
  {
    EntryTellsNews(s.list, News(setter, message, now), now);
  }

  /** Actions that leave what was set last in place: storing, and clearing other types. */
  predicate Spares(a: Action, kind: ConditionType) {
    a.StoreStatus? || (a.Clear? && a.kind != kind)
  }

  lemma SparedStands(s: State, a: Action, s': State, c: Condition)
    requires Invariant(s) && Step(s, a, s') && Spares(a, c.kind) && StandsLatest(s, c)
    ensures StandsLatest(s', c)
  {
    if a.StoreStatus? {
      SortingKeeps(s.list, s'.list);
    } else {
      WithoutKeeps(s.list, a.kind);
    }
  }

  lemma {:induction false} LatestStands(run: seq<State>, actions: seq<Action>, p: nat, k: nat, c: Condition)
    requires IsRun(run, actions) && p < k <= |actions|
    requires actions[p].Set? && c == News(actions[p].setter, actions[p].message, actions[p].now)
    requires forall t :: p < t < k ==> Spares(actions[t], c.kind)
    ensures StandsLatest(run[k], c)
  {
    hide StandsLatest;
    InvariantHolds(run, actions, k - 1);
    assert Step(run[k - 1], actions[k - 1], run[k - 1 + 1]);
    if k == p + 1 {
      SetStands(run[p], actions[p].setter, actions[p].message, actions[p].now, run[k]);
    } else {
      LatestStands(run, actions, p, k - 1, c);
      SparedStands(run[k - 1], actions[k - 1], run[k], c);
    }
  }

  lemma StoredHeads(s: State, s': State, c: Condition)
    requires Step(s, StoreStatus, s') && Invariant(s') && StandsLatest(s', c)
    ensures Heads(s'.list, c) && Refetched(s'.list)[0].kind == c.kind
  {
    LatestComesFirst(s');
    EntryIff(s'.list, s'.list[0]);
  }

  /**
   * Whenever the status is stored with nothing set since c, and c neither cleared nor read
   * back, the stored list starts with c, carrying the news it was set with and the latest
   * time of all; reading the object back loses the times but not the order.
   */
  lemma LastSetComesFirst(run: seq<State>, actions: seq<Action>, p: nat, k: nat, c: Condition)
    requires IsRun(run, actions) && p < k < |actions| && actions[k].StoreStatus?
    requires actions[p].Set? && c == News(actions[p].setter, actions[p].message, actions[p].now)
    requires forall t :: p < t < k ==> Spares(actions[t], c.kind)
    ensures Heads(run[k + 1].list, c)
    ensures Refetched(run[k + 1].list)[0].kind == c.kind
  {
    hide Step;
    hide StandsLatest;
    hide Invariant;
    hide Heads;
    hide News;
    LatestStands(run, actions, p, k + 1, c);
    InvariantHolds(run, actions, k + 1);
    assert Step(run[k], actions[k], run[k + 1]);
    StoredHeads(run[k], run[k + 1], c);
  }

  /** What the head of a stored list tells about the setter that was called last. */
  ghost predicate NamesSetter(head: Condition, setter: Setter, message: string) {
    && head.status == "True" && head.message == message
    && match setter
       case ScalingUp => head.kind == Scaling && head.reason == "Scaling up"
       case Create => head.kind == Creating && head.reason == "Creating"
       case ScaleDown => head.kind == Scaling && head.reason == "Scaling down"
       case Upgrade => head.kind == Upgrading && head.reason == "Cluster upgrading"
       case Update => head.kind == Updating && head.reason == "Cluster updating"
       case Ready => head.kind == Healthy && head.reason == "Cluster available"
       case Fail => head.kind == Failed && head.reason == "Cluster failed"
  }

  /**
   * Which condition a reader finds first: after Ready type Healthy, after Fail type Failed, and
   * so on for every setter, however often the status was stored since and read back.
   */
  lemma HeadNamesLastSetter(run: seq<State>, actions: seq<Action>, p: nat, k: nat)
    requires IsRun(run, actions) && p < k < |actions| && actions[k].StoreStatus? && actions[p].Set?
    requires forall t :: p < t < k ==> actions[t].StoreStatus?
    ensures run[k + 1].list != [] && NamesSetter(run[k + 1].list[0], actions[p].setter, actions[p].message)
    ensures NamesSetter(Refetched(run[k + 1].list)[0], actions[p].setter, actions[p].message)
  {
    hide Step;
    LastSetComesFirst(run, actions, p, k, News(actions[p].setter, actions[p].message, actions[p].now));
  }
}
