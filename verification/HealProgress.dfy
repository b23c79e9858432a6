/**
 * A pass can end well, and must when nobody stands in its way: with the pods and sentinels that
 * the specification asks for, no more than one master, no setting refused and every sentinel
 * that is asked ready and aware of its replicas, a clean pass has no end but success. What the
 * sentinels know of each other does not matter.
 */
module HealProgress {
  import opened Basics
  import opened Cluster
  import opened HealMachine
  import opened HealSafety
  import opened HealClean
  import opened HealStable
  import NodeConfig
  import Quorum
  import Sorting

  // ---------------------------------------------------------------- nobody stands in the way

  /** No setting is refused, and a sentinel that is asked is ready and knows its replicas. */
  ghost predicate Obliges(plan: Plan, cmd: Command, r: Reply) {
    && (cmd.ConfigSet? || cmd.SentinelSet? ==> r.Done?)
    && (cmd.SentinelInfo? ==> r.InfoIs? && r.statusOk)
    && (cmd.SentinelSlaves? ==> CountOf(r) == Some(plan.size - 1))
  }

  ghost predicate ObligingStep(s: Sys, r: Reply, s': Sys) {
    OpStep(s, Delivered, r, s') && Obliges(s.plan, NextCommand(s.plan, s.op), r)
  }

  ghost predicate ObligingNext(s: Sys, s': Sys) {
    || (QuietStep(s.world, s'.world) && s' == s.(world := s'.world))
    || exists r :: ObligingStep(s, r, s')
  }

  ghost predicate ObligingFrom(run: seq<Sys>, j: nat, k: nat)
    requires k < |run|
  {
    forall t :: j <= t < k ==> ObligingNext(run[t], run[t + 1])
  }

  /** The pods and sentinels the specification asks for are there and ready, and its custom settings are well formed. */
  ghost predicate Staffed(w: World, plan: Plan) {
    && w.redisSet == Counts(plan.size, plan.size) && w.sentinelSet == Counts(plan.sentinels, plan.sentinels)
    && (exists id :: id in w.pods) && (forall id :: id in w.pods ==> w.pods[id].running)
    && forall t :: 0 <= t < |plan.customConfig| ==> GetConfigParameters(plan.customConfig[t]).Some?
  }

  ghost predicate Fit(w: World, plan: Plan) {
    Staffed(w, plan) && AtMostOneMaster(w)
  }

  // ---------------------------------------------------------------- what holds on the way

  /** A listing of everybody. */
  ghost predicate Census(w: World, ips: seq<Addr>) {
    AllReachable(w, ips) && Distinct(ips) && CoversPods(w, ips)
  }

  ghost predicate MasterBefore(w: World, ips: seq<Addr>, i: nat) {
    exists id :: IsMaster(w, id) && Before(w.pods[id].ip, ips, i)
  }

  ghost predicate SomeMaster(w: World) {
    exists m :: OneMasterAt(w, m)
  }

  ghost predicate OneMasterAt(w: World, m: Addr) {
    MasterAt(w, m) && OnlyMasterAt(w, m)
  }

  ghost predicate LocatedSoFar(w: World, ips: seq<Addr>, i: nat, found: seq<Addr>) {
    exists m :: OneMasterAt(w, m) && m in ips && found == if Before(m, ips, i) then [m] else []
  }

  /** The listed pods run, and no two share an address. */
  ghost predicate Everybody(w: World, items: seq<PodView>) {
    && (forall k :: 0 <= k < |items| ==> Reachable(w, items[k].ip))
    && (forall j, k :: 0 <= j < k < |items| ==> items[j].ip != items[k].ip)
  }

  ghost predicate OnTrack(w: World, plan: Plan, op: Op) {
    match op
    case Counting(ips, i, n) => i < |ips| && Census(w, ips) && n == if MasterBefore(w, ips, i) then 1 else 0
    case PromoteSole(ip) => Reachable(w, ip)
    case Promoting(items, i, leader) =>
      && i < |items| && Everybody(w, items)
      && (if i == 0 then leader == "" else leader == items[0].ip && leader != "" && MasterAt(w, leader))
    case MasterList => SomeMaster(w)
    case Locating(ips, i, found) => i < |ips| && Census(w, ips) && LocatedSoFar(w, ips, i, found)
    case Settled(m, step) => StepOnTrack(w, plan, step)
    case Finished(outcome) => outcome == Healthy
    case _ => true
  }

  ghost predicate StepOnTrack(w: World, plan: Plan, step: Step) {
    match step
    case Repointing(items, i) => i < |items| && forall k :: 0 <= k < |items| ==> Reachable(w, items[k].ip)
    case ReadingConfig(ips, _) => AllReachable(w, ips)
    case WritingConfig(ips, _, _, _) => AllReachable(w, ips)
    case AtSentinel(sips, i, task) =>
      && i < |sips| && AllSentinelsReachable(w, sips)
      && (task.Install? ==> forall id :: SentinelRunsAt(w, id, sips[i]) ==> w.sentinels[id].monitored.None?)
      && !Waiting(task)
    case _ => true
  }

  predicate Waiting(task: Task) {
    || task.Restore? || task.ArmTimer? || task.Poll? || task.WaitInfo? || task.WaitBlobs? || task.Pause?
  }

  ghost predicate CourseOnTrack(w: World, plan: Plan, course: Course) {
    match course
    case Go(step) => StepOnTrack(w, plan, step)
    case Stop(outcome) => outcome == Healthy
  }

  ghost predicate TrackInv(s: Sys) {
    CleanInv(s) && Fit(s.world, s.plan) && OnTrack(s.world, s.plan, s.op)
  }

  // ---------------------------------------------------------------- what stays

  lemma CountsStay(w: World, cmd: Command, w': World, r: Reply)
    requires Serves(w, cmd, w', r)
    ensures w'.redisSet == w.redisSet && w'.sentinelSet == w.sentinelSet
    ensures w'.pods.Keys == w.pods.Keys && forall id :: id in w.pods ==> w'.pods[id].running == w.pods[id].running
  {
    hide ListsPods;
    hide ListsSentinels;
    hide Reachable;
    hide NodeConfig.Set;
  }

  lemma StaffStays(w: World, cmd: Command, w': World, r: Reply, plan: Plan)
    requires Serves(w, cmd, w', r) && Staffed(w, plan)
    ensures Staffed(w', plan)
  {
    hide GetConfigParameters;
    hide Serves;
    CountsStay(w, cmd, w', r);
    var id :| id in w.pods;
    assert id in w'.pods.Keys;
    forall a | a in w'.pods
      ensures w'.pods[a].running
    {
      assert a in w.pods.Keys;
    }
  }

  lemma QuietStaff(w: World, w': World, plan: Plan)
    requires QuietStep(w, w') && Fit(w, plan)
    ensures Fit(w', plan)
  {
    hide GetConfigParameters;
    assert forall id :: IsMaster(w', id) <==> IsMaster(w, id);
  }

  lemma ReachStays(w: World, w': World)
    requires SamePods(w, w')
    ensures forall ip :: Reachable(w, ip) <==> Reachable(w', ip)
  {
    forall ip
      ensures Reachable(w, ip) <==> Reachable(w', ip)
    {
      if Reachable(w, ip) {
        var id :| id in w.pods && Answers(w.pods[id], ip);
        assert Runs(w, id) && Runs(w', id);
        assert Answers(w'.pods[id], ip);
      }
      if Reachable(w', ip) {
        var id :| id in w'.pods && Answers(w'.pods[id], ip);
        assert Runs(w', id) && Runs(w, id);
        assert Answers(w.pods[id], ip);
      }
    }
  }

  lemma ListedRuns(w: World, items: seq<PodView>, k: nat)
    requires k < |items| && (forall id :: id in w.pods ==> w.pods[id].running) && ListsPods(items, w)
    ensures RunsAt(w, items[k].id, items[k].ip) && Reachable(w, items[k].ip)
  {
    assert Answers(w.pods[items[k].id], items[k].ip);
  }

  lemma ListedIsEverybody(w: World, items: seq<PodView>)
    requires WellAddressed(w) && (forall id :: id in w.pods ==> w.pods[id].running) && ListsPods(items, w)
    ensures Everybody(w, items) && Sorting.NoRepeats(items)
  {
    hide Reachable;
    forall k | 0 <= k < |items|
      ensures Reachable(w, items[k].ip)
    {
      ListedRuns(w, items, k);
    }
    forall j, k | 0 <= j < k < |items|
      ensures items[j].ip != items[k].ip
    {
      ListedRuns(w, items, j);
      ListedRuns(w, items, k);
      assert items[j].id != items[k].id;
      assert Runs(w, items[j].id) && Runs(w, items[k].id);
    }
    assert forall j, k :: 0 <= j < k < |items| ==> items[j].ip != items[k].ip && items[j] != items[k];
  }

  lemma ListedIsCensus(w: World, plan: Plan, items: seq<PodView>)
    requires WellAddressed(w) && Staffed(w, plan) && ListsPods(items, w)
    ensures Census(w, RunningIPs(items)) && RunningIPs(items) != [] && items != []
  {
    hide RunningIPs;
    hide GetConfigParameters;
    ListingCovers(items, w);
    ListingIsDistinct(items, w);
    var id :| id in w.pods;
    assert Runs(w, id);
    assert ViewOf(id, w.pods[id]) in items;
    hide ListsPods;
    hide Reachable;
    assert w.pods[id].ip in RunningIPs(items);
  }

  // ---------------------------------------------------------------- counting and locating

  lemma OneMaster(w: World, m: Addr)
    requires WellAddressed(w) && AtMostOneMaster(w) && MasterAt(w, m)
    ensures OneMasterAt(w, m)
  {
  }

  lemma CountEnds(w: World, plan: Plan, ips: seq<Addr>, i: nat, n: nat)
    requires i <= |ips| && WellAddressed(w) && AtMostOneMaster(w) && Census(w, ips)
    requires n == if MasterBefore(w, ips, i) then 1 else 0
    ensures OnTrack(w, plan, CountFrom(ips, i, n))
  {
    hide Distinct;
    if i == |ips| && n == 1 {
      var id :| IsMaster(w, id) && Before(w.pods[id].ip, ips, i);
      assert MasterAt(w, w.pods[id].ip);
      OneMaster(w, w.pods[id].ip);
    }
  }

  lemma MasterNext(w: World, ips: seq<Addr>, i: nat, id: PodId)
    requires i < |ips| && WellAddressed(w) && AtMostOneMaster(w) && Census(w, ips) && RunsAt(w, id, ips[i])
    ensures MasterBefore(w, ips, i + 1) <==> MasterBefore(w, ips, i) || w.pods[id].role == Master
    ensures w.pods[id].role == Master ==> !MasterBefore(w, ips, i)
  {
    assert w.pods[id].role == Master ==> IsMaster(w, id);
    OnlyOnce(ips[i], ips, i);
    BeforeNext(w.pods[id].ip, ips, i);
    forall a | IsMaster(w, a)
      ensures Before(w.pods[a].ip, ips, i + 1) <==> Before(w.pods[a].ip, ips, i) || a == id
    {
      BeforeNext(w.pods[a].ip, ips, i);
      assert Runs(w, a) && Runs(w, id);
    }
  }

  /** A question about a role that arrives at a pod is answered by it. */
  lemma RoleReached(w: World, ip: Addr, w': World, r: Reply) returns (id: PodId)
    requires Reachable(w, ip) && Serves(w, InfoReplication(ip), w', r)
    ensures w' == w && RunsAt(w, id, ip) && r == RoleIs(w.pods[id].role)
  {
    id :| RunsAt(w, id, ip) && r == RoleIs(w.pods[id].role);
  }

  lemma CountingOnTrack(w: World, plan: Plan, ips: seq<Addr>, i: nat, n: nat, w': World, r: Reply)
    requires WellAddressed(w) && Fit(w, plan) && OnTrack(w, plan, Counting(ips, i, n))
    requires Serves(w, InfoReplication(ips[i]), w', r)
    ensures OnTrack(w', plan, Advance(plan, Counting(ips, i, n), r))
  {
    hide Serves;
    hide MasterBefore;
    hide Staffed;
    hide CountFrom;
    assert Reachable(w, ips[i]);
    var id := RoleReached(w, ips[i], w', r);
    MasterNext(w, ips, i, id);
    CountEnds(w, plan, ips, i + 1, if r.role == Master then n + 1 else n);
  }

  lemma LocateEnds(w: World, plan: Plan, ips: seq<Addr>, i: nat, found: seq<Addr>)
    requires i <= |ips| && Census(w, ips) && LocatedSoFar(w, ips, i, found)
    ensures OnTrack(w, plan, LocateFrom(ips, i, found))
  {
    var m :| OneMasterAt(w, m) && m in ips && found == if Before(m, ips, i) then [m] else [];
    BeforeEnd(m, ips);
  }

  lemma LocatingOnTrack(w: World, plan: Plan, ips: seq<Addr>, i: nat, found: seq<Addr>, w': World, r: Reply)
    requires WellAddressed(w) && Fit(w, plan) && OnTrack(w, plan, Locating(ips, i, found))
    requires Serves(w, InfoReplication(ips[i]), w', r)
    ensures OnTrack(w', plan, Advance(plan, Locating(ips, i, found), r))
  {
    hide Serves;
    hide Staffed;
    hide LocateFrom;
    hide Before;
    assert Reachable(w, ips[i]);
    var id := RoleReached(w, ips[i], w', r);
    var m :| OneMasterAt(w, m) && m in ips && found == if Before(m, ips, i) then [m] else [];
    var a :| IsMaster(w, a) && w.pods[a].ip == m;
    assert Runs(w, a) && Runs(w, id);
    BeforeNext(m, ips, i);
    OnlyOnce(ips[i], ips, i);
    assert r.role == Master ==> IsMaster(w, id);
    assert LocatedSoFar(w, ips, i + 1, if r.role == Master then found + [ips[i]] else found);
    LocateEnds(w, plan, ips, i + 1, if r.role == Master then found + [ips[i]] else found);
  }

  /** The one master's address is in every census. */
  lemma LocateBegins(w: World, plan: Plan, ips: seq<Addr>)
    requires SomeMaster(w) && Census(w, ips)
    ensures OnTrack(w, plan, LocateFrom(ips, 0, []))
  {
    var m :| OneMasterAt(w, m);
    var a :| IsMaster(w, a) && w.pods[a].ip == m;
    assert Runs(w, a);
    assert LocatedSoFar(w, ips, 0, []);
    LocateEnds(w, plan, ips, 0, []);
  }

  // ---------------------------------------------------------------- promoting

  lemma PromotedIsMaster(w: World, ip: Addr, w': World, r: Reply)
    requires Reachable(w, ip) && Serves(w, SlaveOfNoOne(ip), w', r)
    ensures r == Done && MasterAt(w', ip) && SamePods(w, w')
  {
    var id :| id in w.pods && Answers(w.pods[id], ip);
    assert IsMaster(w', id);
  }

  lemma PointedKeepsMaster(w: World, ip: Addr, host: Addr, w': World, r: Reply)
    requires Reachable(w, ip) && MasterAt(w, host) && ip != host && Serves(w, SlaveOfHost(ip, host), w', r)
    ensures r == Done && MasterAt(w', host) && SamePods(w, w')
  {
    var id :| IsMaster(w, id) && w.pods[id].ip == host;
    assert IsMaster(w', id);
  }

  lemma SortedIsEverybody(w: World, pods: seq<PodView>, items: seq<PodView>)
    requires Everybody(w, pods) && Sorting.NoRepeats(pods) && Sorting.IsSorting(pods, items, Created)
    ensures Everybody(w, items)
  {
    hide Reachable;
    Sorting.PermutationFacts(pods, items);
    Sorting.PermutationKeepsDistinct(pods, items);
    forall k | 0 <= k < |items|
      ensures Reachable(w, items[k].ip)
    {
      assert items[k] in pods;
    }
    forall j, k | 0 <= j < k < |items|
      ensures items[j].ip != items[k].ip
    {
      assert items[j] in pods && items[k] in pods;
      var a :| 0 <= a < |pods| && pods[a] == items[j];
      var b :| 0 <= b < |pods| && pods[b] == items[k];
      assert a != b;
    }
  }

  lemma SoleOnTrack(w: World, plan: Plan, op: Op, w': World, r: Reply)
    requires op.SoleList? || op.AgeList?
    requires WellAddressed(w) && Fit(w, plan) && Serves(w, ListPods, w', r)
    ensures OnTrack(w', plan, Advance(plan, op, r))
  {
    hide RunningIPs;
    hide Staffed;
    hide Distinct;
    hide CoversPods;
    ListedIsCensus(w, plan, r.pods);
  }

  lemma OldestOnTrack(w: World, plan: Plan, w': World, r: Reply, op': Op)
    requires WellAddressed(w) && Fit(w, plan) && Serves(w, ListPods, w', r) && Advances(plan, OldestList, r, op')
    ensures OnTrack(w', plan, op')
  {
    hide RunningIPs;
    hide Everybody;
    hide NodeConfig.Matches;
    ListedIsCensus(w, plan, r.pods);
    ListedIsEverybody(w, r.pods);
    Sorting.PermutationFacts(r.pods, op'.items);
    SortedIsEverybody(w, r.pods, op'.items);
  }

  lemma PromoteSoleOnTrack(w: World, plan: Plan, ip: Addr, w': World, r: Reply)
    requires WellAddressed(w) && NoMaster(w) && OnTrack(w, plan, PromoteSole(ip)) && Serves(w, SlaveOfNoOne(ip), w', r)
    ensures OnTrack(w', plan, Advance(plan, PromoteSole(ip), r))
  {
    hide Serves;
    hide Reachable;
    PromotedIsMaster(w, ip, w', r);
    FirstPromotion(w, ip, Delivered, w', r);
    assert OneMasterAt(w', ip);
  }

  lemma EverybodyStays(w: World, w': World, items: seq<PodView>)
    requires SamePods(w, w') && Everybody(w, items)
    ensures Everybody(w', items)
  {
    hide Reachable;
    ReachStays(w, w');
  }

  lemma PromoteHead(w: World, plan: Plan, items: seq<PodView>, i: nat, leader: Addr)
    requires 0 < i <= |items| && Everybody(w, items)
    requires leader == items[0].ip && leader != "" && OneMasterAt(w, leader)
    ensures OnTrack(w, plan, PromoteFrom(items, i, leader))
  {
    hide Everybody;
  }

  lemma PromotingOnTrack(w: World, plan: Plan, items: seq<PodView>, i: nat, leader: Addr, w': World, r: Reply)
    requires i < |items| && WellAddressed(w) && Knows(w, Promoting(items, i, leader))
    requires OnTrack(w, plan, Promoting(items, i, leader))
    requires Serves(w, NextCommand(plan, Promoting(items, i, leader)), w', r)
    ensures OnTrack(w', plan, Advance(plan, Promoting(items, i, leader), r))
  {
    hide Serves;
    hide Reachable;
    hide PromoteFrom;
    hide OnTrack;
    PromotingMeans(w, plan, items, i, leader);
    assert Reachable(w, items[i].ip) by { EverybodyReached(w, items, i); }
    if i == 0 {
      PromotedIsMaster(w, items[0].ip, w', r);
      FirstPromotion(w, items[0].ip, Delivered, w', r);
      EverybodyStays(w, w', items);
      PromoteHead(w', plan, items, 1, items[0].ip);
    } else {
      PointedKeepsMaster(w, items[i].ip, leader, w', r);
      FollowersOnly(w, SlaveOfHost(items[i].ip, leader), leader, Delivered, w', r);
      EverybodyStays(w, w', items);
      PromoteHead(w', plan, items, i + 1, leader);
    }
  }

  lemma PromotingMeans(w: World, plan: Plan, items: seq<PodView>, i: nat, leader: Addr)
    requires i < |items| && OnTrack(w, plan, Promoting(items, i, leader))
    ensures Everybody(w, items) && (i > 0 ==> items[i].ip != items[0].ip)
    ensures if i == 0 then leader == "" else leader == items[0].ip && leader != "" && MasterAt(w, leader)
  {
    hide Reachable;
  }

  lemma EverybodyReached(w: World, items: seq<PodView>, k: nat)
    requires k < |items| && Everybody(w, items)
    ensures Reachable(w, items[k].ip)
  {
    hide Reachable;
  }

  // ---------------------------------------------------------------- steps of a settled pass

  lemma RepointingOnTrack(w: World, plan: Plan, m: Addr, items: seq<PodView>, i: nat, w': World, r: Reply)
    requires StepOnTrack(w, plan, Repointing(items, i))
    requires Serves(w, StepCommandOf(m, items[i].ip), w', r)
    ensures CourseOnTrack(w', plan, AdvanceStep(plan, m, Repointing(items, i), r))
  {
    var cmd := StepCommandOf(m, items[i].ip);
    assert r == Done;
    assert Happens(w, cmd, Delivered, w', r);
    EffectOnRoles(w, cmd, Delivered, w', r);
    hide Serves;
    hide Reachable;
    ReachStays(w, w');
  }

  lemma ConfigSetKeepsPods(w: World, ip: Addr, key: string, value: string, w': World, r: Reply)
    requires Serves(w, ConfigSet(ip, key, value), w', r)
    ensures SamePods(w, w')
  {
    ConfigEffect(w, ConfigSet(ip, key, value), w', r);
  }

  lemma ConfigOnTrack(w: World, plan: Plan, m: Addr, step: Step, w': World, r: Reply, op': Op)
    requires ActiveStep(plan, step) && (step.ReadingConfig? || step.WritingConfig?) && StepOnTrack(w, plan, step)
    requires Serves(w, StepCommand(plan, m, step), w', r) && Obliges(plan, StepCommand(plan, m, step), r)
    requires Advances(plan, Settled(m, step), r, op')
    ensures exists course :: op' == Follow(m, course) && CourseOnTrack(w', plan, course)
  {
    hide NodeConfig.Matches;
    hide Reachable;
    hide NodeConfig.Set;
    if step.WritingConfig? {
      ConfigSetKeepsPods(w, step.ips[step.i], step.keys[step.j], plan.config[step.keys[step.j]], w', r);
      ReachStays(w, w');
      assert op' == Follow(m, Go(WriteFrom(step.ips, step.i, step.keys, step.j + 1)));
    } else if r.ConfigIs? && NodeConfig.Matches(plan.config, r.config) {
      assert op' == Follow(m, Go(ConfigFrom(step.ips, step.i + 1)));
    } else {
      var keys :| Lists(keys, plan.config.Keys) && op' == Settled(m, WriteFrom(step.ips, step.i, keys, 0));
      assert op' == Follow(m, Go(WriteFrom(step.ips, step.i, keys, 0)));
    }
  }

  lemma PodStepOnTrack(w: World, plan: Plan, m: Addr, step: Step, w': World, r: Reply, op': Op)
    requires ActiveStep(plan, step) && !step.SentinelList? && !step.AtSentinel? && !step.ReadyCheck?
    requires WellAddressed(w) && Fit(w, plan) && StepOnTrack(w, plan, step)
    requires Serves(w, StepCommand(plan, m, step), w', r) && Obliges(plan, StepCommand(plan, m, step), r)
    requires Advances(plan, Settled(m, step), r, op')
    ensures exists course :: op' == Follow(m, course) && CourseOnTrack(w', plan, course)
  {
    hide NodeConfig.Matches;
    hide RunningIPs;
    hide Reachable;
    hide NodeConfig.Set;
    if step.ReadingConfig? || step.WritingConfig? {
      hide Serves;
      hide Advances;
      ConfigOnTrack(w, plan, m, step, w', r, op');
    } else {
      var course := AdvanceStep(plan, m, step, r);
      assert op' == Follow(m, course);
      hide Advances;
      match step {
        case Repointing(items, i) =>
          RepointingOnTrack(w, plan, m, items, i, w', r);
        case RepointList =>
          ListedIsEverybody(w, r.pods);
        case ConfigList =>
          ListingCovers(r.pods, w);
        case _ =>
      }
    }
  }

  ghost predicate WellFormed(plan: Plan) {
    forall t :: 0 <= t < |plan.customConfig| ==> GetConfigParameters(plan.customConfig[t]).Some?
  }

  lemma {:induction false} CustomGoesOn(plan: Plan, sips: seq<Addr>, i: nat, j: nat)
    requires WellFormed(plan)
    ensures CustomFrom(plan, sips, i, j).Go?
    decreases |sips| - i
  {
    hide GetConfigParameters;
    if i < |sips| && j >= |plan.customConfig| {
      CustomGoesOn(plan, sips, i + 1, 0);
    }
  }

  lemma HeadsOnTrack(w: World, plan: Plan, sips: seq<Addr>, i: nat, j: nat)
    requires WellFormed(plan) && AllSentinelsReachable(w, sips)
    ensures CourseOnTrack(w, plan, CustomFrom(plan, sips, i, j))
    ensures CourseOnTrack(w, plan, PeersFrom(plan, sips, i))
    ensures CourseOnTrack(w, plan, MemoryFrom(plan, sips, i))
    ensures CourseOnTrack(w, plan, MonitorFrom(plan, sips, i))
  {
    hide CustomFrom;
    hide WellFormed;
    hide AllSentinelsReachable;
    CustomGoesOn(plan, sips, i, j);
    CustomGoesOn(plan, sips, 0, 0);
  }

  lemma OptionOnTrack(w: World, plan: Plan, sips: seq<Addr>, i: nat, j: nat)
    requires WellFormed(plan) && AllSentinelsReachable(w, sips) && i < |sips|
    ensures CourseOnTrack(w, plan, OptionFrom(plan, sips, i, j))
  {
    hide MonitorFrom;
    hide MonitorOptions;
    hide WellFormed;
    hide AllSentinelsReachable;
    HeadsOnTrack(w, plan, sips, i + 1, 0);
  }

  lemma SentinelsStay(w: World, w': World, sips: seq<Addr>)
    requires SameSentinels(w, w') && AllSentinelsReachable(w, sips)
    ensures AllSentinelsReachable(w', sips)
  {
    forall sip | sip in sips
      ensures SentinelReachable(w', sip)
    {
      var id :| SentinelRunsAt(w, id, sip);
      assert SentinelRuns(w, id) && SentinelRuns(w', id);
      assert SentinelRunsAt(w', id, sip);
    }
  }

  /** After REMOVE the sentinel monitors nothing. */
  lemma RemovedWatchesNothing(w: World, sip: Addr, w': World, r: Reply)
    requires SentinelsAddressed(w) && Serves(w, SentinelRemove(sip), w', r)
    ensures forall id :: SentinelRunsAt(w', id, sip) ==> w'.sentinels[id].monitored.None?
  {
    assert forall id :: SentinelRunsAt(w, id, sip) ==> SentinelRuns(w, id);
    forall id | SentinelRunsAt(w', id, sip)
      ensures w'.sentinels[id].monitored.None?
    {
      if exists a :: SentinelRunsAt(w, a, sip) {
        var a :| SentinelRunsAt(w, a, sip) && w' == WithSentinel(w, a, Removed(w.sentinels[a]));
        assert id != a ==> SentinelRunsAt(w, id, sip);
      }
    }
  }

  /** A sentinel that monitors nothing takes a new monitor. */
  lemma InstallIsTaken(w: World, sip: Addr, host: Addr, quorum: int, w': World, r: Reply)
    requires SentinelReachable(w, sip) && Serves(w, SentinelMonitor(sip, host, quorum), w', r)
    requires forall id :: SentinelRunsAt(w, id, sip) ==> w.sentinels[id].monitored.None?
    ensures r == Done
  {
  }

  lemma ResetIsDone(w: World, sip: Addr, w': World, r: Reply)
    requires SentinelReachable(w, sip) && Serves(w, SentinelReset(sip), w', r)
    ensures r == Done
  {
  }

  lemma TaskOnTrack(w: World, plan: Plan, m: Addr, sips: seq<Addr>, i: nat, task: Task, w': World, r: Reply)
    requires ActiveTask(plan, task) && SentinelsAddressed(w) && WellFormed(plan)
    requires StepOnTrack(w, plan, AtSentinel(sips, i, task))
    requires Serves(w, TaskCommand(plan, m, sips[i], task), w', r) && Obliges(plan, TaskCommand(plan, m, sips[i], task), r)
    ensures CourseOnTrack(w', plan, AdvanceTask(plan, m, sips, i, task, r))
  {
    hide Serves;
    hide AllSentinelsReachable;
    hide SentinelReachable;
    hide WellFormed;
    hide MonitorFrom;
    hide MemoryFrom;
    hide PeersFrom;
    hide OptionFrom;
    hide CustomFrom;
    hide MonitorOptions;
    hide GetConfigParameters;
    SentinelEffect(w, TaskCommand(plan, m, sips[i], task), w', r);
    SentinelsStay(w, w', sips);
    HeadsOnTrack(w', plan, sips, i + 1, 0);
    match task {
      case CheckMonitor =>
      case Remove => RemovedWatchesNothing(w, sips[i], w', r);
      case Install =>
        ReachableAt(w, sips, i);
        InstallIsTaken(w, sips[i], m, Quorum.GetQuorum(plan.sentinels), w', r);
        OptionOnTrack(w', plan, sips, i, 0);
      case SetOption(j) => OptionOnTrack(w', plan, sips, i, j + 1);
      case AskInfo =>
      case AskBlobs =>
      case AskPeers =>
      case ResetPeers =>
        ReachableAt(w, sips, i);
        ResetIsDone(w, sips[i], w', r);
      case SetCustom(j) => HeadsOnTrack(w', plan, sips, i, j + 1);
    }
  }

  lemma ReachableAt(w: World, sips: seq<Addr>, i: nat)
    requires i < |sips| && AllSentinelsReachable(w, sips)
    ensures SentinelReachable(w, sips[i])
  {
  }

  lemma SentinelStepOnTrack(w: World, plan: Plan, m: Addr, step: Step, w': World, r: Reply)
    requires step.SentinelList? || step.AtSentinel? || step.ReadyCheck?
    requires ActiveStep(plan, step) && SentinelsAddressed(w) && Staffed(w, plan) && StepOnTrack(w, plan, step)
    requires Serves(w, StepCommand(plan, m, step), w', r) && Obliges(plan, StepCommand(plan, m, step), r)
    ensures CourseOnTrack(w', plan, AdvanceStep(plan, m, step, r))
  {
    hide AllSentinelsReachable;
    hide GetConfigParameters;
    hide RunningSentinelIPs;
    assert WellFormed(plan);
    match step {
      case SentinelList =>
        hide MonitorFrom;
        HealedSentinels(w, r.sentinels);
        HeadsOnTrack(w, plan, RunningSentinelIPs(r.sentinels), 0, 0);
      case AtSentinel(sips, i, task) =>
        hide Serves;
        hide AdvanceTask;
        hide TaskCommand;
        TaskOnTrack(w, plan, m, sips, i, task, w', r);
      case ReadyCheck(_) =>
    }
  }

  // ---------------------------------------------------------------- any step

  lemma SettledOnTrack(w: World, plan: Plan, m: Addr, step: Step, w': World, r: Reply, op': Op)
    requires ActiveStep(plan, step) && WellAddressed(w) && SentinelsAddressed(w) && Fit(w, plan) && StepOnTrack(w, plan, step)
    requires Serves(w, StepCommand(plan, m, step), w', r) && Obliges(plan, StepCommand(plan, m, step), r)
    requires Advances(plan, Settled(m, step), r, op')
    ensures OnTrack(w', plan, op')
  {
    hide Serves;
    hide StepCommand;
    hide StepOnTrack;
    hide Obliges;
    hide AdvanceStep;
    if step.SentinelList? || step.AtSentinel? || step.ReadyCheck? {
      SentinelStepOnTrack(w, plan, m, step, w', r);
    } else {
      hide Advances;
      PodStepOnTrack(w, plan, m, step, w', r, op');
    }
  }

  /** The number checks pass, and every listing arrives. */
  lemma ListOnTrack(w: World, plan: Plan, op: Op, w': World, r: Reply)
    requires op.RedisNumber? || op.SentinelNumber? || op.CountList? || op.MasterList?
    requires WellAddressed(w) && Fit(w, plan) && OnTrack(w, plan, op) && Serves(w, NextCommand(plan, op), w', r)
    ensures OnTrack(w', plan, Advance(plan, op, r))
  {
    hide RunningIPs;
    hide GetConfigParameters;
    hide Census;
    hide CountFrom;
    hide LocateFrom;
    hide SomeMaster;
    if op.CountList? || op.MasterList? {
      ListedIsCensus(w, plan, r.pods);
      if op.CountList? {
        CountEnds(w, plan, RunningIPs(r.pods), 0, 0);
      } else {
        LocateBegins(w, plan, RunningIPs(r.pods));
      }
    }
  }

  lemma OpOnTrack(w: World, plan: Plan, op: Op, w': World, r: Reply, op': Op)
    requires Active(plan, op) && WellAddressed(w) && SentinelsAddressed(w) && Knows(w, op) && Fit(w, plan) && OnTrack(w, plan, op)
    requires Serves(w, NextCommand(plan, op), w', r) && Obliges(plan, NextCommand(plan, op), r) && Advances(plan, op, r, op')
    ensures OnTrack(w', plan, op')
  {
    hide Serves;
    hide Fit;
    hide Obliges;
    hide StepOnTrack;
    hide OnTrack;
    match op {
      case Settled(m, step) =>
        hide Advances;
        SettledMeans(w, plan, m, step);
        SettledOnTrack(w, plan, m, step, w', r, op');
      case Counting(ips, i, n) => CountingOnTrack(w, plan, ips, i, n, w', r);
      case Locating(ips, i, found) => LocatingOnTrack(w, plan, ips, i, found, w', r);
      case SoleList => SoleOnTrack(w, plan, op, w', r);
      case AgeList => SoleOnTrack(w, plan, op, w', r);
      case OldestList => OldestOnTrack(w, plan, w', r, op');
      case PromoteSole(ip) => PromoteSoleOnTrack(w, plan, ip, w', r);
      case Promoting(items, i, leader) => PromotingOnTrack(w, plan, items, i, leader, w', r);
      case RedisNumber => ListOnTrack(w, plan, op, w', r);
      case SentinelNumber => ListOnTrack(w, plan, op, w', r);
      case CountList => ListOnTrack(w, plan, op, w', r);
      case MasterList => ListOnTrack(w, plan, op, w', r);
    }
  }

  lemma SettledMeans(w: World, plan: Plan, m: Addr, step: Step)
    requires OnTrack(w, plan, Settled(m, step))
    ensures StepOnTrack(w, plan, step)
  {
  }

  lemma QuietOnTrack(w: World, w': World, plan: Plan, op: Op)
    requires QuietStep(w, w') && OnTrack(w, plan, op)
    ensures OnTrack(w', plan, op)
  {
    hide Distinct;
    hide Before;
    QuietIsSameView(w, w');
    assert forall id :: Runs(w', id) <==> Runs(w, id);
    assert forall id :: IsMaster(w', id) <==> IsMaster(w, id);
    assert forall ip :: Reachable(w', ip) <==> Reachable(w, ip);
    assert forall m :: MasterAt(w, m) ==> MasterAt(w', m) by {
      forall m | MasterAt(w, m)
        ensures MasterAt(w', m)
      {
        var id :| IsMaster(w, id) && w.pods[id].ip == m;
        assert IsMaster(w', id);
      }
    }
    assert forall m :: OneMasterAt(w, m) ==> OneMasterAt(w', m);
    if op.Settled? && op.step.AtSentinel? && op.step.i < |op.step.sips| {
      SentinelsStay(w, w', op.step.sips);
      assert forall id :: id in w.sentinels ==> LearnsOnly(w.sentinels[id], w'.sentinels[id]);
    }
  }

  // ---------------------------------------------------------------- runs

  lemma ObligingIsClean(s: Sys, s': Sys)
    requires ObligingNext(s, s')
    ensures CleanNext(s, s')
  {
    hide OpStep;
    hide QuietStep;
    hide Obliges;
    if !(QuietStep(s.world, s'.world) && s' == s.(world := s'.world)) {
      var r :| ObligingStep(s, r, s');
    }
  }

  lemma StepTracks(s: Sys, r: Reply, s': Sys)
    requires TrackInv(s) && ObligingStep(s, r, s')
    ensures Fit(s'.world, s'.plan) && OnTrack(s'.world, s'.plan, s'.op)
  {
    hide Serves;
    hide CleanFacts;
    hide Advances;
    hide NextCommand;
    hide Obliges;
    hide OnTrack;
    hide Staffed;
    OpAddsNoSecondMaster(s, Delivered, r, s');
    StaffStays(s.world, NextCommand(s.plan, s.op), s'.world, r, s.plan);
    OpOnTrack(s.world, s.plan, s.op, s'.world, r, s'.op);
  }

  lemma ObligingKeeps(s: Sys, s': Sys)
    requires TrackInv(s) && ObligingNext(s, s')
    ensures TrackInv(s')
  {
    hide CleanInv;
    hide Fit;
    hide OnTrack;
    hide QuietStep;
    hide ObligingStep;
    ObligingIsClean(s, s');
    CleanKeeps(s, s');
    if QuietStep(s.world, s'.world) && s' == s.(world := s'.world) {
      QuietOnTrack(s.world, s'.world, s.plan, s.op);
      QuietStaff(s.world, s'.world, s.plan);
    } else {
      var r :| ObligingStep(s, r, s');
      StepTracks(s, r, s');
    }
  }

  lemma {:induction false} TrackHolds(run: seq<Sys>, j: nat, k: nat)
    requires j <= k < |run| && ObligingFrom(run, j, k) && TrackInv(run[j])
    ensures TrackInv(run[k]) && CleanFrom(run, j, k)
  {
    hide TrackInv;
    hide ObligingNext;
    hide CleanNext;
    if j < k {
      TrackHolds(run, j, k - 1);
      ObligingKeeps(run[k - 1], run[k]);
      ObligingIsClean(run[k - 1], run[k]);
    }
  }

  /**
   * When a clean pass must end well: the pods and sentinels of the specification are there and
   * ready and its custom settings well formed, at most one pod is master, no setting is
   * refused, and a sentinel that is asked is ready and knows its replicas. Whatever roles,
   * settings and monitors it begins with, and whatever the sentinels know of each other, the
   * pass has no end but success, and has healed then.
   */
  lemma ObligingPassEndsWell(run: seq<Sys>, j: nat, k: nat) returns (m: Addr)
    requires j <= k < |run| && ObligingFrom(run, j, k) && Begins(run[j]) && Fit(run[j].world, run[j].plan)
    requires run[k].op.Finished?
    ensures run[k].op == Finished(Healthy) && Healed(run[k].world, run[k].plan.config, m)
  {
    hide Fit;
    hide ObligingFrom;
    hide CleanFrom;
    TrackHolds(run, j, k);
    m := CleanPassHeals(run, j, k);
  }
}
