/**
 * Stabilisation and rest. After any history of failed passes, crashes and losses one clean
 * pass that ends well heals; after that a clean pass changes nothing.
 */
module HealStable {
  import opened Basics
  import opened Cluster
  import opened HealMachine
  import opened HealSafety
  import opened HealClean
  import NodeConfig

  // ---------------------------------------------------------------- replicas name their host, in every run

  lemma HostsStay(w: World, cmd: Command, fate: Fate, w': World, r: Reply)
    requires Happens(w, cmd, fate, w', r) && HostsNamed(w)
    requires cmd.SlaveOfHost? ==> cmd.host != ""
    ensures HostsNamed(w')
  {
    hide NodeConfig.Set;
    if fate != RequestLost {
      var r0 :| Serves(w, cmd, w', r0);
      if ToSentinel(cmd) {
        SentinelEffect(w, cmd, w', r0);
      } else {
        OtherEffect(w, cmd, w', r0);
      }
    }
  }

  lemma NextNamesHosts(s: Sys, s': Sys)
    requires Inv(s) && Next(s, s') && HostsNamed(s.world)
    ensures HostsNamed(s'.world)
  {
    hide Happens;
    hide NextCommand;
    if !WorldStep(s, s') && !BeginPass(s, s') {
      var fate, r :| OpStep(s, fate, r, s');
      OpNamesHosts(s.plan, s.op);
      HostsStay(s.world, NextCommand(s.plan, s.op), fate, s'.world, r);
    }
  }

  lemma {:induction false} HostsNamedHolds(run: seq<Sys>, k: nat)
    requires IsRun(run) && AtRest(run[0]) && HostsNamed(run[0].world) && k < |run|
    ensures HostsNamed(run[k].world)
  {
    hide Next;
    if k > 0 {
      HostsNamedHolds(run, k - 1);
      InvHolds(run, k - 1);
      NextNamesHosts(run[k - 1], run[k]);
    }
  }

  // ---------------------------------------------------------------- stabilisation

  lemma CleanDemotesNoMaster(s: Sys, s': Sys, id: PodId)
    requires Inv(s) && CleanNext(s, s') && IsMaster(s.world, id) && !s.op.Promoting?
    ensures IsMaster(s'.world, id) && !s'.op.Promoting? && s'.plan == s.plan
  {
    hide OpStep;
    if !(QuietStep(s.world, s'.world) && s' == s.(world := s'.world)) {
      var r :| OpStep(s, Delivered, r, s');
      OpDemotesNoMaster(s, Delivered, r, s', id);
      OpKeepsPlan(s, Delivered, r, s');
    }
  }

  lemma OpKeepsPlan(s: Sys, fate: Fate, r: Reply, s': Sys)
    requires OpStep(s, fate, r, s')
    ensures s'.plan == s.plan
  {
  }

  lemma {:induction false} CleanKeepsPlan(run: seq<Sys>, j: nat, k: nat)
    requires j <= k < |run| && CleanFrom(run, j, k)
    ensures run[k].plan == run[j].plan
  {
    hide OpStep;
    if j < k {
      CleanKeepsPlan(run, j, k - 1);
      var s, s' := run[k - 1], run[k];
      assert CleanNext(s, s');
      if !(QuietStep(s.world, s'.world) && s' == s.(world := s'.world)) {
        var r :| OpStep(s, Delivered, r, s');
        OpKeepsPlan(s, Delivered, r, s');
      }
    }
  }

  lemma {:induction false} CleanKeepsMaster(run: seq<Sys>, j: nat, k: nat, id: PodId)
    requires j <= k < |run| && CleanFrom(run, j, k) && CleanInv(run[j])
    requires IsMaster(run[j].world, id) && !run[j].op.Promoting?
    ensures IsMaster(run[k].world, id) && !run[k].op.Promoting?
  {
    hide CleanNext;
    if j < k {
      CleanKeepsMaster(run, j, k - 1, id);
      CleanHolds(run, j, k - 1);
      CleanDemotesNoMaster(run[k - 1], run[k], id);
    }
  }

  /**
   * A clean pass that ends well leaves exactly one master; if there was a master when it
   * began, it is that one. (With two, the pass would not have ended well.)
   */
  lemma CleanPassKeepsTheMaster(run: seq<Sys>, j: nat, k: nat) returns (master: PodId)
    requires j <= k < |run| && CleanFrom(run, j, k) && Begins(run[j])
    requires run[k].op == Finished(Healthy)
    ensures IsMaster(run[k].world, master)
    ensures Healed(run[k].world, run[j].plan.config, run[k].world.pods[master].ip)
    ensures forall id :: IsMaster(run[k].world, id) ==> id == master
    ensures forall id :: IsMaster(run[j].world, id) ==> id == master
  {
    hide CleanFrom;
    var m := CleanPassHeals(run, j, k);
    CleanKeepsPlan(run, j, k);
    HealedHasOneMaster(run[k].world, run[k].plan.config, m);
    master :| IsMaster(run[k].world, master) && run[k].world.pods[master].ip == m
      && forall other :: IsMaster(run[k].world, other) ==> other == master;
    forall id | IsMaster(run[j].world, id)
      ensures id == master
    {
      CleanKeepsMaster(run, j, k, id);
    }
  }

  /**
   * Self-stabilisation. Whatever happened before j - passes cut off at any command, between
   * REMOVE and MONITOR too, lost replies, crashes, restarts, scalings - a clean pass from j
   * that ends well at k leaves one master, the one from before if there was one, everybody
   * replicating from it and configured, and every sentinel watching it.
   */
  lemma Stabilises(run: seq<Sys>, j: nat, k: nat) returns (master: PodId)
    requires IsRun(run) && AtRest(run[0]) && HostsNamed(run[0].world)
    requires j <= k < |run| && run[j].op == RedisNumber && SentinelsAddressed(run[j].world)
    requires CleanFrom(run, j, k) && run[k].op == Finished(Healthy)
    ensures IsMaster(run[k].world, master)
    ensures Healed(run[k].world, run[j].plan.config, run[k].world.pods[master].ip)
    ensures forall id :: IsMaster(run[k].world, id) ==> id == master
    ensures forall id :: IsMaster(run[j].world, id) ==> id == master
  {
    hide CleanFrom;
    hide Healed;
    InvHolds(run, j);
    HostsNamedHolds(run, j);
    master := CleanPassKeepsTheMaster(run, j, k);
  }

  // ---------------------------------------------------------------- rest

  /** Commands that leave roles, monitors and settings as they are. */
  predicate Calm(cmd: Command) {
    !ChangesRole(cmd) && !ChangesMonitor(cmd) && !cmd.ConfigSet?
  }

  ghost predicate AllReachable(w: World, ips: seq<Addr>) {
    forall ip :: ip in ips ==> Reachable(w, ip)
  }

  ghost predicate SentinelReachable(w: World, sip: Addr) {
    exists id :: SentinelRunsAt(w, id, sip)
  }

  ghost predicate AllSentinelsReachable(w: World, sips: seq<Addr>) {
    forall sip :: sip in sips ==> SentinelReachable(w, sip)
  }

  ghost predicate Distinct(ips: seq<Addr>) {
    forall j, k :: 0 <= j < k < |ips| ==> ips[j] != ips[k]
  }

  /** A snapshot as a fresh listing of a healed world gives it. */
  ghost predicate Snapshot(w: World, m: Addr, ips: seq<Addr>) {
    AllReachable(w, ips) && Distinct(ips) && m in ips
  }

  /** Where a clean pass over a healed world can be, and what it has seen. */
  ghost predicate Resting(w: World, m: Addr, op: Op) {
    match op
    case Idle => true
    case RedisNumber => true
    case SentinelNumber => true
    case CountList => true
    case Counting(ips, i, n) => i < |ips| && Snapshot(w, m, ips) && n == if Before(m, ips, i) then 1 else 0
    case MasterList => true
    case Locating(ips, i, found) => i < |ips| && Snapshot(w, m, ips) && found == if Before(m, ips, i) then [m] else []
    case Settled(m', step) => m' == m && RestingStep(w, step)
    case Finished(_) => true
    case _ => false
  }

  ghost predicate RestingStep(w: World, step: Step) {
    match step
    case SlavesList => true
    case CheckingSlaves(ips, _) => AllReachable(w, ips)
    case ConfigList => true
    case ReadingConfig(ips, _) => AllReachable(w, ips)
    case SentinelList => true
    case AtSentinel(sips, _, task) =>
      && AllSentinelsReachable(w, sips)
      && !task.Remove? && !task.Install? && !task.SetOption?
    case ReadyCheck(_) => true
    case _ => false
  }

  ghost predicate RestingCourse(w: World, course: Course) {
    course.Go? ==> RestingStep(w, course.step)
  }

  lemma RestingIsCalm(plan: Plan, w: World, m: Addr, op: Op)
    requires Resting(w, m, op) && Active(plan, op)
    ensures Calm(NextCommand(plan, op))
  {
  }

  // What a healed world answers.

  lemma HealedRole(w: World, config: NodeConfig.Config, m: Addr, ip: Addr, r: Reply)
    requires WellAddressed(w) && Healed(w, config, m) && Reachable(w, ip) && Serves(w, InfoReplication(ip), w, r)
    ensures r == RoleIs(if ip == m then Master else SlaveOf(m))
  {
    hide AllConfigured;
    hide AllWatching;
    var id :| RunsAt(w, id, ip) && r == RoleIs(w.pods[id].role);
    assert Runs(w, id) && Pointed(w.pods[id], m);
  }

  lemma HealedConfig(w: World, config: NodeConfig.Config, m: Addr, ip: Addr, r: Reply)
    requires Healed(w, config, m) && Reachable(w, ip) && Serves(w, ConfigGet(ip), w, r)
    ensures r.ConfigIs? && NodeConfig.Matches(config, r.config)
  {
    hide NodeConfig.Matches;
    hide AllPointed;
    hide AllWatching;
    var id :| RunsAt(w, id, ip) && r == ConfigIs(w.pods[id].config);
    assert Runs(w, id);
  }

  lemma HealedMonitor(w: World, config: NodeConfig.Config, m: Addr, sip: Addr, w': World, r: Reply)
    requires Healed(w, config, m) && SentinelReachable(w, sip) && Serves(w, SentinelMaster(sip), w', r)
    ensures r == MonitorIs(m)
  {
    hide AllPointed;
    hide AllConfigured;
    var id :| SentinelRunsAt(w, id, sip) && r == if w.sentinels[id].monitored.Some? then MonitorIs(w.sentinels[id].monitored.value) else Failed;
    assert SentinelRuns(w, id);
  }

  lemma HealedSnapshot(w: World, config: NodeConfig.Config, m: Addr, items: seq<PodView>)
    requires WellAddressed(w) && Healed(w, config, m) && ListsPods(items, w)
    ensures Snapshot(w, m, RunningIPs(items))
  {
    hide RunningIPs;
    hide AllPointed;
    hide AllConfigured;
    hide AllWatching;
    ListingCovers(items, w);
    ListingIsDistinct(items, w);
    var id :| IsMaster(w, id) && w.pods[id].ip == m;
    assert Runs(w, id);
  }

  lemma HealedSentinels(w: World, items: seq<SentinelView>)
    requires ListsSentinels(items, w)
    ensures AllSentinelsReachable(w, RunningSentinelIPs(items))
  {
    forall sip | sip in RunningSentinelIPs(items)
      ensures SentinelReachable(w, sip)
    {
      RunningSentinelIPsMembers(items, sip);
      var k :| 0 <= k < |items| && items[k].running && items[k].ip == sip;
      assert SentinelRunsAt(w, items[k].id, sip);
    }
  }

  // The loops that ask for roles come to one master, at m.

  lemma CountRests(w: World, m: Addr, ips: seq<Addr>, i: nat, n: nat)
    requires i <= |ips| && Snapshot(w, m, ips) && n == if Before(m, ips, i) then 1 else 0
    ensures Resting(w, m, CountFrom(ips, i, n))
  {
    BeforeEnd(m, ips);
  }

  lemma LocateRests(w: World, m: Addr, ips: seq<Addr>, i: nat, found: seq<Addr>)
    requires i <= |ips| && Snapshot(w, m, ips) && found == if Before(m, ips, i) then [m] else []
    ensures Resting(w, m, LocateFrom(ips, i, found))
  {
    BeforeEnd(m, ips);
  }

  lemma OnlyOnce(m: Addr, ips: seq<Addr>, i: nat)
    requires i < |ips| && Distinct(ips) && ips[i] == m
    ensures !Before(m, ips, i)
  {
  }

  lemma ScanRests(plan: Plan, w: World, m: Addr, op: Op, r: Reply)
    requires WellAddressed(w) && Healed(w, plan.config, m)
    requires (op.Counting? || op.Locating?) && Resting(w, m, op) && Serves(w, InfoReplication(op.ips[op.i]), w, r)
    ensures Resting(w, m, Advance(plan, op, r))
  {
    hide Healed;
    hide Serves;
    hide Snapshot;
    hide CountFrom;
    hide LocateFrom;
    hide Before;
    assert Snapshot(w, m, op.ips) ==> AllReachable(w, op.ips) && Distinct(op.ips) by {
      SnapshotMeans(w, m, op.ips);
    }
    HealedRole(w, plan.config, m, op.ips[op.i], r);
    BeforeNext(m, op.ips, op.i);
    if op.ips[op.i] == m {
      OnlyOnce(m, op.ips, op.i);
    }
    if op.Counting? {
      CountRests(w, m, op.ips, op.i + 1, if r.role == Master then op.n + 1 else op.n);
    } else {
      LocateRests(w, m, op.ips, op.i + 1, if r.role == Master then op.found + [op.ips[op.i]] else op.found);
    }
  }

  lemma SnapshotMeans(w: World, m: Addr, ips: seq<Addr>)
    requires Snapshot(w, m, ips)
    ensures AllReachable(w, ips) && Distinct(ips) && m in ips
  {
  }

  lemma ListRests(plan: Plan, w: World, m: Addr, op: Op, r: Reply)
    requires WellAddressed(w) && Healed(w, plan.config, m)
    requires (op.CountList? || op.MasterList?) && Serves(w, ListPods, w, r)
    ensures Resting(w, m, Advance(plan, op, r))
  {
    hide Healed;
    hide Snapshot;
    hide RunningIPs;
    hide CountFrom;
    hide LocateFrom;
    var ips := RunningIPs(r.pods);
    HealedSnapshot(w, plan.config, m, r.pods);
    if op.CountList? {
      CountRests(w, m, ips, 0, 0);
    } else {
      LocateRests(w, m, ips, 0, []);
    }
  }

  lemma MonitorRests(w: World, plan: Plan, sips: seq<Addr>, i: nat)
    requires AllSentinelsReachable(w, sips)
    ensures RestingCourse(w, MonitorFrom(plan, sips, i))
    ensures RestingCourse(w, MemoryFrom(plan, sips, i))
    ensures RestingCourse(w, PeersFrom(plan, sips, i))
  {
  }

  lemma TaskRests(w: World, plan: Plan, m: Addr, sips: seq<Addr>, i: nat, task: Task, w': World, r: Reply)
    requires i < |sips| && ActiveTask(plan, task) && Healed(w, plan.config, m)
    requires RestingStep(w, AtSentinel(sips, i, task)) && Serves(w, TaskCommand(plan, m, sips[i], task), w', r)
    ensures RestingCourse(w, AdvanceTask(plan, m, sips, i, task, r))
  {
    hide Healed;
    hide Serves;
    hide CustomFrom;
    hide MonitorFrom;
    hide MemoryFrom;
    hide PeersFrom;
    MonitorRests(w, plan, sips, i + 1);
    if task.CheckMonitor? {
      HealedMonitor(w, plan.config, m, sips[i], w', r);
    }
  }

  lemma StepRests(w: World, plan: Plan, m: Addr, step: Step, w': World, r: Reply, op': Op)
    requires WellAddressed(w) && Healed(w, plan.config, m)
    requires ActiveStep(plan, step) && RestingStep(w, step)
    requires Serves(w, StepCommand(plan, m, step), w', r) && Advances(plan, Settled(m, step), r, op')
    ensures Resting(w, m, op')
  {
    hide Healed;
    hide NodeConfig.Matches;
    hide RunningIPs;
    hide RunningSentinelIPs;
    hide AdvanceTask;
    hide MonitorFrom;
    match step {
      case CheckingSlaves(ips, i) =>
        hide Serves;
        assert Serves(w, InfoReplication(ips[i]), w, r) by { RoleIsOnlyRead(w, ips[i], w', r); }
        HealedRole(w, plan.config, m, ips[i], r);
      case ReadingConfig(ips, i) =>
        HealedConfig(w, plan.config, m, ips[i], r);
      case SlavesList => ListingCovers(r.pods, w);
      case ConfigList => ListingCovers(r.pods, w);
      case SentinelList =>
        HealedSentinels(w, r.sentinels);
        MonitorRests(w, plan, RunningSentinelIPs(r.sentinels), 0);
      case AtSentinel(sips, i, task) =>
        hide Serves;
        TaskRests(w, plan, m, sips, i, task, w', r);
      case ReadyCheck(_) =>
    }
  }

  lemma RoleIsOnlyRead(w: World, ip: Addr, w': World, r: Reply)
    requires Serves(w, InfoReplication(ip), w', r)
    ensures w' == w
  {
  }

  lemma OpRests(w: World, plan: Plan, m: Addr, op: Op, w': World, r: Reply, op': Op)
    requires WellAddressed(w) && Healed(w, plan.config, m) && Active(plan, op) && Resting(w, m, op)
    requires Serves(w, NextCommand(plan, op), w', r) && Advances(plan, op, r, op')
    ensures Resting(w, m, op')
  {
    hide Healed;
    hide Snapshot;
    hide RestingStep;
    match op {
      case Settled(_, step) =>
        hide Serves;
        hide Advances;
        StepRests(w, plan, m, step, w', r, op');
      case Counting(_, _, _) => ScanRests(plan, w, m, op, r);
      case Locating(_, _, _) => ScanRests(plan, w, m, op, r);
      case CountList => ListRests(plan, w, m, op, r);
      case MasterList => ListRests(plan, w, m, op, r);
      case RedisNumber =>
      case SentinelNumber =>
    }
  }

  lemma ViewKeepsResting(w: World, w': World, config: NodeConfig.Config, m: Addr, op: Op)
    requires SameView(w, w') && WellAddressed(w) && Healed(w, config, m) && Resting(w, m, op)
    ensures WellAddressed(w') && Healed(w', config, m) && Resting(w', m, op)
  {
    hide NodeConfig.Matches;
    hide Distinct;
    hide Before;
    assert forall id :: Runs(w', id) <==> Runs(w, id);
    forall id, sip | SentinelRunsAt(w, id, sip)
      ensures SentinelRunsAt(w', id, sip)
    {
      assert SentinelRuns(w, id);
      assert SentinelRuns(w', id);
    }
    assert forall sip :: SentinelReachable(w, sip) ==> SentinelReachable(w', sip);
    assert forall ip :: Reachable(w, ip) ==> Reachable(w', ip);
    var id :| IsMaster(w, id) && w.pods[id].ip == m;
    assert IsMaster(w', id);
  }

  /** A calm command that arrives leaves the view as it is. */
  lemma CalmKeepsView(w: World, cmd: Command, w': World, r: Reply)
    requires Calm(cmd) && Serves(w, cmd, w', r)
    ensures SameView(w, w')
  {
    hide Serves;
    if ToSentinel(cmd) {
      SentinelEffect(w, cmd, w', r);
    } else {
      OtherEffect(w, cmd, w', r);
    }
  }

  ghost predicate RestInv(s: Sys, m: Addr) {
    && WellAddressed(s.world) && Healed(s.world, s.plan.config, m) && Resting(s.world, m, s.op)
    && forall e :: e in s.log ==> Calm(e.cmd)
  }

  lemma CleanRests(s: Sys, m: Addr, s': Sys)
    requires RestInv(s, m) && CleanNext(s, s')
    ensures RestInv(s', m) && SameView(s.world, s'.world)
  {
    hide Serves;
    hide Healed;
    hide Resting;
    hide QuietStep;
    hide Advances;
    hide NextCommand;
    hide SameView;
    if QuietStep(s.world, s'.world) && s' == s.(world := s'.world) {
      QuietIsSameView(s.world, s'.world);
      ViewKeepsResting(s.world, s'.world, s.plan.config, m, s.op);
    } else {
      var r :| OpStep(s, Delivered, r, s');
      RestingIsCalm(s.plan, s.world, m, s.op);
      CalmKeepsView(s.world, NextCommand(s.plan, s.op), s'.world, r);
      OpRests(s.world, s.plan, m, s.op, s'.world, r, s'.op);
      ViewKeepsResting(s.world, s'.world, s.plan.config, m, s'.op);
    }
  }

  lemma ViewsChain(a: World, b: World, c: World)
    requires SameView(a, b) && SameView(b, c)
    ensures SameView(a, c)
  {
  }

  lemma {:induction false} RestHolds(run: seq<Sys>, j: nat, k: nat, m: Addr)
    requires j <= k < |run| && CleanFrom(run, j, k) && RestInv(run[j], m)
    ensures RestInv(run[k], m) && SameView(run[j].world, run[k].world)
  {
    hide RestInv;
    hide CleanNext;
    if j < k {
      RestHolds(run, j, k - 1, m);
      CleanRests(run[k - 1], m, run[k]);
      ViewsChain(run[j].world, run[k - 1].world, run[k].world);
    }
  }

  /**
   * Rest. In a healed world a clean pass, however far it gets, promotes nobody, re-points
   * nobody, moves no sentinel to another monitor and writes no setting: the pods stay exactly
   * as they are and so does what every sentinel watches.
   */
  lemma HealedRests(run: seq<Sys>, j: nat, k: nat, m: Addr)
    requires j <= k < |run| && CleanFrom(run, j, k)
    requires run[j].op == RedisNumber && run[j].log == []
    requires WellAddressed(run[j].world) && Healed(run[j].world, run[j].plan.config, m)
    ensures forall e :: e in run[k].log ==> Calm(e.cmd)
    ensures run[k].world.pods == run[j].world.pods && SameView(run[j].world, run[k].world)
  {
    hide Healed;
    hide CleanFrom;
    RestHolds(run, j, k, m);
  }

  /**
   * Fixpoint. A clean pass that ended well, and then, with the same settings specified, another
   * clean pass: the second changes nothing.
   */
  lemma SecondPassRests(run: seq<Sys>, j: nat, b: nat, k: nat)
    requires j <= b < k < |run| && Begins(run[j])
    requires CleanFrom(run, j, b) && run[b].op == Finished(Healthy)
    requires BeginPass(run[b], run[b + 1]) && run[b + 1].plan.config == run[b].plan.config
    requires CleanFrom(run, b + 1, k)
    ensures forall e :: e in run[k].log ==> Calm(e.cmd)
    ensures run[k].world.pods == run[b].world.pods && SameView(run[b].world, run[k].world)
  {
    hide Healed;
    hide CleanFrom;
    var m := CleanPassHeals(run, j, b);
    HealedRests(run, b + 1, k, m);
  }
}
