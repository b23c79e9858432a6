/**
 * A clean pass heals: when nothing is lost and the world is quiet, a pass that ends well leaves
 * one master, everybody replicating from it, configured, and every sentinel watching it.
 */
module HealClean {
  import opened Basics
  import opened Cluster
  import opened HealMachine
  import opened HealSafety
  import NodeConfig
  import Quorum

  // ---------------------------------------------------------------- what healed means

  /** The master's pod is master, every other one replicates from it. */
  ghost predicate Pointed(p: Pod, m: Addr) {
    p.role == if p.ip == m then Master else SlaveOf(m)
  }

  ghost predicate AllPointed(w: World, m: Addr) {
    forall id :: Runs(w, id) ==> Pointed(w.pods[id], m)
  }

  ghost predicate AllConfigured(w: World, config: NodeConfig.Config) {
    forall id :: Runs(w, id) ==> NodeConfig.Matches(config, w.pods[id].config)
  }

  ghost predicate SentinelRuns(w: World, id: PodId) {
    id in w.sentinels && w.sentinels[id].running
  }

  ghost predicate AllWatching(w: World, m: Addr) {
    forall id :: SentinelRuns(w, id) ==> w.sentinels[id].monitored == Some(m)
  }

  ghost predicate Healed(w: World, config: NodeConfig.Config, m: Addr) {
    && MasterAt(w, m) && OnlyMasterAt(w, m)
    && AllPointed(w, m)
    && AllConfigured(w, config)
    && AllWatching(w, m)
  }

  /** Running sentinels have addresses of their own. */
  ghost predicate SentinelsAddressed(w: World) {
    forall a, b :: SentinelRuns(w, a) && SentinelRuns(w, b) && w.sentinels[a].ip == w.sentinels[b].ip ==> a == b
  }

  /** A replica always names the host it replicates from. */
  ghost predicate HostsNamed(w: World) {
    forall id :: Runs(w, id) && w.pods[id].role.SlaveOf? ==> w.pods[id].role.host != ""
  }

  /** In a healed world there is exactly one master. */
  lemma HealedHasOneMaster(w: World, config: NodeConfig.Config, m: Addr)
    requires WellAddressed(w) && Healed(w, config, m)
    ensures exists id :: IsMaster(w, id) && w.pods[id].ip == m && forall other :: IsMaster(w, other) ==> other == id
  {
    OneAddressOneMaster(w, m);
  }

  // ---------------------------------------------------------------- positions in a list

  ghost predicate Before(x: Addr, xs: seq<Addr>, i: nat) {
    exists k :: 0 <= k < i && k < |xs| && xs[k] == x
  }

  lemma BeforeNext(x: Addr, xs: seq<Addr>, i: nat)
    requires i < |xs|
    ensures Before(x, xs, i + 1) <==> Before(x, xs, i) || x == xs[i]
  {
    if Before(x, xs, i + 1) {
      var k :| 0 <= k < i + 1 && k < |xs| && xs[k] == x;
    }
    if Before(x, xs, i) {
      var k :| 0 <= k < i && k < |xs| && xs[k] == x;
      assert 0 <= k < i + 1;
    }
  }

  lemma BeforeEnd(x: Addr, xs: seq<Addr>)
    ensures Before(x, xs, |xs|) <==> x in xs
  {
  }

  // ---------------------------------------------------------------- what a settled pass has achieved so far

  ghost predicate CoversPods(w: World, ips: seq<Addr>) {
    forall id :: Runs(w, id) ==> w.pods[id].ip in ips
  }

  ghost predicate CoversSentinels(w: World, sips: seq<Addr>) {
    forall id :: SentinelRuns(w, id) ==> w.sentinels[id].ip in sips
  }

  function IPsOf(items: seq<PodView>): (ips: seq<Addr>)
    ensures |ips| == |items|
    ensures forall k :: 0 <= k < |items| ==> ips[k] == items[k].ip
  {
    seq(|items|, k requires 0 <= k < |items| => items[k].ip)
  }

  ghost predicate PointedBefore(w: World, m: Addr, ips: seq<Addr>, i: nat) {
    forall id :: Runs(w, id) && Before(w.pods[id].ip, ips, i) ==> Pointed(w.pods[id], m)
  }

  ghost predicate ConfiguredBefore(w: World, config: NodeConfig.Config, ips: seq<Addr>, i: nat) {
    forall id :: Runs(w, id) && Before(w.pods[id].ip, ips, i) ==> NodeConfig.Matches(config, w.pods[id].config)
  }

  ghost predicate KeysWritten(w: World, config: NodeConfig.Config, ip: Addr, keys: seq<string>, j: nat)
    requires forall t :: 0 <= t < |keys| ==> keys[t] in config
  {
    forall id, t :: RunsAt(w, id, ip) && 0 <= t < j && t < |keys| ==> KeyWritten(config, keys[t], w.pods[id].config)
  }

  ghost predicate KeyWritten(spec: NodeConfig.Config, key: string, conf: NodeConfig.Config)
    requires key in spec
  {
    NodeConfig.Normal(key, spec[key]).Success? && NodeConfig.Lookup(conf, key) == NodeConfig.Normal(key, spec[key]).value
  }

  ghost predicate WatchingBefore(w: World, m: Addr, sips: seq<Addr>, i: nat, except: Option<Addr>) {
    forall id :: SentinelRuns(w, id) && Before(w.sentinels[id].ip, sips, i) && Some(w.sentinels[id].ip) != except ==>
      w.sentinels[id].monitored == Some(m)
  }

  ghost predicate Achieved(w: World, config: NodeConfig.Config, m: Addr, step: Step) {
    match step
    case SlavesList => true
    case CheckingSlaves(ips, i) => CoversPods(w, ips) && PointedBefore(w, m, ips, i)
    case RepointList => true
    case Repointing(items, i) => CoversPods(w, IPsOf(items)) && PointedBefore(w, m, IPsOf(items), i)
    case ConfigList => AllPointed(w, m)
    case ReadingConfig(ips, i) => AllPointed(w, m) && CoversPods(w, ips) && ConfiguredBefore(w, config, ips, i)
    case WritingConfig(ips, i, keys, j) =>
      && AllPointed(w, m) && CoversPods(w, ips) && ConfiguredBefore(w, config, ips, i)
      && Lists(keys, config.Keys) && i < |ips| && KeysWritten(w, config, ips[i], keys, j)
    case SentinelList => AllPointed(w, m) && AllConfigured(w, config)
    case AtSentinel(sips, i, task) =>
      && AllPointed(w, m) && AllConfigured(w, config) && CoversSentinels(w, sips) && i < |sips|
      && TaskAchieved(w, m, sips, i, task)
    case ReadyCheck(_) => AllPointed(w, m) && AllConfigured(w, config) && AllWatching(w, m)
  }

  ghost predicate TaskAchieved(w: World, m: Addr, sips: seq<Addr>, i: nat, task: Task)
    requires i < |sips|
  {
    match task
    case CheckMonitor => WatchingBefore(w, m, sips, i, None)
    case Remove => WatchingBefore(w, m, sips, i, Some(sips[i]))
    case Install => WatchingBefore(w, m, sips, i, Some(sips[i]))
    case SetOption(_) => WatchingBefore(w, m, sips, i + 1, None)
    case _ => AllWatching(w, m)
  }

  ghost predicate CourseAchieved(w: World, config: NodeConfig.Config, m: Addr, course: Course) {
    match course
    case Go(step) => Achieved(w, config, m, step)
    case Stop(outcome) => outcome == Healthy ==> AllPointed(w, m) && AllConfigured(w, config) && AllWatching(w, m)
  }

  ghost predicate CleanFacts(w: World, plan: Plan, op: Op) {
    && (op.Locating? ==> forall f :: f in op.found ==> MasterAt(w, f))
    && (op.Settled? ==> MasterAt(w, op.m) && OnlyMasterAt(w, op.m) && Achieved(w, plan.config, op.m, op.step))
    && (op == Finished(Healthy) ==> exists m :: Healed(w, plan.config, m))
  }

  ghost predicate CleanInv(s: Sys) {
    && Inv(s) && HostsNamed(s.world) && SentinelsAddressed(s.world)
    && CleanFacts(s.world, s.plan, s.op)
  }

  // ---------------------------------------------------------------- commands that arrive, and the sentinels

  predicate ToSentinel(cmd: Command) {
    || cmd.SentinelMaster? || cmd.SentinelRemove? || cmd.SentinelMonitor? || cmd.SentinelSet?
    || cmd.SentinelInfo? || cmd.SentinelSlaves? || cmd.SentinelReset?
  }

  /** The sentinels are still there, at the same addresses. */
  ghost predicate SameSentinels(w: World, w': World) {
    && (forall id :: SentinelRuns(w', id) <==> SentinelRuns(w, id))
    && (forall id :: SentinelRuns(w, id) ==> w'.sentinels[id].ip == w.sentinels[id].ip)
  }

  lemma SentinelEffect(w: World, cmd: Command, w': World, r: Reply)
    requires Serves(w, cmd, w', r) && ToSentinel(cmd)
    ensures w'.pods == w.pods && SameSentinels(w, w')
    ensures forall id :: SentinelRuns(w, id) && w.sentinels[id].ip != cmd.sip ==>
      w'.sentinels[id].monitored == w.sentinels[id].monitored
    ensures !ChangesMonitor(cmd) ==> forall id :: SentinelRuns(w, id) ==>
      w'.sentinels[id].monitored == w.sentinels[id].monitored
  {
    hide SentinelServes;
    match cmd {
      case SentinelMaster(sip) => ActEffect(w, sip, w', r, (s: Sentinel) => (s, if s.monitored.Some? then MonitorIs(s.monitored.value) else Failed));
      case SentinelRemove(sip) => ActEffect(w, sip, w', r, (s: Sentinel) => (Removed(s), if s.monitored.Some? then Done else Failed));
      case SentinelMonitor(sip, host, quorum) =>
        ActEffect(w, sip, w', r, (s: Sentinel) => if s.monitored.Some? then (s, Failed) else (Monitoring(s, host), Done));
      case SentinelSet(sip, param, setting) =>
        if !(w' == w && r == Failed) {
          ActEffect(w, sip, w', r, (s: Sentinel) =>
            if s.monitored.Some? then (s.(options := s.options[param := setting]), Done) else (s, Failed));
        }
      case SentinelInfo(sip) => ActEffect(w, sip, w', r, (s: Sentinel) => (s, InfoIs(s.statusOk, s.peers)));
      case SentinelSlaves(sip) =>
        ActEffect(w, sip, w', r, (s: Sentinel) => (s, if s.monitored.Some? then BlobsAre(s.blobs) else Failed));
      case SentinelReset(sip) => ActEffect(w, sip, w', r, (s: Sentinel) => (Forgetful(s), Done));
    }
  }

  lemma ActEffect(w: World, sip: Addr, w': World, r: Reply, act: Sentinel -> (Sentinel, Reply))
    requires SentinelServes(w, sip, w', r, act)
    requires forall s :: act(s).0.ip == s.ip && act(s).0.running == s.running
    ensures w'.pods == w.pods && SameSentinels(w, w')
    ensures forall id :: SentinelRuns(w, id) && w.sentinels[id].ip != sip ==>
      w'.sentinels[id].monitored == w.sentinels[id].monitored
    ensures (forall s :: act(s).0.monitored == s.monitored) ==>
      forall id :: SentinelRuns(w, id) ==> w'.sentinels[id].monitored == w.sentinels[id].monitored
  {
  }

  /** MONITOR that is done has made the one sentinel at the address watch the host. */
  lemma InstallEffect(w: World, sip: Addr, host: Addr, quorum: int, w': World, r: Reply)
    requires SentinelsAddressed(w) && Serves(w, SentinelMonitor(sip, host, quorum), w', r) && r.Done?
    ensures forall id :: SentinelRunsAt(w, id, sip) ==> w'.sentinels[id].monitored == Some(host)
  {
    assert forall a, b :: SentinelRunsAt(w, a, sip) && SentinelRunsAt(w, b, sip) ==> SentinelRuns(w, a) && SentinelRuns(w, b) && a == b;
  }

  /** A sentinel that says it watches m does. */
  lemma MonitorAnswer(w: World, sip: Addr, m: Addr, w': World, r: Reply)
    requires SentinelsAddressed(w) && Serves(w, SentinelMaster(sip), w', r) && r == MonitorIs(m)
    ensures w' == w && forall id :: SentinelRunsAt(w, id, sip) ==> w.sentinels[id].monitored == Some(m)
  {
    assert forall a, b :: SentinelRunsAt(w, a, sip) && SentinelRunsAt(w, b, sip) ==> SentinelRuns(w, a) && SentinelRuns(w, b) && a == b;
  }

  lemma OtherEffect(w: World, cmd: Command, w': World, r: Reply)
    requires Serves(w, cmd, w', r) && !ToSentinel(cmd)
    ensures w'.sentinels == w.sentinels
    ensures !ChangesRole(cmd) && !cmd.ConfigSet? ==> w'.pods == w.pods
  {
  }

  // ---------------------------------------------------------------- looking changes nothing

  /** Pods as they were, sentinels running and watching as they were. */
  ghost predicate SameView(w: World, w': World) {
    && w'.pods == w.pods && SameSentinels(w, w')
    && forall id :: SentinelRuns(w, id) ==> w'.sentinels[id].monitored == w.sentinels[id].monitored
  }

  lemma ViewKeepsAchieved(w: World, w': World, config: NodeConfig.Config, m: Addr, step: Step)
    requires SameView(w, w') && Achieved(w, config, m, step)
    ensures Achieved(w', config, m, step)
  {
    assert forall id :: Runs(w', id) <==> Runs(w, id);
  }

  lemma ViewKeepsFacts(w: World, w': World, plan: Plan, op: Op)
    requires SameView(w, w') && CleanFacts(w, plan, op)
    ensures CleanFacts(w', plan, op)
  {
    hide Achieved;
    assert forall id :: Runs(w', id) <==> Runs(w, id);
    assert forall f :: MasterAt(w, f) ==> MasterAt(w', f) by {
      forall f | MasterAt(w, f)
        ensures MasterAt(w', f)
      {
        var id :| IsMaster(w, id) && w.pods[id].ip == f;
        assert IsMaster(w', id);
      }
    }
    if op.Settled? {
      ViewKeepsAchieved(w, w', plan.config, op.m, op.step);
    }
    if op == Finished(Healthy) {
      var m :| Healed(w, plan.config, m);
      assert Healed(w', plan.config, m);
    }
  }

  lemma QuietIsSameView(w: World, w': World)
    requires QuietStep(w, w')
    ensures SameView(w, w')
  {
    assert forall id :: id in w.sentinels ==> LearnsOnly(w.sentinels[id], w'.sentinels[id]);
  }

  // ---------------------------------------------------------------- loop heads

  lemma CheckSlavesHead(w: World, config: NodeConfig.Config, m: Addr, ips: seq<Addr>, i: nat)
    requires i <= |ips| && CoversPods(w, ips) && PointedBefore(w, m, ips, i)
    ensures Achieved(w, config, m, CheckSlavesFrom(ips, i))
  {
    if i == |ips| {
      forall id | Runs(w, id)
        ensures Pointed(w.pods[id], m)
      {
        BeforeEnd(w.pods[id].ip, ips);
      }
    }
  }

  lemma RepointHead(w: World, config: NodeConfig.Config, m: Addr, items: seq<PodView>, i: nat)
    requires i <= |items| && CoversPods(w, IPsOf(items)) && PointedBefore(w, m, IPsOf(items), i)
    ensures Achieved(w, config, m, RepointFrom(items, i))
  {
    if i == |items| {
      forall id | Runs(w, id)
        ensures Pointed(w.pods[id], m)
      {
        BeforeEnd(w.pods[id].ip, IPsOf(items));
      }
    }
  }

  lemma ConfigHead(w: World, config: NodeConfig.Config, m: Addr, ips: seq<Addr>, i: nat)
    requires i <= |ips| && AllPointed(w, m) && CoversPods(w, ips) && ConfiguredBefore(w, config, ips, i)
    ensures Achieved(w, config, m, ConfigFrom(ips, i))
  {
    hide NodeConfig.Matches;
    if i == |ips| {
      forall id | Runs(w, id)
        ensures NodeConfig.Matches(config, w.pods[id].config)
      {
        BeforeEnd(w.pods[id].ip, ips);
      }
    }
  }

  /** A node on which every key has been written matches the specification. */
  lemma AllWrittenMatches(config: NodeConfig.Config, keys: seq<string>, conf: NodeConfig.Config)
    requires Lists(keys, config.Keys)
    requires forall t :: 0 <= t < |keys| ==> KeyWritten(config, keys[t], conf)
    ensures NodeConfig.Matches(config, conf)
  {
    hide NodeConfig.Normal;
    forall key | key in config && NodeConfig.Normal(key, config[key]).Success?
      ensures NodeConfig.Lookup(conf, key) == NodeConfig.Normal(key, config[key]).value
    {
      assert key in keys;
      var t :| 0 <= t < |keys| && keys[t] == key;
    }
  }

  lemma WriteHead(w: World, config: NodeConfig.Config, m: Addr, ips: seq<Addr>, i: nat, keys: seq<string>, j: nat)
    requires i < |ips| && j <= |keys| && Lists(keys, config.Keys)
    requires AllPointed(w, m) && CoversPods(w, ips) && ConfiguredBefore(w, config, ips, i)
    requires KeysWritten(w, config, ips[i], keys, j)
    ensures Achieved(w, config, m, WriteFrom(ips, i, keys, j))
  {
    hide NodeConfig.Matches;
    if j == |keys| {
      forall id | Runs(w, id) && Before(w.pods[id].ip, ips, i + 1)
        ensures NodeConfig.Matches(config, w.pods[id].config)
      {
        BeforeNext(w.pods[id].ip, ips, i);
        if w.pods[id].ip == ips[i] {
          assert RunsAt(w, id, ips[i]);
          AllWrittenMatches(config, keys, w.pods[id].config);
        }
      }
      ConfigHead(w, config, m, ips, i + 1);
    }
  }

  ghost predicate Sound(w: World, config: NodeConfig.Config, m: Addr) {
    AllPointed(w, m) && AllConfigured(w, config)
  }

  lemma PeersHead(w: World, plan: Plan, m: Addr, sips: seq<Addr>, i: nat)
    requires Sound(w, plan.config, m) && AllWatching(w, m) && CoversSentinels(w, sips)
    ensures CourseAchieved(w, plan.config, m, PeersFrom(plan, sips, i))
    ensures CourseAchieved(w, plan.config, m, MemoryFrom(plan, sips, i))
  {
    hide NodeConfig.Matches;
  }

  lemma MonitorHead(w: World, plan: Plan, m: Addr, sips: seq<Addr>, i: nat)
    requires Sound(w, plan.config, m) && CoversSentinels(w, sips) && i <= |sips|
    requires WatchingBefore(w, m, sips, i, None)
    ensures CourseAchieved(w, plan.config, m, MonitorFrom(plan, sips, i))
  {
    hide NodeConfig.Matches;
    hide MemoryFrom;
    if i == |sips| {
      forall id | SentinelRuns(w, id)
        ensures w.sentinels[id].monitored == Some(m)
      {
        BeforeEnd(w.sentinels[id].ip, sips);
      }
      PeersHead(w, plan, m, sips, 0);
    }
  }

  // ---------------------------------------------------------------- steps over the pods

  /** The pod at the master's address is the master, so a replica lives elsewhere. */
  lemma FollowerIsPointed(w: World, m: Addr, id: PodId, r: Reply)
    requires WellAddressed(w) && HostsNamed(w) && MasterAt(w, m) && OnlyMasterAt(w, m)
    requires Runs(w, id) && r == RoleIs(w.pods[id].role) && FollowsOnly(r, m)
    ensures Pointed(w.pods[id], m)
  {
    var master :| IsMaster(w, master) && w.pods[master].ip == m;
    assert Runs(w, master);
    assert w.pods[id].role == Master ==> IsMaster(w, id);
  }

  lemma CheckingAchieves(w: World, config: NodeConfig.Config, m: Addr, ips: seq<Addr>, i: nat, r: Reply)
    requires WellAddressed(w) && HostsNamed(w) && MasterAt(w, m) && OnlyMasterAt(w, m)
    requires i < |ips| && CoversPods(w, ips) && PointedBefore(w, m, ips, i)
    requires Serves(w, InfoReplication(ips[i]), w, r) && FollowsOnly(r, m)
    ensures Achieved(w, config, m, CheckSlavesFrom(ips, i + 1))
  {
    hide CheckSlavesFrom;
    RoleAnswer(w, ips[i], Delivered, w, r);
    forall id | Runs(w, id) && Before(w.pods[id].ip, ips, i + 1)
      ensures Pointed(w.pods[id], m)
    {
      BeforeNext(w.pods[id].ip, ips, i);
      if w.pods[id].ip == ips[i] {
        assert RunsAt(w, id, ips[i]);
        FollowerIsPointed(w, m, id, r);
      }
    }
    CheckSlavesHead(w, config, m, ips, i + 1);
  }

  lemma RepointListAchieves(w: World, config: NodeConfig.Config, m: Addr, items: seq<PodView>)
    requires ListsPods(items, w)
    ensures Achieved(w, config, m, RepointFrom(items, 0))
  {
    forall id | Runs(w, id)
      ensures w.pods[id].ip in IPsOf(items)
    {
      var v := ViewOf(id, w.pods[id]);
      assert v in items;
      var k :| 0 <= k < |items| && items[k] == v;
      assert IPsOf(items)[k] == v.ip;
    }
    RepointHead(w, config, m, items, 0);
  }

  lemma RepointingAchieves(w: World, config: NodeConfig.Config, m: Addr, items: seq<PodView>, i: nat, w': World, cmd: Command)
    requires i < |items| && m != "" && HostsNamed(w)
    requires CoversPods(w, IPsOf(items)) && PointedBefore(w, m, IPsOf(items), i)
    requires cmd == StepCommandOf(m, items[i].ip) && Serves(w, cmd, w', Done)
    ensures Achieved(w', config, m, RepointFrom(items, i + 1)) && HostsNamed(w')
  {
    hide RepointFrom;
    var ips, role := IPsOf(items), if items[i].ip == m then Master else SlaveOf(m);
    assert w' == WithRole(w, items[i].ip, role);
    assert forall id :: Runs(w', id) <==> Runs(w, id);
    forall id | Runs(w', id)
      ensures w'.pods[id].ip == w.pods[id].ip
      ensures Before(w.pods[id].ip, ips, i + 1) ==> Pointed(w'.pods[id], m)
    {
      BeforeNext(w.pods[id].ip, ips, i);
    }
    RepointHead(w', config, m, items, i + 1);
  }

  function StepCommandOf(m: Addr, ip: Addr): Command {
    if ip == m then SlaveOfNoOne(m) else SlaveOfHost(ip, m)
  }

  lemma ConfigAnswer(w: World, ip: Addr, r: Reply)
    requires WellAddressed(w) && Serves(w, ConfigGet(ip), w, r) && r.ConfigIs?
    ensures forall id :: RunsAt(w, id, ip) ==> w.pods[id].config == r.config
  {
    assert forall a, b :: RunsAt(w, a, ip) && RunsAt(w, b, ip) ==> Runs(w, a) && Runs(w, b) && a == b;
  }

  lemma ReadingAchieves(w: World, config: NodeConfig.Config, m: Addr, ips: seq<Addr>, i: nat, r: Reply)
    requires WellAddressed(w) && i < |ips|
    requires AllPointed(w, m) && CoversPods(w, ips) && ConfiguredBefore(w, config, ips, i)
    requires Serves(w, ConfigGet(ips[i]), w, r) && r.ConfigIs? && NodeConfig.Matches(config, r.config)
    ensures Achieved(w, config, m, ConfigFrom(ips, i + 1))
  {
    hide NodeConfig.Matches;
    ConfigAnswer(w, ips[i], r);
    forall id | Runs(w, id) && Before(w.pods[id].ip, ips, i + 1)
      ensures NodeConfig.Matches(config, w.pods[id].config)
    {
      BeforeNext(w.pods[id].ip, ips, i);
      assert w.pods[id].ip == ips[i] ==> RunsAt(w, id, ips[i]);
    }
    ConfigHead(w, config, m, ips, i + 1);
  }

  /** Writing a key as specified spoils no match and no other key. */
  lemma SettingKeeps(config: NodeConfig.Config, conf: NodeConfig.Config, key: string)
    requires key in config && NodeConfig.Set(conf, key, config[key]).Some?
    ensures var conf' := NodeConfig.Set(conf, key, config[key]).value;
      && (NodeConfig.Matches(config, conf) ==> NodeConfig.Matches(config, conf'))
      && KeyWritten(config, key, conf')
      && forall other :: other in config && other != key && KeyWritten(config, other, conf) ==> KeyWritten(config, other, conf')
  {
    hide NodeConfig.Normal;
  }

  lemma WritingAchieves(w: World, config: NodeConfig.Config, m: Addr, ips: seq<Addr>, i: nat, keys: seq<string>, j: nat, w': World)
    requires WellAddressed(w) && HostsNamed(w)
    requires i < |ips| && j < |keys| && Lists(keys, config.Keys)
    requires AllPointed(w, m) && CoversPods(w, ips) && ConfiguredBefore(w, config, ips, i)
    requires KeysWritten(w, config, ips[i], keys, j)
    requires Serves(w, ConfigSet(ips[i], keys[j], config[keys[j]]), w', Done)
    ensures Achieved(w', config, m, WriteFrom(ips, i, keys, j + 1)) && HostsNamed(w')
  {
    hide NodeConfig.Matches;
    hide NodeConfig.Set;
    hide KeyWritten;
    hide Achieved;
    hide Before;
    hide WriteFrom;
    var key := keys[j];
    var id :| RunsAt(w, id, ips[i]) && NodeConfig.Set(w.pods[id].config, key, config[key]).Some?
      && w' == WithConfig(w, id, NodeConfig.Set(w.pods[id].config, key, config[key]).value);
    SettingKeeps(config, w.pods[id].config, key);
    assert forall other :: Runs(w', other) <==> Runs(w, other);
    assert forall other :: Runs(w, other) && other != id ==> w'.pods[other] == w.pods[other];
    forall other, t | RunsAt(w', other, ips[i]) && 0 <= t < j + 1 && t < |keys|
      ensures KeyWritten(config, keys[t], w'.pods[other].config)
    {
      assert Runs(w, other) && Runs(w, id) && w.pods[other].ip == w.pods[id].ip;
      assert other == id;
      assert t < j ==> keys[t] != key && KeyWritten(config, keys[t], w.pods[id].config);
    }
    WriteHead(w', config, m, ips, i, keys, j + 1);
  }

  // ---------------------------------------------------------------- steps over the sentinels

  lemma TaskEffect(plan: Plan, m: Addr, sip: Addr, task: Task, w: World, w': World, r: Reply)
    requires ActiveTask(plan, task) && Serves(w, TaskCommand(plan, m, sip, task), w', r)
    ensures w'.pods == w.pods && SameSentinels(w, w')
    ensures forall id :: SentinelRuns(w, id) && w.sentinels[id].ip != sip ==>
      w'.sentinels[id].monitored == w.sentinels[id].monitored
    ensures !task.Remove? && !task.Install? ==> SameView(w, w')
  {
    hide Serves;
    var cmd := TaskCommand(plan, m, sip, task);
    if ToSentinel(cmd) {
      SentinelEffect(w, cmd, w', r);
    } else {
      OtherEffect(w, cmd, w', r);
    }
  }

  lemma SoundStays(w: World, w': World, config: NodeConfig.Config, m: Addr, sips: seq<Addr>)
    requires Sound(w, config, m) && CoversSentinels(w, sips)
    requires w'.pods == w.pods && SameSentinels(w, w')
    ensures Sound(w', config, m) && CoversSentinels(w', sips)
  {
    hide NodeConfig.Matches;
    assert forall id :: Runs(w', id) <==> Runs(w, id);
  }

  /** One more sentinel watches m, and the others are as they were. */
  lemma WatchingNext(w: World, w': World, m: Addr, sips: seq<Addr>, i: nat)
    requires i < |sips| && SameSentinels(w, w')
    requires WatchingBefore(w, m, sips, i, None) || WatchingBefore(w, m, sips, i, Some(sips[i]))
    requires forall id :: SentinelRuns(w, id) && w.sentinels[id].ip != sips[i] ==>
      w'.sentinels[id].monitored == w.sentinels[id].monitored
    requires forall id :: SentinelRunsAt(w, id, sips[i]) ==> SentinelRuns(w', id) && w'.sentinels[id].monitored == Some(m)
    ensures WatchingBefore(w', m, sips, i + 1, None)
  {
    forall id | SentinelRuns(w', id) && Before(w'.sentinels[id].ip, sips, i + 1)
      ensures w'.sentinels[id].monitored == Some(m)
    {
      assert SentinelRuns(w, id);
      BeforeNext(w.sentinels[id].ip, sips, i);
      assert w.sentinels[id].ip == sips[i] ==> SentinelRunsAt(w, id, sips[i]);
    }
  }

  lemma OptionHead(w: World, plan: Plan, m: Addr, sips: seq<Addr>, i: nat, j: nat)
    requires Sound(w, plan.config, m) && CoversSentinels(w, sips) && i < |sips|
    requires WatchingBefore(w, m, sips, i + 1, None)
    ensures CourseAchieved(w, plan.config, m, OptionFrom(plan, sips, i, j))
  {
    hide NodeConfig.Matches;
    hide MonitorFrom;
    MonitorHead(w, plan, m, sips, i + 1);
  }

  /** The loop that makes the sentinels watch m. */
  lemma WatchTaskAchieves(w: World, plan: Plan, m: Addr, sips: seq<Addr>, i: nat, task: Task, w': World, r: Reply)
    requires task.CheckMonitor? || task.Remove? || task.Install? || task.SetOption?
    requires i < |sips| && ActiveTask(plan, task) && SentinelsAddressed(w)
    requires Sound(w, plan.config, m) && CoversSentinels(w, sips) && TaskAchieved(w, m, sips, i, task)
    requires Serves(w, TaskCommand(plan, m, sips[i], task), w', r)
    ensures CourseAchieved(w', plan.config, m, AdvanceTask(plan, m, sips, i, task, r))
  {
    hide Serves;
    hide Before;
    hide MonitorFrom;
    hide OptionFrom;
    hide Sound;
    TaskEffect(plan, m, sips[i], task, w, w', r);
    SoundStays(w, w', plan.config, m, sips);
    assert Sound(w', plan.config, m) ==> AllPointed(w', m) && AllConfigured(w', plan.config) by { SoundMeans(w', plan.config, m); }
    match task {
      case CheckMonitor =>
        if r == MonitorIs(m) {
          MonitorAnswer(w, sips[i], m, w', r);
          WatchingNext(w, w', m, sips, i);
          MonitorHead(w', plan, m, sips, i + 1);
        }
      case Remove =>
      case Install =>
        if r.Done? {
          InstallEffect(w, sips[i], m, Quorum.GetQuorum(plan.sentinels), w', r);
          WatchingNext(w, w', m, sips, i);
          OptionHead(w', plan, m, sips, i, 0);
        }
      case SetOption(j) => OptionHead(w', plan, m, sips, i, j + 1);
    }
  }

  lemma SoundMeans(w: World, config: NodeConfig.Config, m: Addr)
    requires Sound(w, config, m)
    ensures AllPointed(w, m) && AllConfigured(w, config)
  {
  }

  /** The later loops leave what is watched as it is. */
  lemma MemoryTaskAchieves(w: World, plan: Plan, m: Addr, sips: seq<Addr>, i: nat, task: Task, w': World, r: Reply)
    requires !(task.CheckMonitor? || task.Remove? || task.Install? || task.SetOption?)
    requires i < |sips| && ActiveTask(plan, task)
    requires Sound(w, plan.config, m) && CoversSentinels(w, sips) && AllWatching(w, m)
    requires Serves(w, TaskCommand(plan, m, sips[i], task), w', r)
    ensures CourseAchieved(w', plan.config, m, AdvanceTask(plan, m, sips, i, task, r))
  {
    hide Serves;
    hide MemoryFrom;
    hide PeersFrom;
    hide CustomFrom;
    hide Sound;
    TaskEffect(plan, m, sips[i], task, w, w', r);
    SoundStays(w, w', plan.config, m, sips);
    SoundMeans(w', plan.config, m);
    PeersHead(w', plan, m, sips, i + 1);
  }

  // ---------------------------------------------------------------- any settled step

  lemma NamesStay(w: World, cmd: Command, w': World, r: Reply)
    requires Serves(w, cmd, w', r) && HostsNamed(w) && SentinelsAddressed(w)
    requires cmd.SlaveOfHost? ==> cmd.host != ""
    ensures HostsNamed(w') && SentinelsAddressed(w')
  {
    hide NodeConfig.Set;
    if ToSentinel(cmd) {
      hide Serves;
      SentinelEffect(w, cmd, w', r);
    } else {
      OtherEffect(w, cmd, w', r);
    }
  }

  lemma ListingStepAchieves(w: World, plan: Plan, m: Addr, step: Step, r: Reply)
    requires step.SlavesList? || step.RepointList? || step.ConfigList?
    requires Achieved(w, plan.config, m, step) && Serves(w, ListPods, w, r)
    ensures CourseAchieved(w, plan.config, m, AdvanceStep(plan, m, step, r))
  {
    hide NodeConfig.Matches;
    hide RunningIPs;
    if r.PodsAre? {
      ListingCovers(r.pods, w);
      match step {
        case SlavesList => CheckSlavesHead(w, plan.config, m, RunningIPs(r.pods), 0);
        case RepointList => RepointListAchieves(w, plan.config, m, r.pods);
        case ConfigList => ConfigHead(w, plan.config, m, RunningIPs(r.pods), 0);
      }
    }
  }

  lemma RoleStepAchieves(w: World, plan: Plan, m: Addr, step: Step, w': World, r: Reply)
    requires ActiveStep(plan, step) && (step.CheckingSlaves? || step.Repointing?)
    requires WellAddressed(w) && HostsNamed(w) && m != "" && MasterAt(w, m) && OnlyMasterAt(w, m)
    requires Achieved(w, plan.config, m, step) && Serves(w, StepCommand(plan, m, step), w', r)
    ensures CourseAchieved(w', plan.config, m, AdvanceStep(plan, m, step, r))
  {
    hide CheckSlavesFrom;
    hide RepointFrom;
    match step {
      case CheckingSlaves(ips, i) =>
        if FollowsOnly(r, m) {
          CheckingAchieves(w, plan.config, m, ips, i, r);
        }
      case Repointing(items, i) =>
        if r.Done? {
          RepointingAchieves(w, plan.config, m, items, i, w', StepCommandOf(m, items[i].ip));
        }
    }
  }

  lemma ConfigStepAchieves(w: World, plan: Plan, m: Addr, step: Step, w': World, r: Reply, op': Op)
    requires ActiveStep(plan, step) && (step.ReadingConfig? || step.WritingConfig?)
    requires WellAddressed(w) && HostsNamed(w)
    requires Achieved(w, plan.config, m, step)
    requires Serves(w, StepCommand(plan, m, step), w', r) && Advances(plan, Settled(m, step), r, op')
    ensures exists course :: op' == Follow(m, course) && CourseAchieved(w', plan.config, m, course)
  {
    hide NodeConfig.Matches;
    hide ConfigFrom;
    hide WriteFrom;
    hide CoversPods;
    hide ConfiguredBefore;
    match step {
      case ReadingConfig(ips, i) =>
        if r.ConfigIs? && NodeConfig.Matches(plan.config, r.config) {
          ReadingAchieves(w, plan.config, m, ips, i, r);
        } else {
          var keys :| Lists(keys, plan.config.Keys) && op' == Settled(m, WriteFrom(ips, i, keys, 0));
          WriteHead(w, plan.config, m, ips, i, keys, 0);
          assert op' == Follow(m, Go(WriteFrom(ips, i, keys, 0)));
        }
      case WritingConfig(ips, i, keys, j) =>
        if r.Done? {
          WritingAchieves(w, plan.config, m, ips, i, keys, j, w');
          assert op' == Follow(m, Go(WriteFrom(ips, i, keys, j + 1)));
        } else {
          assert op' == Follow(m, Stop(Broken));
        }
    }
  }

  lemma SentinelStepAchieves(w: World, plan: Plan, m: Addr, step: Step, w': World, r: Reply)
    requires ActiveStep(plan, step) && (step.SentinelList? || step.AtSentinel? || step.ReadyCheck?)
    requires SentinelsAddressed(w)
    requires Achieved(w, plan.config, m, step) && Serves(w, StepCommand(plan, m, step), w', r)
    ensures CourseAchieved(w', plan.config, m, AdvanceStep(plan, m, step, r))
  {
    hide NodeConfig.Matches;
    hide RunningSentinelIPs;
    hide AdvanceTask;
    hide MonitorFrom;
    match step {
      case SentinelList =>
        if r.SentinelsAre? {
          SentinelListingCovers(r.sentinels, w);
          MonitorHead(w, plan, m, RunningSentinelIPs(r.sentinels), 0);
        }
      case AtSentinel(sips, i, task) =>
        hide Serves;
        if task.CheckMonitor? || task.Remove? || task.Install? || task.SetOption? {
          WatchTaskAchieves(w, plan, m, sips, i, task, w', r);
        } else {
          MemoryTaskAchieves(w, plan, m, sips, i, task, w', r);
        }
      case ReadyCheck(_) =>
    }
  }

  lemma StepAchieves(w: World, plan: Plan, m: Addr, step: Step, w': World, r: Reply, op': Op)
    requires ActiveStep(plan, step)
    requires WellAddressed(w) && HostsNamed(w) && SentinelsAddressed(w)
    requires m != "" && MasterAt(w, m) && OnlyMasterAt(w, m)
    requires Achieved(w, plan.config, m, step)
    requires Serves(w, StepCommand(plan, m, step), w', r) && Advances(plan, Settled(m, step), r, op')
    ensures exists course :: op' == Follow(m, course) && CourseAchieved(w', plan.config, m, course)
  {
    hide Achieved;
    hide CourseAchieved;
    hide AdvanceStep;
    hide NodeConfig.Matches;
    if step.ReadingConfig? || step.WritingConfig? {
      ConfigStepAchieves(w, plan, m, step, w', r, op');
    } else {
      var course := AdvanceStep(plan, m, step, r);
      assert op' == Follow(m, course);
      if step.SlavesList? || step.RepointList? || step.ConfigList? {
        ListingStepAchieves(w, plan, m, step, r);
      } else if step.CheckingSlaves? || step.Repointing? {
        hide Serves;
        RoleStepAchieves(w, plan, m, step, w', r);
      } else {
        hide Serves;
        SentinelStepAchieves(w, plan, m, step, w', r);
      }
    }
  }

  lemma SettledKeepsMaster(w: World, plan: Plan, m: Addr, step: Step, w': World, r: Reply)
    requires ActiveStep(plan, step) && WellAddressed(w) && MasterAt(w, m) && OnlyMasterAt(w, m)
    requires Serves(w, StepCommand(plan, m, step), w', r)
    ensures MasterAt(w', m) && OnlyMasterAt(w', m)
  {
    hide Serves;
    hide StepCommand;
    var cmd := StepCommand(plan, m, step);
    assert Happens(w, cmd, Delivered, w', r);
    SettledCommands(plan, m, step);
    EffectOnRoles(w, cmd, Delivered, w', r);
    var id :| IsMaster(w, id) && w.pods[id].ip == m;
    assert Runs(w, id) && IsMaster(w', id);
    if cmd.SlaveOfNoOne? {
      FirstPromotion(w, m, Delivered, w', r);
    } else {
      FollowersOnly(w, cmd, m, Delivered, w', r);
    }
  }

  lemma SettledCleanly(w: World, plan: Plan, m: Addr, step: Step, w': World, r: Reply, op': Op)
    requires ActiveStep(plan, step) && WellAddressed(w) && HostsNamed(w) && SentinelsAddressed(w) && m != ""
    requires CleanFacts(w, plan, Settled(m, step))
    requires Serves(w, StepCommand(plan, m, step), w', r) && Advances(plan, Settled(m, step), r, op')
    ensures CleanFacts(w', plan, op')
  {
    hide Serves;
    hide StepCommand;
    hide Advances;
    hide Achieved;
    hide AllPointed;
    hide AllConfigured;
    hide AllWatching;
    SettledKeepsMaster(w, plan, m, step, w', r);
    StepAchieves(w, plan, m, step, w', r, op');
    var course :| op' == Follow(m, course) && CourseAchieved(w', plan.config, m, course);
    if op' == Finished(Healthy) {
      assert Healed(w', plan.config, m);
    }
  }

  lemma LocatedCleanly(w: World, plan: Plan, ips: seq<Addr>, i: nat, found: seq<Addr>, w': World, r: Reply)
    requires i < |ips| && WellAddressed(w) && CleanFacts(w, plan, Locating(ips, i, found))
    requires Serves(w, InfoReplication(ips[i]), w', r)
    requires Knows(w', Advance(plan, Locating(ips, i, found), r))
    ensures CleanFacts(w', plan, Advance(plan, Locating(ips, i, found), r))
  {
    hide Serves;
    if r.RoleIs? {
      RoleAnswer(w, ips[i], Delivered, w', r);
    }
  }

  /** Points before the master is settled on lead nowhere that claims anything, but for the scan itself. */
  lemma EarlierClaimNothing(plan: Plan, op: Op, r: Reply, op': Op)
    requires Active(plan, op) && !op.Locating? && !op.Settled? && Advances(plan, op, r, op')
    ensures (op'.Locating? && op'.found == []) || !(op'.Locating? || op'.Settled? || op' == Finished(Healthy))
  {
    hide RunningIPs;
  }

  lemma OpCleanly(s: Sys, r: Reply, s': Sys)
    requires CleanInv(s) && OpStep(s, Delivered, r, s')
    ensures CleanInv(s')
  {
    hide Serves;
    hide Advances;
    hide Advance;
    hide NextCommand;
    hide CleanFacts;
    var w, w', cmd := s.world, s'.world, NextCommand(s.plan, s.op);
    OpKeeps(s, Delivered, r, s');
    OpNamesHosts(s.plan, s.op);
    NamesStay(w, cmd, w', r);
    OpCleanFacts(s.plan, s.op, w, r, w', s'.op);
  }

  /** Nobody is told to replicate from nowhere. */
  lemma OpNamesHosts(plan: Plan, op: Op)
    requires Active(plan, op) && (op.Settled? ==> op.m != "")
    ensures NextCommand(plan, op).SlaveOfHost? ==> NextCommand(plan, op).host != ""
  {
    if op.Settled? {
      SettledCommands(plan, op.m, op.step);
    }
  }

  lemma OpCleanFacts(plan: Plan, op: Op, w: World, r: Reply, w': World, op': Op)
    requires Active(plan, op) && Serves(w, NextCommand(plan, op), w', r) && Advances(plan, op, r, op')
    requires WellAddressed(w) && HostsNamed(w) && SentinelsAddressed(w) && Knows(w, op)
    requires CleanFacts(w, plan, op) && Knows(w', op')
    ensures CleanFacts(w', plan, op')
  {
    hide Serves;
    match op
    case Settled(m, step) =>
      hide Advances;
      hide CleanFacts;
      SettledCleanly(w, plan, m, step, w', r, op');
    case Locating(ips, i, found) =>
      hide CleanFacts;
      LocatedCleanly(w, plan, ips, i, found, w', r);
    case _ =>
      hide Advances;
      hide Healed;
      hide Achieved;
      EarlierClaimNothing(plan, op, r, op');
  }

  lemma QuietCleanly(s: Sys, s': Sys)
    requires CleanInv(s) && QuietStep(s.world, s'.world) && s' == s.(world := s'.world)
    ensures CleanInv(s')
  {
    hide CleanFacts;
    var w, w' := s.world, s'.world;
    QuietIsEnv(w, w');
    EnvKeeps(s, s');
    QuietIsSameView(w, w');
    ViewKeepsFacts(w, w', s.plan, s.op);
    assert forall id :: Runs(w', id) <==> Runs(w, id);
  }

  lemma CleanKeeps(s: Sys, s': Sys)
    requires CleanInv(s) && CleanNext(s, s')
    ensures CleanInv(s')
  {
    hide CleanInv;
    hide QuietStep;
    hide OpStep;
    if QuietStep(s.world, s'.world) && s' == s.(world := s'.world) {
      QuietCleanly(s, s');
    } else {
      var r :| OpStep(s, Delivered, r, s');
      OpCleanly(s, r, s');
    }
  }

  // ---------------------------------------------------------------- clean stretches of a run

  /** From j to k nothing is lost and the world is quiet. */
  ghost predicate CleanFrom(run: seq<Sys>, j: nat, k: nat)
    requires k < |run|
  {
    forall t :: j <= t < k ==> CleanNext(run[t], run[t + 1])
  }

  lemma {:induction false} CleanHolds(run: seq<Sys>, j: nat, k: nat)
    requires j <= k < |run| && CleanFrom(run, j, k) && CleanInv(run[j])
    ensures CleanInv(run[k])
  {
    hide CleanInv;
    hide CleanNext;
    if j < k {
      CleanHolds(run, j, k - 1);
      CleanKeeps(run[k - 1], run[k]);
    }
  }

  /** How things are when a pass begins. */
  ghost predicate Begins(s: Sys) {
    s.op.RedisNumber? && WellAddressed(s.world) && HostsNamed(s.world) && SentinelsAddressed(s.world)
  }

  /**
   * A clean pass that ends well heals, whatever roles, settings and monitors it began with:
   * there is one master, every other running pod replicates from it, every running pod has the
   * specified settings, and every running sentinel watches the master.
   */
  lemma CleanPassHeals(run: seq<Sys>, j: nat, k: nat) returns (m: Addr)
    requires j <= k < |run| && CleanFrom(run, j, k) && Begins(run[j])
    requires run[k].op == Finished(Healthy)
    ensures WellAddressed(run[k].world) && Healed(run[k].world, run[k].plan.config, m)
  {
    CleanHolds(run, j, k);
    m :| Healed(run[k].world, run[k].plan.config, m);
  }
}
