/**
 * What the operator acts on: redis pods, sentinels, the two StatefulSets, and the clock.
 * Every remote command is one atomic step at its target; the rest of the world moves between them.
 */
module Cluster {
  import opened Basics
  import NodeConfig
  import SentinelMemory

  type Addr = string
  type PodId = string

  datatype Role = Master | SlaveOf(host: Addr)

  /** A pod that starts with the default command replicates from here. */
  const LOCALHOST: Addr := "127.0.0.1"

  datatype Pod = Pod(ip: Addr, running: bool, created: int, role: Role, config: NodeConfig.Config)

  /** `monitored` is the address behind `mymaster`; `blobs` and `peers` are what gossip has taught it. */
  datatype Sentinel = Sentinel(
    ip: Addr, running: bool, monitored: Option<Addr>, options: map<string, string>,
    statusOk: bool, blobs: seq<SentinelMemory.Blob>, peers: Option<int>)

  datatype Counts = Counts(replicas: int, ready: int)

  datatype World = World(
    pods: map<PodId, Pod>, sentinels: map<PodId, Sentinel>,
    redisSet: Counts, sentinelSet: Counts, now: nat)

  // ---------------------------------------------------------------- addresses and roles

  ghost predicate Runs(w: World, id: PodId) {
    id in w.pods && w.pods[id].running
  }

  ghost predicate RunsAt(w: World, id: PodId, ip: Addr) {
    Runs(w, id) && w.pods[id].ip == ip
  }

  ghost predicate IsMaster(w: World, id: PodId) {
    Runs(w, id) && w.pods[id].role == Master
  }

  ghost predicate SentinelRunsAt(w: World, id: PodId, sip: Addr) {
    id in w.sentinels && w.sentinels[id].running && w.sentinels[id].ip == sip
  }

  /** Live addresses are real and belong to one pod each. */
  ghost predicate WellAddressed(w: World) {
    && (forall id :: Runs(w, id) ==> w.pods[id].ip != "")
    && (forall a, b :: Runs(w, a) && Runs(w, b) && w.pods[a].ip == w.pods[b].ip ==> a == b)
  }

  ghost predicate AtMostOneMaster(w: World) {
    forall a, b :: IsMaster(w, a) && IsMaster(w, b) ==> a == b
  }

  ghost predicate NoMaster(w: World) {
    forall id :: !IsMaster(w, id)
  }

  /** Every live master lives at m. */
  ghost predicate OnlyMasterAt(w: World, m: Addr) {
    forall id :: IsMaster(w, id) ==> w.pods[id].ip == m
  }

  ghost predicate MasterAt(w: World, m: Addr) {
    exists id :: IsMaster(w, id) && w.pods[id].ip == m
  }

  /** One address cannot host two. */
  lemma OneAddressOneMaster(w: World, m: Addr)
    requires WellAddressed(w) && OnlyMasterAt(w, m)
    ensures AtMostOneMaster(w)
  {
    forall a, b | IsMaster(w, a) && IsMaster(w, b)
      ensures a == b
    {
      assert Runs(w, a) && Runs(w, b);
    }
  }

  // ---------------------------------------------------------------- commands and replies

  datatype PodView = PodView(id: PodId, ip: Addr, running: bool, created: int)
  datatype SentinelView = SentinelView(id: PodId, ip: Addr, running: bool)

  datatype Command =
    | GetRedisSet
    | GetSentinelSet
    | ListPods
    | ListSentinels
    | InfoReplication(ip: Addr)
    | SlaveOfNoOne(ip: Addr)
    | SlaveOfHost(ip: Addr, host: Addr)
    | ConfigGet(ip: Addr)
    | ConfigSet(ip: Addr, key: string, value: string)
    | SentinelMaster(sip: Addr)
    | SentinelRemove(sip: Addr)
    | SentinelMonitor(sip: Addr, host: Addr, quorum: int)
    | SentinelSet(sip: Addr, param: string, setting: string)
    | SentinelInfo(sip: Addr)
    | SentinelSlaves(sip: Addr)
    | SentinelReset(sip: Addr)
    | ReadClock
    | Sleep(span: nat)

  datatype Reply =
    | Failed
    | Done
    | SetIs(counts: Counts)
    | PodsAre(pods: seq<PodView>)
    | SentinelsAre(sentinels: seq<SentinelView>)
    | RoleIs(role: Role)
    | ConfigIs(config: NodeConfig.Config)
    | MonitorIs(host: Addr)
    | InfoIs(statusOk: bool, peers: Option<int>)
    | BlobsAre(blobs: seq<SentinelMemory.Blob>)
    | TimeIs(now: nat)

  /** Commands that leave the process and may therefore be lost on the way out or on the way back. */
  predicate Remote(cmd: Command) {
    !cmd.ReadClock? && !cmd.Sleep?
  }

  /** Commands that change the role of a redis node. */
  predicate ChangesRole(cmd: Command) {
    cmd.SlaveOfNoOne? || cmd.SlaveOfHost?
  }

  /** Commands that change what a sentinel monitors. */
  predicate ChangesMonitor(cmd: Command) {
    cmd.SentinelRemove? || cmd.SentinelMonitor?
  }

  function ViewOf(id: PodId, p: Pod): PodView {
    PodView(id, p.ip, p.running, p.created)
  }

  function SentinelViewOf(id: PodId, s: Sentinel): SentinelView {
    SentinelView(id, s.ip, s.running)
  }

  /** A listing shows every pod once, in an order nobody chose. */
  ghost predicate ListsPods(items: seq<PodView>, w: World) {
    && (forall k :: 0 <= k < |items| ==> items[k].id in w.pods && items[k] == ViewOf(items[k].id, w.pods[items[k].id]))
    && (forall id :: id in w.pods ==> ViewOf(id, w.pods[id]) in items)
    && (forall j, k :: 0 <= j < k < |items| ==> items[j].id != items[k].id)
  }

  ghost predicate ListsSentinels(items: seq<SentinelView>, w: World) {
    && (forall k :: 0 <= k < |items| ==>
         items[k].id in w.sentinels && items[k] == SentinelViewOf(items[k].id, w.sentinels[items[k].id]))
    && (forall id :: id in w.sentinels ==> SentinelViewOf(id, w.sentinels[id]) in items)
    && (forall j, k :: 0 <= j < k < |items| ==> items[j].id != items[k].id)
  }

  // ---------------------------------------------------------------- effects at the target

  predicate Answers(p: Pod, ip: Addr) {
    p.running && p.ip == ip
  }

  predicate SentinelAnswers(s: Sentinel, sip: Addr) {
    s.running && s.ip == sip
  }

  predicate Reachable(w: World, ip: Addr) {
    exists id | id in w.pods :: Answers(w.pods[id], ip)
  }

  function WithRole(w: World, ip: Addr, role: Role): World {
    w.(pods := map id | id in w.pods :: if Answers(w.pods[id], ip) then w.pods[id].(role := role) else w.pods[id])
  }

  function WithConfig(w: World, id: PodId, conf: NodeConfig.Config): World
    requires id in w.pods
  {
    w.(pods := w.pods[id := w.pods[id].(config := conf)])
  }

  function WithSentinel(w: World, id: PodId, s: Sentinel): World {
    w.(sentinels := w.sentinels[id := s])
  }

  /** After REMOVE a sentinel knows nothing of `mymaster`. */
  function Removed(s: Sentinel): Sentinel {
    s.(monitored := None, options := map[], statusOk := false, blobs := [], peers := None)
  }

  /** After MONITOR it starts with the address alone. */
  function Monitoring(s: Sentinel, host: Addr): Sentinel {
    s.(monitored := Some(host), options := map[], statusOk := true, blobs := [], peers := Some(1))
  }

  /** RESET forgets what gossip taught and keeps the address. */
  function Forgetful(s: Sentinel): Sentinel {
    s.(blobs := [], peers := if s.monitored.Some? then Some(1) else None)
  }

  /** What a command that arrives does to the world, and what its target answers. */
  ghost predicate Serves(w: World, cmd: Command, w': World, r: Reply) {
    match cmd
    case GetRedisSet => w' == w && r == SetIs(w.redisSet)
    case GetSentinelSet => w' == w && r == SetIs(w.sentinelSet)
    case ListPods => w' == w && r.PodsAre? && ListsPods(r.pods, w)
    case ListSentinels => w' == w && r.SentinelsAre? && ListsSentinels(r.sentinels, w)
    case InfoReplication(ip) =>
      w' == w && if Reachable(w, ip) then exists id :: RunsAt(w, id, ip) && r == RoleIs(w.pods[id].role) else r == Failed
    case SlaveOfNoOne(ip) =>
      if Reachable(w, ip) then w' == WithRole(w, ip, Master) && r == Done else w' == w && r == Failed
    case SlaveOfHost(ip, host) =>
      if Reachable(w, ip) then w' == WithRole(w, ip, SlaveOf(host)) && r == Done else w' == w && r == Failed
    case ConfigGet(ip) =>
      w' == w && if Reachable(w, ip) then exists id :: RunsAt(w, id, ip) && r == ConfigIs(w.pods[id].config) else r == Failed
    case ConfigSet(ip, key, value) =>
      || (w' == w && r == Failed)
      || exists id :: RunsAt(w, id, ip) && NodeConfig.Set(w.pods[id].config, key, value).Some? && r == Done
           && w' == WithConfig(w, id, NodeConfig.Set(w.pods[id].config, key, value).value)
    case SentinelMaster(sip) =>
      w' == w && SentinelServes(w, sip, w', r, (s: Sentinel) => (s, if s.monitored.Some? then MonitorIs(s.monitored.value) else Failed))
    case SentinelRemove(sip) =>
      SentinelServes(w, sip, w', r, (s: Sentinel) => (Removed(s), if s.monitored.Some? then Done else Failed))
    case SentinelMonitor(sip, host, quorum) =>
      SentinelServes(w, sip, w', r, (s: Sentinel) => if s.monitored.Some? then (s, Failed) else (Monitoring(s, host), Done))
    case SentinelSet(sip, param, setting) =>
      || (w' == w && r == Failed)
      || SentinelServes(w, sip, w', r, (s: Sentinel) =>
           if s.monitored.Some? then (s.(options := s.options[param := setting]), Done) else (s, Failed))
    case SentinelInfo(sip) =>
      SentinelServes(w, sip, w', r, (s: Sentinel) => (s, InfoIs(s.statusOk, s.peers)))
    case SentinelSlaves(sip) =>
      SentinelServes(w, sip, w', r, (s: Sentinel) => (s, if s.monitored.Some? then BlobsAre(s.blobs) else Failed))
    case SentinelReset(sip) =>
      SentinelServes(w, sip, w', r, (s: Sentinel) => (Forgetful(s), Done))
    case ReadClock => w' == w && r == TimeIs(w.now)
    case Sleep(span) => w' == w.(now := w.now + span) && r == Done
  }

  /** A sentinel command reaches the running sentinel at the address, if there is one. */
  ghost predicate SentinelServes(w: World, sip: Addr, w': World, r: Reply, act: Sentinel -> (Sentinel, Reply)) {
    if exists id :: SentinelRunsAt(w, id, sip) then
      exists id :: SentinelRunsAt(w, id, sip)
        && w' == WithSentinel(w, id, act(w.sentinels[id]).0) && r == act(w.sentinels[id]).1
    else
      w' == w && r == Failed
  }

  // ---------------------------------------------------------------- the rest of the world

  /** The same process is still there. Nothing but a command changes its role; its settings may be touched. */
  ghost predicate Survives(p: Pod, q: Pod) {
    p.running && q == p.(config := q.config)
  }

  /** A process that has just started with the default command. */
  ghost predicate JustStarted(q: Pod) {
    q.running && q.role == SlaveOf(LOCALHOST)
  }

  /**
   * Any number of pods crash, restart, appear or disappear, sentinels and counters change in
   * any way, and time passes. Redis nodes are not promoted: sentinel fail-over is excluded.
   */
  ghost predicate EnvStep(w: World, w': World) {
    && WellAddressed(w')
    && w.now <= w'.now
    && forall id :: Runs(w', id) ==>
         || JustStarted(w'.pods[id])
         || (id in w.pods && Survives(w.pods[id], w'.pods[id]))
  }

  /** A quiet moment: nothing moves but gossip among the sentinels and the clock. */
  ghost predicate QuietStep(w: World, w': World) {
    && w'.pods == w.pods && w'.redisSet == w.redisSet && w'.sentinelSet == w.sentinelSet
    && w.now <= w'.now
    && w'.sentinels.Keys == w.sentinels.Keys
    && forall id :: id in w.sentinels ==> LearnsOnly(w.sentinels[id], w'.sentinels[id])
  }

  ghost predicate LearnsOnly(s: Sentinel, t: Sentinel) {
    t == s.(statusOk := t.statusOk, blobs := t.blobs, peers := t.peers)
  }

  lemma QuietIsEnv(w: World, w': World)
    requires WellAddressed(w) && QuietStep(w, w')
    ensures EnvStep(w, w')
  {
    assert forall id :: Runs(w', id) <==> Runs(w, id);
    assert forall id :: Runs(w, id) ==> w.pods[id] == w.pods[id].(config := w.pods[id].config);
  }

  // The three disturbances the environment is made of.

  function Crash(w: World, id: PodId): World
    requires id in w.pods
  {
    w.(pods := w.pods[id := w.pods[id].(running := false)])
  }

  /** A pod (re)starts: a new address, the default command, whatever settings it starts with. */
  function Restart(w: World, id: PodId, ip: Addr, created: int, config: NodeConfig.Config): World {
    w.(pods := w.pods[id := Pod(ip, true, created, SlaveOf(LOCALHOST), config)])
  }

  function ScaleTo(w: World, keep: set<PodId>, counts: Counts): World {
    w.(pods := map id | id in w.pods && id in keep :: w.pods[id], redisSet := counts)
  }

  lemma CrashIsEnv(w: World, id: PodId)
    requires WellAddressed(w) && id in w.pods
    ensures EnvStep(w, Crash(w, id))
  {
    var w' := Crash(w, id);
    assert forall j :: Runs(w', j) ==> Runs(w, j) && w'.pods[j] == w.pods[j].(config := w'.pods[j].config);
  }

  lemma RestartIsEnv(w: World, id: PodId, ip: Addr, created: int, config: NodeConfig.Config)
    requires WellAddressed(w) && ip != "" && forall j :: RunsAt(w, j, ip) ==> j == id
    ensures EnvStep(w, Restart(w, id, ip, created, config))
  {
    var w' := Restart(w, id, ip, created, config);
    assert forall j :: Runs(w', j) && j != id ==> Runs(w, j) && w'.pods[j] == w.pods[j].(config := w'.pods[j].config);
    assert forall j :: Runs(w', j) && j != id && w'.pods[j].ip == ip ==> RunsAt(w, j, ip);
  }

  lemma ScaleIsEnv(w: World, keep: set<PodId>, counts: Counts)
    requires WellAddressed(w)
    ensures EnvStep(w, ScaleTo(w, keep, counts))
  {
    var w' := ScaleTo(w, keep, counts);
    assert forall j :: Runs(w', j) ==> Runs(w, j) && w'.pods[j] == w.pods[j].(config := w'.pods[j].config);
  }

  /** The environment never makes a master. */
  lemma EnvMakesNoMaster(w: World, w': World, id: PodId)
    requires EnvStep(w, w') && IsMaster(w', id)
    ensures IsMaster(w, id) && w'.pods[id].ip == w.pods[id].ip
  {
  }

  // ---------------------------------------------------------------- addresses of running pods

  function RunningIPs(items: seq<PodView>): (ips: seq<Addr>)
  {
    if items == [] then []
    else
      var last := items[|items| - 1];
      RunningIPs(items[..|items| - 1]) + if last.running then [last.ip] else []
  }

  function RunningSentinelIPs(items: seq<SentinelView>): (ips: seq<Addr>)
  {
    if items == [] then []
    else
      var last := items[|items| - 1];
      RunningSentinelIPs(items[..|items| - 1]) + if last.running then [last.ip] else []
  }

  lemma {:induction false} RunningIPsMembers(items: seq<PodView>, ip: Addr)
    ensures ip in RunningIPs(items) <==> exists k :: 0 <= k < |items| && items[k].running && items[k].ip == ip
  {
    if items != [] {
      var front := items[..|items| - 1];
      RunningIPsMembers(front, ip);
      assert forall k :: 0 <= k < |front| ==> front[k] == items[k];
    }
  }

  lemma {:induction false} RunningSentinelIPsMembers(items: seq<SentinelView>, ip: Addr)
    ensures ip in RunningSentinelIPs(items) <==> exists k :: 0 <= k < |items| && items[k].running && items[k].ip == ip
  {
    if items != [] {
      var front := items[..|items| - 1];
      RunningSentinelIPsMembers(front, ip);
      assert forall k :: 0 <= k < |front| ==> front[k] == items[k];
    }
  }

  /** A fresh listing names the address of every running pod, and of no other. */
  lemma ListingCovers(items: seq<PodView>, w: World)
    requires ListsPods(items, w)
    ensures forall id :: Runs(w, id) ==> w.pods[id].ip in RunningIPs(items)
    ensures forall ip :: ip in RunningIPs(items) ==> Reachable(w, ip)
  {
    forall id | Runs(w, id)
      ensures w.pods[id].ip in RunningIPs(items)
    {
      var v := ViewOf(id, w.pods[id]);
      assert v in items;
      RunningIPsMembers(items, v.ip);
    }
    forall ip | ip in RunningIPs(items)
      ensures Reachable(w, ip)
    {
      RunningIPsMembers(items, ip);
      var k :| 0 <= k < |items| && items[k].running && items[k].ip == ip;
      assert Answers(w.pods[items[k].id], ip);
    }
  }

  lemma SentinelListingCovers(items: seq<SentinelView>, w: World)
    requires ListsSentinels(items, w)
    ensures forall id :: id in w.sentinels && w.sentinels[id].running ==> w.sentinels[id].ip in RunningSentinelIPs(items)
  {
    forall id | id in w.sentinels && w.sentinels[id].running
      ensures w.sentinels[id].ip in RunningSentinelIPs(items)
    {
      var v := SentinelViewOf(id, w.sentinels[id]);
      assert v in items;
      RunningSentinelIPsMembers(items, v.ip);
    }
  }

  /** With distinct live addresses no address is listed twice. */
  lemma {:induction false} ListingIsDistinct(items: seq<PodView>, w: World)
    requires WellAddressed(w)
    requires forall k :: 0 <= k < |items| ==> items[k].id in w.pods && items[k] == ViewOf(items[k].id, w.pods[items[k].id])
    requires forall j, k :: 0 <= j < k < |items| ==> items[j].id != items[k].id
    ensures forall j, k :: 0 <= j < k < |RunningIPs(items)| ==> RunningIPs(items)[j] != RunningIPs(items)[k]
  {
    if items != [] {
      var n := |items| - 1;
      var front, last := items[..n], items[n];
      ListingIsDistinct(front, w);
      if last.running {
        forall k | 0 <= k < n && front[k].running
          ensures front[k].ip != last.ip
        {
          assert Runs(w, front[k].id) && Runs(w, last.id);
        }
        RunningIPsMembers(front, last.ip);
      }
    }
  }
}
