/**
 * One pass of `CheckAndHeal` as a state machine: a program counter with the pass's local
 * snapshot, the command each point sends, and where each reply leads. A run interleaves these
 * steps with the environment, loses commands and replies, and chains passes.
 */
module HealMachine {
  import opened Basics
  import opened Cluster
  import NodeConfig
  import Quorum
  import SentinelMemory
  import Sorting

  /** What a pass reads of the object it serves. `checkOnly`: nothing changed since the last pass. */
  datatype Plan = Plan(
    size: int, sentinels: int, config: NodeConfig.Config, password: string,
    customConfig: seq<string>, checkOnly: bool)

  /** How a pass ends. Both `Skipped` and `Healthy` are a nil error to the caller. */
  datatype Outcome = Requeue | Skipped | Broken | Healthy

  /** Points of a pass. Once `GetMasterIP` has settled on a master m, m never changes again. */
  datatype Op =
    | Idle
    | RedisNumber
    | SentinelNumber
    // GetNumberMasters
    | CountList
    | Counting(ips: seq<Addr>, i: nat, n: nat)
    // no master: a single pod, or the oldest one
    | SoleList
    | PromoteSole(ip: Addr)
    | AgeList
    | OldestList
    | Promoting(items: seq<PodView>, i: nat, leader: Addr)
    // GetMasterIP
    | MasterList
    | Locating(ips: seq<Addr>, i: nat, found: seq<Addr>)
    | Settled(m: Addr, step: Step)
    | Finished(outcome: Outcome)

  datatype Step =
    // CheckAllSlavesFromMaster, SetMasterOnAll
    | SlavesList
    | CheckingSlaves(ips: seq<Addr>, i: nat)
    | RepointList
    | Repointing(items: seq<PodView>, i: nat)
    // setRedisConfig
    | ConfigList
    | ReadingConfig(ips: seq<Addr>, i: nat)
    | WritingConfig(ips: seq<Addr>, i: nat, keys: seq<string>, j: nat)
    // the loops over the sentinels
    | SentinelList
    | AtSentinel(sips: seq<Addr>, i: nat, task: Task)
    // EnsureSentinelReady
    | ReadyCheck(sips: seq<Addr>)

  datatype Task =
    // CheckSentinelMonitor, NewSentinelMonitor
    | CheckMonitor
    | Remove
    | Install
    | SetOption(j: nat)
    // CheckSentinelSlavesNumberInMemory, RestoreSentinel, waitRestoreSentinelSlavesOK
    | AskInfo
    | AskBlobs
    | Restore
    | ArmTimer
    | Poll(deadline: int, checks: nat)
    | WaitInfo(deadline: int, checks: nat)
    | WaitBlobs(deadline: int, checks: nat)
    | Pause(deadline: int, checks: nat)
    // CheckSentinelNumberInMemory, RestoreSentinel without waiting
    | AskPeers
    | ResetPeers
    // setSentinelConfig
    | SetCustom(j: nat)

  /** Where a settled pass goes next. */
  datatype Course = Go(step: Step) | Stop(outcome: Outcome)

  const CHECK_INTERVAL: nat := 5
  const TIME_OUT: nat := 30

  // ---------------------------------------------------------------- values the pass computes

  function Created(v: PodView): int {
    v.created
  }

  /** The four settings that follow MONITOR; the first only with a password. */
  function MonitorOptions(plan: Plan): seq<(string, string)> {
    (if plan.password != "" then [("auth-pass", plan.password)] else [])
    + [("down-after-milliseconds", "5000"), ("failover-timeout", "3000"), ("parallel-syncs", "2")]
  }

  /** `param value with spaces` split at the first space; without one the setting is malformed. */
  function GetConfigParameters(config: string): (r: Option<(string, string)>)
    ensures r.Some? ==> config == r.value.0 + " " + r.value.1 && ' ' !in r.value.0
    ensures r.None? ==> ' ' !in config
  {
    if config == "" then None
    else if config[0] == ' ' then Some(("", config[1..]))
    else
      match GetConfigParameters(config[1..])
      case None => None
      case Some(parts) => Some(([config[0]] + parts.0, parts.1))
  }

  /** The number of replicas a sentinel reports. */
  function CountOf(r: Reply): Option<int> {
    if r.BlobsAre? then Some(SentinelMemory.CountEligible(r.blobs)) else None
  }

  /** GetSlaveMasterIP finds no other master in this answer. */
  predicate FollowsOnly(r: Reply, m: Addr) {
    r.RoleIs? && (r.role == Master || r.role.host == "" || r.role.host == m)
  }

  // ---------------------------------------------------------------- loops: the next element, or what follows the loop

  function CountFrom(ips: seq<Addr>, i: nat, n: nat): Op {
    if i < |ips| then Counting(ips, i, n)
    else if n == 0 then SoleList
    else if n == 1 then MasterList
    else Finished(Broken)
  }

  function PromoteFrom(items: seq<PodView>, i: nat, leader: Addr): Op {
    if i < |items| then Promoting(items, i, leader) else MasterList
  }

  function LocateFrom(ips: seq<Addr>, i: nat, found: seq<Addr>): Op {
    if i < |ips| then Locating(ips, i, found)
    else if |found| == 1 then Settled(found[0], SlavesList)
    else Finished(Broken)
  }

  function CheckSlavesFrom(ips: seq<Addr>, i: nat): Step {
    if i < |ips| then CheckingSlaves(ips, i) else ConfigList
  }

  function RepointFrom(items: seq<PodView>, i: nat): Step {
    if i < |items| then Repointing(items, i) else ConfigList
  }

  function ConfigFrom(ips: seq<Addr>, i: nat): Step {
    if i < |ips| then ReadingConfig(ips, i) else SentinelList
  }

  function WriteFrom(ips: seq<Addr>, i: nat, keys: seq<string>, j: nat): Step {
    if j < |keys| then WritingConfig(ips, i, keys, j) else ConfigFrom(ips, i + 1)
  }

  function MonitorFrom(plan: Plan, sips: seq<Addr>, i: nat): Course {
    if i < |sips| then Go(AtSentinel(sips, i, CheckMonitor)) else MemoryFrom(plan, sips, 0)
  }

  function OptionFrom(plan: Plan, sips: seq<Addr>, i: nat, j: nat): Course {
    if j < |MonitorOptions(plan)| then Go(AtSentinel(sips, i, SetOption(j))) else MonitorFrom(plan, sips, i + 1)
  }

  function MemoryFrom(plan: Plan, sips: seq<Addr>, i: nat): Course {
    if i < |sips| then Go(AtSentinel(sips, i, AskInfo)) else PeersFrom(plan, sips, 0)
  }

  function PeersFrom(plan: Plan, sips: seq<Addr>, i: nat): Course {
    if i < |sips| then Go(AtSentinel(sips, i, AskPeers))
    else if plan.checkOnly then Go(ReadyCheck(sips))
    else CustomFrom(plan, sips, 0, 0)
  }

  /** It leads to the next setting, to the last check, or, at a malformed setting, to an error. */
  function CustomFrom(plan: Plan, sips: seq<Addr>, i: nat, j: nat): (c: Course)
    ensures c.Stop? ==> c.outcome == Broken
    ensures c.Go? && c.step != ReadyCheck(sips) ==>
      && c.step.AtSentinel? && c.step.sips == sips && i <= c.step.i < |sips|
      && c.step.task.SetCustom? && ActiveTask(plan, c.step.task) && (c.step.i == i ==> c.step.task.j >= j)
    decreases |sips| - i
  {
    if i >= |sips| then Go(ReadyCheck(sips))
    else if j >= |plan.customConfig| then CustomFrom(plan, sips, i + 1, 0)
    else if GetConfigParameters(plan.customConfig[j]).None? then Stop(Broken)
    else Go(AtSentinel(sips, i, SetCustom(j)))
  }

  // ---------------------------------------------------------------- the program

  /** Loop indices are in range: the point has a command to send. */
  predicate Active(plan: Plan, op: Op) {
    match op
    case Idle => false
    case Finished(_) => false
    case Counting(ips, i, _) => i < |ips|
    case Promoting(items, i, _) => i < |items|
    case Locating(ips, i, _) => i < |ips|
    case Settled(_, step) => ActiveStep(plan, step)
    case _ => true
  }

  predicate ActiveStep(plan: Plan, step: Step) {
    match step
    case CheckingSlaves(ips, i) => i < |ips|
    case Repointing(items, i) => i < |items|
    case ReadingConfig(ips, i) => i < |ips|
    case WritingConfig(ips, i, keys, j) =>
      i < |ips| && j < |keys| && forall k :: 0 <= k < |keys| ==> keys[k] in plan.config
    case AtSentinel(sips, i, task) => i < |sips| && ActiveTask(plan, task)
    case _ => true
  }

  predicate ActiveTask(plan: Plan, task: Task) {
    && (task.SetOption? ==> task.j < |MonitorOptions(plan)|)
    && (task.SetCustom? ==> task.j < |plan.customConfig| && GetConfigParameters(plan.customConfig[task.j]).Some?)
  }

  /** The command a point sends. */
  function NextCommand(plan: Plan, op: Op): Command
    requires Active(plan, op)
  {
    match op
    case RedisNumber => GetRedisSet
    case SentinelNumber => GetSentinelSet
    case CountList => ListPods
    case Counting(ips, i, _) => InfoReplication(ips[i])
    case SoleList => ListPods
    case PromoteSole(ip) => SlaveOfNoOne(ip)
    case AgeList => ListPods
    case OldestList => ListPods
    case Promoting(items, i, leader) =>
      if leader == "" then SlaveOfNoOne(items[i].ip) else SlaveOfHost(items[i].ip, leader)
    case MasterList => ListPods
    case Locating(ips, i, _) => InfoReplication(ips[i])
    case Settled(m, step) => StepCommand(plan, m, step)
  }

  function StepCommand(plan: Plan, m: Addr, step: Step): Command
    requires ActiveStep(plan, step)
  {
    match step
    case SlavesList => ListPods
    case CheckingSlaves(ips, i) => InfoReplication(ips[i])
    case RepointList => ListPods
    case Repointing(items, i) => if items[i].ip == m then SlaveOfNoOne(m) else SlaveOfHost(items[i].ip, m)
    case ConfigList => ListPods
    case ReadingConfig(ips, i) => ConfigGet(ips[i])
    case WritingConfig(ips, i, keys, j) => ConfigSet(ips[i], keys[j], plan.config[keys[j]])
    case SentinelList => ListSentinels
    case AtSentinel(sips, i, task) => TaskCommand(plan, m, sips[i], task)
    case ReadyCheck(_) => GetSentinelSet
  }

  function TaskCommand(plan: Plan, m: Addr, sip: Addr, task: Task): Command
    requires ActiveTask(plan, task)
  {
    match task
    case CheckMonitor => SentinelMaster(sip)
    case Remove => SentinelRemove(sip)
    case Install => SentinelMonitor(sip, m, Quorum.GetQuorum(plan.sentinels))
    case SetOption(j) => SentinelSet(sip, MonitorOptions(plan)[j].0, MonitorOptions(plan)[j].1)
    case AskInfo => SentinelInfo(sip)
    case AskBlobs => SentinelSlaves(sip)
    case Restore => SentinelReset(sip)
    case ArmTimer => ReadClock
    case Poll(_, _) => ReadClock
    case WaitInfo(_, _) => SentinelInfo(sip)
    case WaitBlobs(_, _) => SentinelSlaves(sip)
    case Pause(_, _) => Sleep(CHECK_INTERVAL)
    case AskPeers => SentinelInfo(sip)
    case ResetPeers => SentinelReset(sip)
    case SetCustom(j) =>
      var parts := GetConfigParameters(plan.customConfig[j]).value;
      SentinelSet(sip, parts.0, parts.1)
  }

  /** Where a reply leads, for the points that leave the operator no choice. */
  function Advance(plan: Plan, op: Op, r: Reply): Op
    requires Active(plan, op)
  {
    match op
    case RedisNumber =>
      if r.SetIs? && r.counts == Counts(plan.size, plan.size) then SentinelNumber else Finished(Requeue)
    case SentinelNumber =>
      if r.SetIs? && r.counts.replicas == plan.sentinels then CountList else Finished(Skipped)
    case CountList =>
      if r.PodsAre? then CountFrom(RunningIPs(r.pods), 0, 0) else Finished(Broken)
    case Counting(ips, i, n) =>
      if r.RoleIs? then CountFrom(ips, i + 1, if r.role == Master then n + 1 else n) else Finished(Broken)
    case SoleList =>
      if r.PodsAre? then
        var ips := RunningIPs(r.pods);
        if |ips| == 1 then PromoteSole(ips[0]) else AgeList
      else Finished(Broken)
    case PromoteSole(_) =>
      if r.Done? then MasterList else Finished(Broken)
    case AgeList =>
      if r.PodsAre? then OldestList else Finished(Broken)
    case OldestList =>
      if r.PodsAre? && r.pods != [] then PromoteFrom(Sorting.Sort(r.pods, Created), 0, "") else Finished(Broken)
    case Promoting(items, i, leader) =>
      if r.Done? then PromoteFrom(items, i + 1, if leader == "" then items[i].ip else leader) else Finished(Broken)
    case MasterList =>
      if r.PodsAre? then LocateFrom(RunningIPs(r.pods), 0, []) else Finished(Broken)
    case Locating(ips, i, found) =>
      if r.RoleIs? then LocateFrom(ips, i + 1, if r.role == Master then found + [ips[i]] else found)
      else Finished(Broken)
    case Settled(m, step) => Follow(m, AdvanceStep(plan, m, step, r))
  }

  function Follow(m: Addr, course: Course): Op {
    match course
    case Go(step) => Settled(m, step)
    case Stop(outcome) => Finished(outcome)
  }

  function AdvanceStep(plan: Plan, m: Addr, step: Step, r: Reply): Course
    requires ActiveStep(plan, step)
  {
    match step
    case SlavesList => Go(if r.PodsAre? then CheckSlavesFrom(RunningIPs(r.pods), 0) else RepointList)
    case CheckingSlaves(ips, i) => Go(if FollowsOnly(r, m) then CheckSlavesFrom(ips, i + 1) else RepointList)
    case RepointList => if r.PodsAre? then Go(RepointFrom(r.pods, 0)) else Stop(Broken)
    case Repointing(items, i) => if r.Done? then Go(RepointFrom(items, i + 1)) else Stop(Broken)
    case ConfigList => if r.PodsAre? then Go(ConfigFrom(RunningIPs(r.pods), 0)) else Stop(Broken)
    case ReadingConfig(ips, i) => Go(ConfigFrom(ips, i + 1))
    case WritingConfig(ips, i, keys, j) => if r.Done? then Go(WriteFrom(ips, i, keys, j + 1)) else Stop(Broken)
    case SentinelList =>
      if r.SentinelsAre? then MonitorFrom(plan, RunningSentinelIPs(r.sentinels), 0) else Stop(Broken)
    case AtSentinel(sips, i, task) => AdvanceTask(plan, m, sips, i, task, r)
    case ReadyCheck(_) =>
      if r.SetIs? then Stop(if r.counts.ready == plan.sentinels then Healthy else Requeue) else Stop(Broken)
  }

  function AdvanceTask(plan: Plan, m: Addr, sips: seq<Addr>, i: nat, task: Task, r: Reply): Course {
    match task
    case CheckMonitor => if r == MonitorIs(m) then MonitorFrom(plan, sips, i + 1) else Go(AtSentinel(sips, i, Remove))
    case Remove => Go(AtSentinel(sips, i, Install))
    case Install => if r.Done? then OptionFrom(plan, sips, i, 0) else Stop(Broken)
    case SetOption(j) => if r.Done? then OptionFrom(plan, sips, i, j + 1) else Stop(Broken)
    case AskInfo => Go(AtSentinel(sips, i, if r.InfoIs? && r.statusOk then AskBlobs else Restore))
    case AskBlobs =>
      if CountOf(r) == Some(plan.size - 1) then MemoryFrom(plan, sips, i + 1) else Go(AtSentinel(sips, i, Restore))
    case Restore => if r.Done? then Go(AtSentinel(sips, i, ArmTimer)) else Stop(Broken)
    case ArmTimer => if r.TimeIs? then Go(AtSentinel(sips, i, Poll(r.now + TIME_OUT, 0))) else Stop(Broken)
    case Poll(deadline, checks) =>
      if r.TimeIs? && r.now <= deadline then Go(AtSentinel(sips, i, WaitInfo(deadline, checks + 1))) else Stop(Broken)
    case WaitInfo(deadline, checks) =>
      Go(AtSentinel(sips, i, if r.InfoIs? && r.statusOk then WaitBlobs(deadline, checks) else Pause(deadline, checks)))
    case WaitBlobs(deadline, checks) =>
      if CountOf(r) == Some(plan.size - 1) then MemoryFrom(plan, sips, i + 1)
      else Go(AtSentinel(sips, i, Pause(deadline, checks)))
    case Pause(deadline, checks) => Go(AtSentinel(sips, i, Poll(deadline, checks)))
    case AskPeers =>
      if r.InfoIs? && r.statusOk && r.peers == Some(plan.sentinels) then PeersFrom(plan, sips, i + 1)
      else Go(AtSentinel(sips, i, ResetPeers))
    case ResetPeers => if r.Done? then PeersFrom(plan, sips, i + 1) else Stop(Broken)
    case SetCustom(j) => if r.Done? then CustomFrom(plan, sips, i, j + 1) else Stop(Broken)
  }

  /** Two points leave a choice: among equally old pods, and in the order a map is ranged over. */
  ghost predicate Advances(plan: Plan, op: Op, r: Reply, op': Op)
    requires Active(plan, op)
  {
    if op.OldestList? && r.PodsAre? && r.pods != [] then
      && op'.Promoting? && op'.i == 0 && op'.leader == ""
      && Sorting.IsSorting(r.pods, op'.items, Created)
    else if op.Settled? && op.step.ReadingConfig? && !(r.ConfigIs? && NodeConfig.Matches(plan.config, r.config)) then
      exists keys :: Lists(keys, plan.config.Keys) && op' == Settled(op.m, WriteFrom(op.step.ips, op.step.i, keys, 0))
    else
      op' == Advance(plan, op, r)
  }

  // ---------------------------------------------------------------- the system

  datatype Event = Event(cmd: Command, reply: Reply)

  /** The world, the pass being served and where it is, and what it has sent and heard since it began. */
  datatype Sys = Sys(world: World, plan: Plan, op: Op, log: seq<Event>)

  /** A command that is lost has no effect; one whose reply is lost has. Either way the operator sees a failure. */
  datatype Fate = Delivered | RequestLost | ReplyLost

  ghost predicate Happens(w: World, cmd: Command, fate: Fate, w': World, r: Reply) {
    match fate
    case Delivered => Serves(w, cmd, w', r)
    case RequestLost => Remote(cmd) && w' == w && r == Failed
    case ReplyLost => Remote(cmd) && r == Failed && exists r0 :: Serves(w, cmd, w', r0)
  }

  ghost predicate OpStep(s: Sys, fate: Fate, r: Reply, s': Sys) {
    && Active(s.plan, s.op)
    && var cmd := NextCommand(s.plan, s.op);
      && Happens(s.world, cmd, fate, s'.world, r)
      && s'.plan == s.plan
      && s'.log == s.log + [Event(cmd, r)]
      && Advances(s.plan, s.op, r, s'.op)
  }

  ghost predicate WorldStep(s: Sys, s': Sys) {
    EnvStep(s.world, s'.world) && s' == s.(world := s'.world)
  }

  /** A new pass, perhaps for an edited specification. Passes of one object are serial. */
  ghost predicate BeginPass(s: Sys, s': Sys) {
    && (s.op.Idle? || s.op.Finished?)
    && s'.world == s.world && s'.op == RedisNumber && s'.log == []
  }

  ghost predicate Next(s: Sys, s': Sys) {
    || WorldStep(s, s')
    || BeginPass(s, s')
    || exists fate, r :: OpStep(s, fate, r, s')
  }

  ghost predicate IsRun(run: seq<Sys>) {
    && run != []
    && forall k :: 0 <= k < |run| - 1 ==> Next(run[k], run[k + 1])
  }

  /** Nothing is lost, and the world is quiet. */
  ghost predicate CleanNext(s: Sys, s': Sys) {
    || (QuietStep(s.world, s'.world) && s' == s.(world := s'.world))
    || exists r :: OpStep(s, Delivered, r, s')
  }

  /** Between two passes and well addressed: where runs start. */
  ghost predicate AtRest(s: Sys) {
    WellAddressed(s.world) && (s.op.Idle? || s.op.Finished?)
  }

  // ---------------------------------------------------------------- sanity of the machine

  ghost predicate Leads(plan: Plan, course: Course) {
    course.Go? ==> ActiveStep(plan, course.step)
  }

  lemma TaskLeadsOn(plan: Plan, m: Addr, sips: seq<Addr>, i: nat, task: Task, r: Reply)
    requires i < |sips| && ActiveTask(plan, task)
    ensures Leads(plan, AdvanceTask(plan, m, sips, i, task, r))
  {
  }

  lemma StepLeadsOn(plan: Plan, m: Addr, step: Step, r: Reply)
    requires ActiveStep(plan, step)
    ensures Leads(plan, AdvanceStep(plan, m, step, r))
  {
    if step.AtSentinel? {
      TaskLeadsOn(plan, m, step.sips, step.i, step.task, r);
    }
  }

  /** The machine never gets stuck in the middle of a pass: whatever the reply, there is a next point. */
  lemma AlwaysANextPoint(plan: Plan, op: Op, r: Reply)
    requires Active(plan, op)
    ensures var op' := Advance(plan, op, r); Active(plan, op') || op'.Finished?
  {
    if op.Settled? {
      StepLeadsOn(plan, op.m, op.step, r);
    }
  }
}
