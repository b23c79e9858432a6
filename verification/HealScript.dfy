/**
 * The script of a pass that ends well, read off its log from the scan that settled it: which
 * command follows which answer, what each has to be answered, and for whom. It holds in every
 * run, whatever was lost and whatever moved.
 */
module HealScript {
  import opened Basics
  import opened Cluster
  import opened HealMachine
  import opened HealTrace
  import NodeConfig
  import Quorum
  import SentinelMemory

  // ---------------------------------------------------------------- replicas

  /** The pod is a master itself, names no master, or names m. */
  predicate NoOtherMaster(r: Reply, m: Addr) {
    r.RoleIs? && match r.role case Master => true case SlaveOf(host) => host == "" || host == m
  }

  ghost predicate CheckedAt(s: seq<Event>, m: Addr, ips: seq<Addr>, k: nat) {
    k < |ips| && 1 + k < |s| && s[1 + k].cmd == InfoReplication(ips[k]) && NoOtherMaster(s[1 + k].reply, m)
  }

  /** The pods were listed, and the first i running ones have no other master. */
  ghost predicate CheckUpTo(s: seq<Event>, m: Addr, ips: seq<Addr>, i: nat) {
    && i <= |ips| && |s| == 1 + i
    && s[0].cmd == ListPods && s[0].reply.PodsAre? && ips == RunningIPs(s[0].reply.pods)
    && forall k :: 0 <= k < i ==> CheckedAt(s, m, ips, k)
  }

  /** The check stopped: the pods were not listed, or one has another master or did not answer. */
  ghost predicate CheckBroken(s: seq<Event>, m: Addr) {
    && s != []
    && var n := |s| - 1;
      || (n == 0 && s[0].cmd == ListPods && !s[0].reply.PodsAre?)
      || (n > 0 && exists ips :: BrokenAt(s, m, ips, n))
  }

  ghost predicate BrokenAt(s: seq<Event>, m: Addr, ips: seq<Addr>, n: nat) {
    && 0 < n < |s| && CheckUpTo(s[..n], m, ips, n - 1) && n - 1 < |ips|
    && s[n].cmd == InfoReplication(ips[n - 1]) && !NoOtherMaster(s[n].reply, m)
  }

  ghost predicate RepointedAt(s: seq<Event>, m: Addr, pods: seq<PodView>, t: nat) {
    && t < |pods| && 1 + t < |s|
    && s[1 + t] == Event(if pods[t].ip == m then SlaveOfNoOne(m) else SlaveOfHost(pods[t].ip, m), Done)
  }

  /** All pods were listed, and the first i have been told, with success. */
  ghost predicate RepointUpTo(s: seq<Event>, m: Addr, pods: seq<PodView>, i: nat) {
    && i <= |pods| && |s| == 1 + i && s[0] == Event(ListPods, PodsAre(pods))
    && forall t :: 0 <= t < i ==> RepointedAt(s, m, pods, t)
  }

  /** Either every running pod passed the check, or it stopped and then every listed pod was told. */
  ghost predicate Slaves(s: seq<Event>, m: Addr) {
    || (exists ips :: CheckUpTo(s, m, ips, |ips|))
    || exists c, pods :: 0 <= c <= |s| && CheckBroken(s[..c], m) && RepointUpTo(s[c..], m, pods, |pods|)
  }

  // ---------------------------------------------------------------- what is said for one pod or sentinel

  datatype Loop = Nodes | Watch | Memory | Peers | Custom

  ghost predicate WrittenAt(s: seq<Event>, plan: Plan, ip: Addr, keys: seq<string>, t: nat) {
    && t < |keys| && 1 + t < |s| && keys[t] in plan.config
    && s[1 + t] == Event(ConfigSet(ip, keys[t], plan.config[keys[t]]), Done)
  }

  /** The node's settings were read, differ or are unknown, and the first j keys were written with success. */
  ghost predicate WrittenUpTo(s: seq<Event>, plan: Plan, ip: Addr, keys: seq<string>, j: nat) {
    && j <= |keys| && |s| == 1 + j && s[0].cmd == ConfigGet(ip)
    && !(s[0].reply.ConfigIs? && NodeConfig.Matches(plan.config, s[0].reply.config))
    && Lists(keys, plan.config.Keys)
    && forall t :: 0 <= t < j ==> WrittenAt(s, plan, ip, keys, t)
  }

  ghost predicate NodePiece(plan: Plan, ip: Addr, s: seq<Event>) {
    || (|s| == 1 && s[0].cmd == ConfigGet(ip) && s[0].reply.ConfigIs? && NodeConfig.Matches(plan.config, s[0].reply.config))
    || exists keys :: WrittenUpTo(s, plan, ip, keys, |keys|)
  }

  /** The settings that follow MONITOR. */
  ghost function Settings(password: string): seq<(string, string)> {
    if password == "" then
      [("down-after-milliseconds", "5000"), ("failover-timeout", "3000"), ("parallel-syncs", "2")]
    else
      [("auth-pass", password), ("down-after-milliseconds", "5000"), ("failover-timeout", "3000"), ("parallel-syncs", "2")]
  }

  ghost predicate SetAfterMonitor(s: seq<Event>, plan: Plan, sip: Addr, t: nat) {
    && t < |Settings(plan.password)| && 3 + t < |s|
    && s[3 + t] == Event(SentinelSet(sip, Settings(plan.password)[t].0, Settings(plan.password)[t].1), Done)
  }

  /** It watched something else or did not say; REMOVE, whatever came of it; MONITOR with success; and the first j settings with success. */
  ghost predicate InstalledUpTo(s: seq<Event>, plan: Plan, m: Addr, sip: Addr, j: nat) {
    && j <= |Settings(plan.password)| && |s| == 3 + j
    && s[0].cmd == SentinelMaster(sip) && s[0].reply != MonitorIs(m)
    && s[1].cmd == SentinelRemove(sip)
    && s[2] == Event(SentinelMonitor(sip, m, Quorum.GetQuorum(plan.sentinels)), Done)
    && forall t :: 0 <= t < j ==> SetAfterMonitor(s, plan, sip, t)
  }

  ghost predicate WatchPiece(plan: Plan, m: Addr, sip: Addr, s: seq<Event>) {
    || (|s| == 1 && s[0] == Event(SentinelMaster(sip), MonitorIs(m)))
    || InstalledUpTo(s, plan, m, sip, |Settings(plan.password)|)
  }

  predicate Ready(r: Reply) {
    r.InfoIs? && r.statusOk
  }

  predicate CountsTo(r: Reply, n: int) {
    r.BlobsAre? && SentinelMemory.CountEligible(r.blobs) == n
  }

  /** A ready sentinel that counts size - 1 replicas. */
  ghost predicate Reported(plan: Plan, sip: Addr, s: seq<Event>) {
    && |s| == 2 && s[0].cmd == SentinelInfo(sip) && Ready(s[0].reply)
    && s[1].cmd == SentinelSlaves(sip) && CountsTo(s[1].reply, plan.size - 1)
  }

  /** One that is not, or does not. */
  ghost predicate Unreported(plan: Plan, sip: Addr, s: seq<Event>) {
    || (|s| == 1 && s[0].cmd == SentinelInfo(sip) && !Ready(s[0].reply))
    || (|s| == 2 && s[0].cmd == SentinelInfo(sip) && Ready(s[0].reply)
        && s[1].cmd == SentinelSlaves(sip) && !CountsTo(s[1].reply, plan.size - 1))
  }

  predicate InTime(e: Event, deadline: int) {
    e.cmd == ReadClock && e.reply.TimeIs? && e.reply.now <= deadline
  }

  /** The clock in time, a check in vain, five seconds of sleep. */
  ghost predicate Round(plan: Plan, sip: Addr, deadline: int, s: seq<Event>) {
    |s| >= 2 && InTime(s[0], deadline) && Unreported(plan, sip, s[1..|s| - 1]) && s[|s| - 1].cmd == Sleep(5)
  }

  ghost predicate Rounds(plan: Plan, sip: Addr, deadline: int, s: seq<Event>)
    decreases |s|
  {
    s == [] || exists c :: 0 <= c < |s| && Rounds(plan, sip, deadline, s[..c]) && Round(plan, sip, deadline, s[c..])
  }

  /** A check in vain, a RESET with success, the timer armed for thirty seconds, and rounds of waiting. */
  ghost predicate RestoredUpTo(plan: Plan, sip: Addr, deadline: int, s: seq<Event>) {
    exists c :: RestoredAt(plan, sip, deadline, s, c) && Rounds(plan, sip, deadline, s[c + 2..])
  }

  ghost predicate RestoredAt(plan: Plan, sip: Addr, deadline: int, s: seq<Event>, c: int) {
    && 0 <= c && c + 2 <= |s| && Unreported(plan, sip, s[..c])
    && s[c] == Event(SentinelReset(sip), Done) && s[c + 1].cmd == ReadClock
    && s[c + 1].reply.TimeIs? && deadline == s[c + 1].reply.now + 30
  }

  /** In the next round, after the look at the clock. */
  ghost predicate InRound(plan: Plan, sip: Addr, deadline: int, s: seq<Event>, c: int) {
    0 <= c < |s| && RestoredUpTo(plan, sip, deadline, s[..c]) && InTime(s[c], deadline)
  }

  ghost predicate MemoryPiece(plan: Plan, sip: Addr, s: seq<Event>) {
    || Reported(plan, sip, s)
    || exists c, deadline :: InRound(plan, sip, deadline, s, c) && Reported(plan, sip, s[c + 1..])
  }

  predicate KnowsAll(plan: Plan, r: Reply) {
    r.InfoIs? && r.statusOk && r.peers == Some(plan.sentinels)
  }

  ghost predicate PeersPiece(plan: Plan, sip: Addr, s: seq<Event>) {
    || (|s| == 1 && s[0].cmd == SentinelInfo(sip) && KnowsAll(plan, s[0].reply))
    || (|s| == 2 && s[0].cmd == SentinelInfo(sip) && !KnowsAll(plan, s[0].reply) && s[1] == Event(SentinelReset(sip), Done))
  }

  ghost predicate CustomAt(s: seq<Event>, plan: Plan, sip: Addr, t: nat) {
    && t < |plan.customConfig| && t < |s|
    && match GetConfigParameters(plan.customConfig[t])
       case None => false
       case Some(parts) => s[t] == Event(SentinelSet(sip, parts.0, parts.1), Done)
  }

  ghost predicate CustomUpTo(s: seq<Event>, plan: Plan, sip: Addr, j: nat) {
    j <= |plan.customConfig| && |s| == j && forall t :: 0 <= t < j ==> CustomAt(s, plan, sip, t)
  }

  ghost predicate Piece(plan: Plan, m: Addr, loop: Loop, addr: Addr, s: seq<Event>) {
    match loop
    case Nodes => NodePiece(plan, addr, s)
    case Watch => WatchPiece(plan, m, addr, s)
    case Memory => MemoryPiece(plan, addr, s)
    case Peers => PeersPiece(plan, addr, s)
    case Custom => CustomUpTo(s, plan, addr, |plan.customConfig|)
  }

  /** One piece after the other, for the first i addresses. */
  ghost predicate Pieces(plan: Plan, m: Addr, loop: Loop, addrs: seq<Addr>, i: nat, s: seq<Event>) {
    i <= |addrs| &&
    if i == 0 then s == []
    else exists c :: 0 <= c <= |s| && Pieces(plan, m, loop, addrs, i - 1, s[..c]) && Piece(plan, m, loop, addrs[i - 1], s[c..])
  }

  // ---------------------------------------------------------------- the script

  function Rank(loop: Loop): nat {
    match loop
    case Nodes => 0
    case Watch => 1
    case Memory => 2
    case Peers => 3
    case Custom => 4
  }

  /** What comes before a loop: its listing, after all that is before; or the loop before over the same addresses. */
  ghost predicate Opening(plan: Plan, m: Addr, loop: Loop, addrs: seq<Addr>, s: seq<Event>)
    decreases Rank(loop), 0
  {
    match loop
    case Nodes =>
      && s != [] && s[|s| - 1].cmd == ListPods && s[|s| - 1].reply.PodsAre? && addrs == RunningIPs(s[|s| - 1].reply.pods)
      && Slaves(s[..|s| - 1], m)
    case Watch =>
      && s != [] && s[|s| - 1].cmd == ListSentinels && s[|s| - 1].reply.SentinelsAre?
      && addrs == RunningSentinelIPs(s[|s| - 1].reply.sentinels)
      && exists ips :: UpTo(plan, m, Nodes, ips, |ips|, s[..|s| - 1])
    case Memory => UpTo(plan, m, Watch, addrs, |addrs|, s)
    case Peers => UpTo(plan, m, Memory, addrs, |addrs|, s)
    case Custom => UpTo(plan, m, Peers, addrs, |addrs|, s)
  }

  /** The loop has been through with the first i addresses. */
  ghost predicate UpTo(plan: Plan, m: Addr, loop: Loop, addrs: seq<Addr>, i: nat, s: seq<Event>)
    decreases Rank(loop), 1
  {
    exists c :: 0 <= c <= |s| && Opening(plan, m, loop, addrs, s[..c]) && Pieces(plan, m, loop, addrs, i, s[c..])
  }

  /** All loops, and at the very end all sentinels ready. */
  ghost predicate Script(plan: Plan, m: Addr, s: seq<Event>) {
    && s != []
    && var last := s[|s| - 1];
      && last.cmd == GetSentinelSet && last.reply.SetIs? && last.reply.counts.ready == plan.sentinels
      && exists sips :: UpTo(plan, m, if plan.checkOnly then Peers else Custom, sips, |sips|, s[..|s| - 1])
  }

  // ---------------------------------------------------------------- where a pass is in the script

  function LoopOf(task: Task): Loop {
    if task.CheckMonitor? || task.Remove? || task.Install? || task.SetOption? then Watch
    else if task.AskPeers? || task.ResetPeers? then Peers
    else if task.SetCustom? then Custom
    else Memory
  }

  /** What has been said for the present sentinel. */
  ghost predicate Partial(plan: Plan, m: Addr, sip: Addr, task: Task, s: seq<Event>) {
    match task
    case CheckMonitor => s == []
    case Remove => |s| == 1 && s[0].cmd == SentinelMaster(sip) && s[0].reply != MonitorIs(m)
    case Install => |s| == 2 && s[0].cmd == SentinelMaster(sip) && s[0].reply != MonitorIs(m) && s[1].cmd == SentinelRemove(sip)
    case SetOption(j) => InstalledUpTo(s, plan, m, sip, j)
    case AskInfo => s == []
    case AskBlobs => |s| == 1 && s[0].cmd == SentinelInfo(sip) && Ready(s[0].reply)
    case Restore => Unreported(plan, sip, s)
    case ArmTimer => s != [] && s[|s| - 1] == Event(SentinelReset(sip), Done) && Unreported(plan, sip, s[..|s| - 1])
    case Poll(deadline, _) => RestoredUpTo(plan, sip, deadline, s)
    case WaitInfo(deadline, _) => InRound(plan, sip, deadline, s, |s| - 1)
    case WaitBlobs(deadline, _) =>
      InRound(plan, sip, deadline, s, |s| - 2) && s[|s| - 1].cmd == SentinelInfo(sip) && Ready(s[|s| - 1].reply)
    case Pause(deadline, _) => exists c :: InRound(plan, sip, deadline, s, c) && Unreported(plan, sip, s[c + 1..])
    case AskPeers => s == []
    case ResetPeers => |s| == 1 && s[0].cmd == SentinelInfo(sip) && !KnowsAll(plan, s[0].reply)
    case SetCustom(j) => CustomUpTo(s, plan, sip, j)
  }

  ghost predicate TaskScript(plan: Plan, m: Addr, sips: seq<Addr>, i: nat, task: Task, s: seq<Event>) {
    && i < |sips| && (task.SetCustom? ==> !plan.checkOnly)
    && exists d :: InTask(plan, m, sips, i, task, s, d)
  }

  ghost predicate InTask(plan: Plan, m: Addr, sips: seq<Addr>, i: nat, task: Task, s: seq<Event>, d: int) {
    i < |sips| && 0 <= d <= |s| && UpTo(plan, m, LoopOf(task), sips, i, s[..d]) && Partial(plan, m, sips[i], task, s[d..])
  }

  ghost predicate InRepoint(s: seq<Event>, m: Addr, pods: seq<PodView>, i: nat, c: int) {
    0 <= c <= |s| && CheckBroken(s[..c], m) && RepointUpTo(s[c..], m, pods, i)
  }

  ghost predicate InWriting(plan: Plan, m: Addr, ips: seq<Addr>, i: nat, keys: seq<string>, j: nat, s: seq<Event>, d: int) {
    i < |ips| && 0 <= d <= |s| && UpTo(plan, m, Nodes, ips, i, s[..d]) && WrittenUpTo(s[d..], plan, ips[i], keys, j)
  }

  ghost predicate StepScript(plan: Plan, m: Addr, step: Step, s: seq<Event>) {
    match step
    case SlavesList => s == []
    case CheckingSlaves(ips, i) => i < |ips| && CheckUpTo(s, m, ips, i)
    case RepointList => CheckBroken(s, m)
    case Repointing(items, i) => i < |items| && exists c :: InRepoint(s, m, items, i, c)
    case ConfigList => Slaves(s, m)
    case ReadingConfig(ips, i) => i < |ips| && UpTo(plan, m, Nodes, ips, i, s)
    case WritingConfig(ips, i, keys, j) => i < |ips| && j < |keys| && exists d :: InWriting(plan, m, ips, i, keys, j, s, d)
    case SentinelList => exists ips :: UpTo(plan, m, Nodes, ips, |ips|, s)
    case AtSentinel(sips, i, task) => TaskScript(plan, m, sips, i, task, s)
    case ReadyCheck(sips) => UpTo(plan, m, if plan.checkOnly then Peers else Custom, sips, |sips|, s)
  }

  ghost predicate CourseScript(plan: Plan, m: Addr, course: Course, s: seq<Event>) {
    match course
    case Go(step) => StepScript(plan, m, step, s)
    case Stop(outcome) => outcome == Healthy ==> Script(plan, m, s)
  }

  /** The same of a point after settling on m. */
  ghost predicate OpScript(plan: Plan, m: Addr, op: Op, s: seq<Event>) {
    match op
    case Settled(m', step) => m' == m && StepScript(plan, m, step, s)
    case Finished(outcome) => outcome == Healthy ==> Script(plan, m, s)
    case _ => false
  }

  lemma CourseIsOp(plan: Plan, m: Addr, course: Course, s: seq<Event>)
    ensures CourseScript(plan, m, course, s) <==> OpScript(plan, m, Follow(m, course), s)
  {
    hide StepScript;
    hide Script;
  }

  // ---------------------------------------------------------------- pieces close

  lemma PieceCloses(plan: Plan, m: Addr, loop: Loop, addrs: seq<Addr>, i: nat, s: seq<Event>, d: int)
    requires i < |addrs| && 0 <= d <= |s|
    requires UpTo(plan, m, loop, addrs, i, s[..d]) && Piece(plan, m, loop, addrs[i], s[d..])
    ensures UpTo(plan, m, loop, addrs, i + 1, s)
  {
    hide Opening;
    hide Piece;
    var c :| 0 <= c <= d && Opening(plan, m, loop, addrs, s[..d][..c]) && Pieces(plan, m, loop, addrs, i, s[..d][c..]);
    assert s[..d][..c] == s[..c];
    var rest := s[c..];
    assert rest[..d - c] == s[..d][c..] && rest[d - c..] == s[d..];
    assert Pieces(plan, m, loop, addrs, i + 1, rest);
  }

  lemma LoopBegins(plan: Plan, m: Addr, loop: Loop, addrs: seq<Addr>, s: seq<Event>)
    requires Opening(plan, m, loop, addrs, s)
    ensures UpTo(plan, m, loop, addrs, 0, s)
  {
    hide Opening;
    assert s[..|s|] == s && s[|s|..] == [];
    assert Pieces(plan, m, loop, addrs, 0, s[|s|..]);
  }

  lemma TaskBegins(plan: Plan, m: Addr, sips: seq<Addr>, i: nat, task: Task, s: seq<Event>)
    requires i < |sips| && UpTo(plan, m, LoopOf(task), sips, i, s) && (task.CheckMonitor? || task.AskInfo? || task.AskPeers?)
    ensures TaskScript(plan, m, sips, i, task, s)
  {
    hide UpTo;
    assert s[..|s|] == s && s[|s|..] == [];
    assert InTask(plan, m, sips, i, task, s, |s|);
  }

  // ---------------------------------------------------------------- loop heads

  lemma ConfigHead(plan: Plan, m: Addr, ips: seq<Addr>, i: nat, s: seq<Event>)
    requires i <= |ips| && UpTo(plan, m, Nodes, ips, i, s)
    ensures StepScript(plan, m, ConfigFrom(ips, i), s)
  {
    hide UpTo;
  }

  lemma {:induction false} CustomHead(plan: Plan, m: Addr, sips: seq<Addr>, i: nat, j: nat, s: seq<Event>, d: int)
    requires !plan.checkOnly && i <= |sips| && j <= |plan.customConfig| && 0 <= d <= |s|
    requires UpTo(plan, m, Custom, sips, i, s[..d])
    requires if i < |sips| then CustomUpTo(s[d..], plan, sips[i], j) else d == |s|
    ensures CourseScript(plan, m, CustomFrom(plan, sips, i, j), s)
    decreases |sips| - i
  {
    hide UpTo;
    hide GetConfigParameters;
    if i == |sips| {
      assert s[..d] == s;
    } else if j == |plan.customConfig| {
      PieceCloses(plan, m, Custom, sips, i, s, d);
      assert s[..|s|] == s && s[|s|..] == [];
      CustomHead(plan, m, sips, i + 1, 0, s, |s|);
    } else if GetConfigParameters(plan.customConfig[j]).Some? {
      assert InTask(plan, m, sips, i, SetCustom(j), s, d);
    }
  }

  lemma PeersHead(plan: Plan, m: Addr, sips: seq<Addr>, i: nat, s: seq<Event>)
    requires i <= |sips| && UpTo(plan, m, Peers, sips, i, s)
    ensures CourseScript(plan, m, PeersFrom(plan, sips, i), s)
  {
    hide UpTo;
    hide TaskScript;
    if i < |sips| {
      TaskBegins(plan, m, sips, i, AskPeers, s);
    } else if !plan.checkOnly {
      assert Opening(plan, m, Custom, sips, s);
      LoopBegins(plan, m, Custom, sips, s);
      assert s[..|s|] == s && s[|s|..] == [];
      CustomHead(plan, m, sips, 0, 0, s, |s|);
    }
  }

  lemma MemoryHead(plan: Plan, m: Addr, sips: seq<Addr>, i: nat, s: seq<Event>)
    requires i <= |sips| && UpTo(plan, m, Memory, sips, i, s)
    ensures CourseScript(plan, m, MemoryFrom(plan, sips, i), s)
  {
    hide UpTo;
    hide TaskScript;
    hide PeersFrom;
    if i < |sips| {
      TaskBegins(plan, m, sips, i, AskInfo, s);
    } else {
      assert Opening(plan, m, Peers, sips, s);
      LoopBegins(plan, m, Peers, sips, s);
      PeersHead(plan, m, sips, 0, s);
    }
  }

  lemma WatchHead(plan: Plan, m: Addr, sips: seq<Addr>, i: nat, s: seq<Event>)
    requires i <= |sips| && UpTo(plan, m, Watch, sips, i, s)
    ensures CourseScript(plan, m, MonitorFrom(plan, sips, i), s)
  {
    hide UpTo;
    hide TaskScript;
    hide MemoryFrom;
    if i < |sips| {
      TaskBegins(plan, m, sips, i, CheckMonitor, s);
    } else {
      assert Opening(plan, m, Memory, sips, s);
      LoopBegins(plan, m, Memory, sips, s);
      MemoryHead(plan, m, sips, 0, s);
    }
  }

  // ---------------------------------------------------------------- steps over the pods

  /** Cutting a longer log. */
  lemma Cut(s: seq<Event>, e: Event, d: int)
    requires 0 <= d <= |s|
    ensures (s + [e])[..d] == s[..d] && (s + [e])[d..] == s[d..] + [e]
    ensures (s + [e])[..|s|] == s && (s + [e])[|s|] == e
  {
  }

  lemma CheckGrows(s: seq<Event>, e: Event, m: Addr, ips: seq<Addr>, i: nat)
    requires CheckUpTo(s, m, ips, i) && i < |ips| && e.cmd == InfoReplication(ips[i]) && NoOtherMaster(e.reply, m)
    ensures CheckUpTo(s + [e], m, ips, i + 1)
  {
    hide RunningIPs;
    assert (s + [e])[0] == s[0];
    forall k | 0 <= k < i + 1
      ensures CheckedAt(s + [e], m, ips, k)
    {
      assert k < i ==> CheckedAt(s, m, ips, k);
    }
  }

  lemma CheckBreaks(s: seq<Event>, e: Event, m: Addr, ips: seq<Addr>, i: nat)
    requires CheckUpTo(s, m, ips, i) && i < |ips| && e.cmd == InfoReplication(ips[i]) && !NoOtherMaster(e.reply, m)
    ensures CheckBroken(s + [e], m)
  {
    hide CheckUpTo;
    Cut(s, e, |s|);
    assert |s| == 1 + i by { CheckLength(s, m, ips, i); }
    assert BrokenAt(s + [e], m, ips, |s|);
  }

  lemma CheckLength(s: seq<Event>, m: Addr, ips: seq<Addr>, i: nat)
    requires CheckUpTo(s, m, ips, i)
    ensures |s| == 1 + i
  {
  }

  lemma RepointBegins(s: seq<Event>, e: Event, m: Addr)
    requires CheckBroken(s, m) && e.cmd == ListPods && e.reply.PodsAre?
    ensures InRepoint(s + [e], m, e.reply.pods, 0, |s|)
  {
    hide CheckBroken;
    Cut(s, e, |s|);
    assert (s + [e])[|s|..] == [e];
  }

  lemma RepointGrows(s: seq<Event>, e: Event, m: Addr, pods: seq<PodView>, i: nat, c: int)
    requires InRepoint(s, m, pods, i, c) && i < |pods|
    requires e == Event(if pods[i].ip == m then SlaveOfNoOne(m) else SlaveOfHost(pods[i].ip, m), Done)
    ensures InRepoint(s + [e], m, pods, i + 1, c)
  {
    hide CheckBroken;
    Cut(s, e, c);
    var u := s[c..];
    assert (u + [e])[0] == u[0];
    forall t | 0 <= t < i + 1
      ensures RepointedAt(u + [e], m, pods, t)
    {
      assert t < i ==> RepointedAt(u, m, pods, t);
    }
  }

  lemma RepointHead(plan: Plan, s: seq<Event>, m: Addr, pods: seq<PodView>, i: nat, c: int)
    requires InRepoint(s, m, pods, i, c)
    ensures StepScript(plan, m, RepointFrom(pods, i), s)
  {
    hide CheckBroken;
    hide RepointUpTo;
    assert i <= |pods| by { RepointLength(s[c..], m, pods, i); }
  }

  lemma RepointLength(s: seq<Event>, m: Addr, pods: seq<PodView>, i: nat)
    requires RepointUpTo(s, m, pods, i)
    ensures i <= |pods|
  {
  }

  lemma NodesBegin(plan: Plan, m: Addr, s: seq<Event>, e: Event)
    requires Slaves(s, m) && e.cmd == ListPods && e.reply.PodsAre?
    ensures StepScript(plan, m, ConfigFrom(RunningIPs(e.reply.pods), 0), s + [e])
  {
    hide Slaves;
    hide RunningIPs;
    hide ConfigFrom;
    hide UpTo;
    Cut(s, e, |s|);
    var ips := RunningIPs(e.reply.pods);
    assert Opening(plan, m, Nodes, ips, s + [e]);
    LoopBegins(plan, m, Nodes, ips, s + [e]);
    ConfigHead(plan, m, ips, 0, s + [e]);
  }

  lemma NodeMatches(plan: Plan, m: Addr, ips: seq<Addr>, i: nat, s: seq<Event>, e: Event)
    requires i < |ips| && UpTo(plan, m, Nodes, ips, i, s) && e.cmd == ConfigGet(ips[i])
    requires e.reply.ConfigIs? && NodeConfig.Matches(plan.config, e.reply.config)
    ensures StepScript(plan, m, ConfigFrom(ips, i + 1), s + [e])
  {
    hide UpTo;
    hide NodeConfig.Matches;
    hide ConfigFrom;
    Cut(s, e, |s|);
    assert (s + [e])[|s|..] == [e];
    PieceCloses(plan, m, Nodes, ips, i, s + [e], |s|);
    ConfigHead(plan, m, ips, i + 1, s + [e]);
  }

  lemma WriteHead(plan: Plan, m: Addr, ips: seq<Addr>, i: nat, keys: seq<string>, j: nat, s: seq<Event>, d: int)
    requires InWriting(plan, m, ips, i, keys, j, s, d)
    ensures StepScript(plan, m, WriteFrom(ips, i, keys, j), s)
  {
    hide UpTo;
    hide ConfigFrom;
    hide NodeConfig.Matches;
    hide WrittenUpTo;
    assert j <= |keys| by { WrittenLength(s[d..], plan, ips[i], keys, j); }
    if j == |keys| {
      PieceCloses(plan, m, Nodes, ips, i, s, d);
      ConfigHead(plan, m, ips, i + 1, s);
    }
  }

  lemma WrittenLength(s: seq<Event>, plan: Plan, ip: Addr, keys: seq<string>, j: nat)
    requires WrittenUpTo(s, plan, ip, keys, j)
    ensures j <= |keys|
  {
  }

  lemma NodeDiffers(plan: Plan, m: Addr, ips: seq<Addr>, i: nat, s: seq<Event>, e: Event, keys: seq<string>)
    requires i < |ips| && UpTo(plan, m, Nodes, ips, i, s) && e.cmd == ConfigGet(ips[i])
    requires !(e.reply.ConfigIs? && NodeConfig.Matches(plan.config, e.reply.config)) && Lists(keys, plan.config.Keys)
    ensures StepScript(plan, m, WriteFrom(ips, i, keys, 0), s + [e])
  {
    hide UpTo;
    hide NodeConfig.Matches;
    hide WriteFrom;
    Cut(s, e, |s|);
    assert (s + [e])[|s|..] == [e];
    assert InWriting(plan, m, ips, i, keys, 0, s + [e], |s|);
    WriteHead(plan, m, ips, i, keys, 0, s + [e], |s|);
  }

  lemma WritingGrows(plan: Plan, m: Addr, ips: seq<Addr>, i: nat, keys: seq<string>, j: nat, s: seq<Event>, e: Event, d: int)
    requires InWriting(plan, m, ips, i, keys, j, s, d) && j < |keys| && keys[j] in plan.config
    requires e == Event(ConfigSet(ips[i], keys[j], plan.config[keys[j]]), Done)
    ensures StepScript(plan, m, WriteFrom(ips, i, keys, j + 1), s + [e])
  {
    hide UpTo;
    hide NodeConfig.Matches;
    hide WriteFrom;
    Cut(s, e, d);
    var u := s[d..];
    assert (u + [e])[0] == u[0];
    forall t | 0 <= t < j + 1
      ensures WrittenAt(u + [e], plan, ips[i], keys, t)
    {
      assert t < j ==> WrittenAt(u, plan, ips[i], keys, t);
    }
    assert InWriting(plan, m, ips, i, keys, j + 1, s + [e], d);
    WriteHead(plan, m, ips, i, keys, j + 1, s + [e], d);
  }

  // ---------------------------------------------------------------- steps over the sentinels

  /** The point goes on with one more thing said for the present sentinel. */
  lemma TaskGoes(plan: Plan, m: Addr, sips: seq<Addr>, i: nat, task: Task, s: seq<Event>, e: Event, d: int, next: Task)
    requires InTask(plan, m, sips, i, task, s, d) && LoopOf(next) == LoopOf(task)
    requires (next.SetCustom? ==> !plan.checkOnly) && Partial(plan, m, sips[i], next, s[d..] + [e])
    ensures TaskScript(plan, m, sips, i, next, s + [e])
  {
    hide UpTo;
    hide Partial;
    Cut(s, e, d);
    assert InTask(plan, m, sips, i, next, s + [e], d);
  }

  /** The present sentinel is done with. */
  lemma TaskCloses(plan: Plan, m: Addr, sips: seq<Addr>, i: nat, task: Task, s: seq<Event>, e: Event, d: int)
    requires InTask(plan, m, sips, i, task, s, d) && Piece(plan, m, LoopOf(task), sips[i], s[d..] + [e])
    ensures UpTo(plan, m, LoopOf(task), sips, i + 1, s + [e])
  {
    hide UpTo;
    hide Partial;
    hide Piece;
    Cut(s, e, d);
    PieceCloses(plan, m, LoopOf(task), sips, i, s + [e], d);
  }

  lemma OptionsAreSettings(plan: Plan)
    ensures MonitorOptions(plan) == Settings(plan.password)
  {
  }

  lemma OptionHead(plan: Plan, m: Addr, sips: seq<Addr>, i: nat, j: nat, s: seq<Event>, d: int)
    requires i < |sips| && 0 <= d <= |s| && UpTo(plan, m, Watch, sips, i, s[..d]) && InstalledUpTo(s[d..], plan, m, sips[i], j)
    ensures CourseScript(plan, m, OptionFrom(plan, sips, i, j), s)
  {
    hide UpTo;
    hide MonitorFrom;
    hide Settings;
    hide MonitorOptions;
    OptionsAreSettings(plan);
    assert j <= |Settings(plan.password)| by { InstalledLength(s[d..], plan, m, sips[i], j); }
    hide InstalledUpTo;
    if j < |MonitorOptions(plan)| {
      assert InTask(plan, m, sips, i, SetOption(j), s, d);
    } else {
      PieceCloses(plan, m, Watch, sips, i, s, d);
      WatchHead(plan, m, sips, i + 1, s);
    }
  }

  lemma InstalledLength(s: seq<Event>, plan: Plan, m: Addr, sip: Addr, j: nat)
    requires InstalledUpTo(s, plan, m, sip, j)
    ensures j <= |Settings(plan.password)|
  {
    hide Settings;
  }

  lemma InstalledGrows(u: seq<Event>, e: Event, plan: Plan, m: Addr, sip: Addr, j: nat)
    requires InstalledUpTo(u, plan, m, sip, j) && j < |Settings(plan.password)|
    requires e == Event(SentinelSet(sip, Settings(plan.password)[j].0, Settings(plan.password)[j].1), Done)
    ensures InstalledUpTo(u + [e], plan, m, sip, j + 1)
  {
    hide Settings;
    assert (u + [e])[0] == u[0] && (u + [e])[1] == u[1] && (u + [e])[2] == u[2];
    forall t | 0 <= t < j + 1
      ensures SetAfterMonitor(u + [e], plan, sip, t)
    {
      assert t < j ==> SetAfterMonitor(u, plan, sip, t);
    }
  }

  lemma CheckingTask(plan: Plan, m: Addr, sips: seq<Addr>, i: nat, s: seq<Event>, e: Event, d: int)
    requires InTask(plan, m, sips, i, CheckMonitor, s, d) && e.cmd == SentinelMaster(sips[i])
    ensures CourseScript(plan, m, AdvanceTask(plan, m, sips, i, CheckMonitor, e.reply), s + [e])
  {
    hide UpTo;
    hide MonitorFrom;
    hide InstalledUpTo;
    Cut(s, e, d);
    assert s[d..] + [e] == [e];
    if e.reply == MonitorIs(m) {
      TaskCloses(plan, m, sips, i, CheckMonitor, s, e, d);
      WatchHead(plan, m, sips, i + 1, s + [e]);
    } else {
      TaskGoes(plan, m, sips, i, CheckMonitor, s, e, d, Remove);
    }
  }

  lemma RemovingTask(plan: Plan, m: Addr, sips: seq<Addr>, i: nat, s: seq<Event>, e: Event, d: int)
    requires InTask(plan, m, sips, i, Remove, s, d) && e.cmd == SentinelRemove(sips[i])
    ensures CourseScript(plan, m, AdvanceTask(plan, m, sips, i, Remove, e.reply), s + [e])
  {
    hide UpTo;
    var u := s[d..];
    assert (u + [e])[0] == u[0] && (u + [e])[1] == e;
    TaskGoes(plan, m, sips, i, Remove, s, e, d, Install);
  }

  lemma InstallingTask(plan: Plan, m: Addr, sips: seq<Addr>, i: nat, s: seq<Event>, e: Event, d: int)
    requires InTask(plan, m, sips, i, Install, s, d)
    requires e.cmd == SentinelMonitor(sips[i], m, Quorum.GetQuorum(plan.sentinels))
    ensures CourseScript(plan, m, AdvanceTask(plan, m, sips, i, Install, e.reply), s + [e])
  {
    hide UpTo;
    hide OptionFrom;
    hide InstalledUpTo;
    hide Quorum.GetQuorum;
    if e.reply.Done? {
      Cut(s, e, d);
      InstallBegins(plan, m, sips[i], s[d..], e);
      OptionHead(plan, m, sips, i, 0, s + [e], d);
    }
  }

  lemma SettingTask(plan: Plan, m: Addr, sips: seq<Addr>, i: nat, j: nat, s: seq<Event>, e: Event, d: int)
    requires InTask(plan, m, sips, i, SetOption(j), s, d) && j < |Settings(plan.password)|
    requires e.cmd == SentinelSet(sips[i], Settings(plan.password)[j].0, Settings(plan.password)[j].1)
    ensures CourseScript(plan, m, AdvanceTask(plan, m, sips, i, SetOption(j), e.reply), s + [e])
  {
    hide UpTo;
    hide OptionFrom;
    hide InstalledUpTo;
    hide Settings;
    if e.reply.Done? {
      Cut(s, e, d);
      InstalledGrows(s[d..], e, plan, m, sips[i], j);
      OptionHead(plan, m, sips, i, j + 1, s + [e], d);
    }
  }

  lemma WatchTask(plan: Plan, m: Addr, sips: seq<Addr>, i: nat, task: Task, s: seq<Event>, e: Event, d: int)
    requires LoopOf(task).Watch? && InTask(plan, m, sips, i, task, s, d) && ActiveTask(plan, task)
    requires e.cmd == TaskCommand(plan, m, sips[i], task)
    ensures CourseScript(plan, m, AdvanceTask(plan, m, sips, i, task, e.reply), s + [e])
  {
    hide InTask;
    hide AdvanceTask;
    hide CourseScript;
    hide MonitorOptions;
    hide Settings;
    assert i < |sips| && 0 <= d <= |s| by { TaskInRange(plan, m, sips, i, task, s, d); }
    match task {
      case CheckMonitor => CheckingTask(plan, m, sips, i, s, e, d);
      case Remove => RemovingTask(plan, m, sips, i, s, e, d);
      case Install => InstallingTask(plan, m, sips, i, s, e, d);
      case SetOption(j) =>
        OptionsAreSettings(plan);
        SettingTask(plan, m, sips, i, j, s, e, d);
    }
  }

  lemma TaskInRange(plan: Plan, m: Addr, sips: seq<Addr>, i: nat, task: Task, s: seq<Event>, d: int)
    requires InTask(plan, m, sips, i, task, s, d)
    ensures i < |sips| && 0 <= d <= |s|
  {
    hide UpTo;
    hide Partial;
  }

  lemma InstallBegins(plan: Plan, m: Addr, sip: Addr, u: seq<Event>, e: Event)
    requires Partial(plan, m, sip, Install, u) && e == Event(SentinelMonitor(sip, m, Quorum.GetQuorum(plan.sentinels)), Done)
    ensures InstalledUpTo(u + [e], plan, m, sip, 0)
  {
    hide Settings;
    assert (u + [e])[0] == u[0] && (u + [e])[1] == u[1] && (u + [e])[2] == e;
  }

  lemma PeersTask(plan: Plan, m: Addr, sips: seq<Addr>, i: nat, task: Task, s: seq<Event>, e: Event, d: int)
    requires LoopOf(task).Peers? && InTask(plan, m, sips, i, task, s, d)
    requires e.cmd == TaskCommand(plan, m, sips[i], task)
    ensures CourseScript(plan, m, AdvanceTask(plan, m, sips, i, task, e.reply), s + [e])
  {
    hide UpTo;
    hide PeersFrom;
    var u := s[d..];
    Cut(s, e, d);
    match task {
      case AskPeers =>
        assert u + [e] == [e];
        if KnowsAll(plan, e.reply) {
          TaskCloses(plan, m, sips, i, task, s, e, d);
          PeersHead(plan, m, sips, i + 1, s + [e]);
        } else {
          TaskGoes(plan, m, sips, i, task, s, e, d, ResetPeers);
        }
      case ResetPeers =>
        if e.reply.Done? {
          assert (u + [e])[0] == u[0] && (u + [e])[1] == e;
          TaskCloses(plan, m, sips, i, task, s, e, d);
          PeersHead(plan, m, sips, i + 1, s + [e]);
        }
    }
  }

  lemma CustomTask(plan: Plan, m: Addr, sips: seq<Addr>, i: nat, j: nat, s: seq<Event>, e: Event, d: int)
    requires InTask(plan, m, sips, i, SetCustom(j), s, d) && ActiveTask(plan, SetCustom(j)) && !plan.checkOnly
    requires e.cmd == TaskCommand(plan, m, sips[i], SetCustom(j))
    ensures CourseScript(plan, m, AdvanceTask(plan, m, sips, i, SetCustom(j), e.reply), s + [e])
  {
    hide UpTo;
    hide CustomFrom;
    hide GetConfigParameters;
    if e.reply.Done? {
      var u := s[d..];
      Cut(s, e, d);
      forall t | 0 <= t < j + 1
        ensures CustomAt(u + [e], plan, sips[i], t)
      {
        assert t < j ==> CustomAt(u, plan, sips[i], t);
      }
      CustomHead(plan, m, sips, i, j + 1, s + [e], d);
    }
  }

  // The loop that restores and waits.

  lemma RoundBegins(plan: Plan, sip: Addr, deadline: int, u: seq<Event>, e: Event)
    requires RestoredUpTo(plan, sip, deadline, u) && InTime(e, deadline)
    ensures InRound(plan, sip, deadline, u + [e], |u|)
  {
    hide RestoredUpTo;
    Cut(u, e, |u|);
  }

  lemma InRoundGrows(plan: Plan, sip: Addr, deadline: int, u: seq<Event>, e: Event, c: int)
    requires InRound(plan, sip, deadline, u, c)
    ensures InRound(plan, sip, deadline, u + [e], c) && 0 <= c < |u| && (u + [e])[c + 1..] == u[c + 1..] + [e]
  {
    hide RestoredUpTo;
    Cut(u, e, c);
    Cut(u, e, c + 1);
  }

  lemma TimerArmed(plan: Plan, sip: Addr, u: seq<Event>, e: Event)
    requires u != [] && u[|u| - 1] == Event(SentinelReset(sip), Done) && Unreported(plan, sip, u[..|u| - 1])
    requires e.cmd == ReadClock && e.reply.TimeIs?
    ensures RestoredUpTo(plan, sip, e.reply.now + 30, u + [e])
  {
    hide Unreported;
    var v, c := u + [e], |u| - 1;
    Cut(u, e, c);
    assert v[..c] == u[..c] && v[c] == u[c] && v[c + 1] == e && v[c + 2..] == [];
    assert RestoredAt(plan, sip, e.reply.now + 30, v, c);
    assert Rounds(plan, sip, e.reply.now + 30, v[c + 2..]);
  }

  lemma RoundIs(plan: Plan, sip: Addr, deadline: int, clock: Event, check: seq<Event>, sleep: Event)
    requires InTime(clock, deadline) && Unreported(plan, sip, check) && sleep.cmd == Sleep(5)
    ensures Round(plan, sip, deadline, [clock] + check + [sleep])
  {
    hide Unreported;
    var s := [clock] + check + [sleep];
    assert s[1..|s| - 1] == check;
  }

  lemma RoundsGrow(plan: Plan, sip: Addr, deadline: int, rounds: seq<Event>, round: seq<Event>)
    requires Rounds(plan, sip, deadline, rounds) && Round(plan, sip, deadline, round)
    ensures Rounds(plan, sip, deadline, rounds + round)
  {
    hide Unreported;
    var s, c := rounds + round, |rounds|;
    assert s[..c] == rounds && s[c..] == round;
  }

  lemma RoundEnds(plan: Plan, sip: Addr, deadline: int, u: seq<Event>, e: Event, c: int)
    requires InRound(plan, sip, deadline, u, c) && Unreported(plan, sip, u[c + 1..]) && e.cmd == Sleep(5)
    ensures RestoredUpTo(plan, sip, deadline, u + [e])
  {
    hide Unreported;
    hide Round;
    hide Rounds;
    var v, before := u + [e], u[..c];
    var b :| RestoredAt(plan, sip, deadline, before, b) && Rounds(plan, sip, deadline, before[b + 2..]);
    RoundIs(plan, sip, deadline, u[c], u[c + 1..], e);
    RoundsGrow(plan, sip, deadline, before[b + 2..], [u[c]] + u[c + 1..] + [e]);
    assert v[b + 2..] == before[b + 2..] + ([u[c]] + u[c + 1..] + [e]);
    assert v[..b] == before[..b] && v[b] == before[b] && v[b + 1] == before[b + 1];
    assert RestoredAt(plan, sip, deadline, v, b);
  }

  lemma AskInfoTask(plan: Plan, m: Addr, sips: seq<Addr>, i: nat, s: seq<Event>, e: Event, d: int)
    requires InTask(plan, m, sips, i, AskInfo, s, d) && e.cmd == SentinelInfo(sips[i])
    ensures TaskScript(plan, m, sips, i, if Ready(e.reply) then AskBlobs else Restore, s + [e])
  {
    hide UpTo;
    hide RestoredUpTo;
    hide TaskScript;
    assert s[d..] + [e] == [e];
    TaskGoes(plan, m, sips, i, AskInfo, s, e, d, if Ready(e.reply) then AskBlobs else Restore);
  }

  lemma AskBlobsTask(plan: Plan, m: Addr, sips: seq<Addr>, i: nat, s: seq<Event>, e: Event, d: int)
    requires InTask(plan, m, sips, i, AskBlobs, s, d) && e.cmd == SentinelSlaves(sips[i])
    ensures if CountsTo(e.reply, plan.size - 1) then UpTo(plan, m, Memory, sips, i + 1, s + [e])
            else TaskScript(plan, m, sips, i, Restore, s + [e])
  {
    hide UpTo;
    hide RestoredUpTo;
    hide InRound;
    hide TaskScript;
    var u := s[d..];
    assert (u + [e])[0] == u[0] && (u + [e])[1] == e;
    if CountsTo(e.reply, plan.size - 1) {
      TaskCloses(plan, m, sips, i, AskBlobs, s, e, d);
    } else {
      TaskGoes(plan, m, sips, i, AskBlobs, s, e, d, Restore);
    }
  }

  lemma AskTask(plan: Plan, m: Addr, sips: seq<Addr>, i: nat, task: Task, s: seq<Event>, e: Event, d: int)
    requires task.AskInfo? || task.AskBlobs?
    requires InTask(plan, m, sips, i, task, s, d) && e.cmd == TaskCommand(plan, m, sips[i], task)
    ensures CourseScript(plan, m, AdvanceTask(plan, m, sips, i, task, e.reply), s + [e])
  {
    hide UpTo;
    hide MemoryFrom;
    hide TaskScript;
    hide Partial;
    if task.AskInfo? {
      AskInfoTask(plan, m, sips, i, s, e, d);
    } else {
      AskBlobsTask(plan, m, sips, i, s, e, d);
      if CountsTo(e.reply, plan.size - 1) {
        MemoryHead(plan, m, sips, i + 1, s + [e]);
      }
    }
  }

  lemma RestoreTask(plan: Plan, m: Addr, sips: seq<Addr>, i: nat, task: Task, s: seq<Event>, e: Event, d: int)
    requires task.Restore? || task.ArmTimer?
    requires InTask(plan, m, sips, i, task, s, d) && e.cmd == TaskCommand(plan, m, sips[i], task)
    ensures CourseScript(plan, m, AdvanceTask(plan, m, sips, i, task, e.reply), s + [e])
  {
    hide UpTo;
    hide MemoryFrom;
    hide RestoredUpTo;
    hide InRound;
    hide TaskScript;
    hide Unreported;
    var u := s[d..];
    Cut(s, e, d);
    Cut(u, e, |u|);
    if task.Restore? {
      if e.reply.Done? {
        TaskGoes(plan, m, sips, i, task, s, e, d, ArmTimer);
      }
    } else if e.reply.TimeIs? {
      TimerArmed(plan, sips[i], u, e);
      TaskGoes(plan, m, sips, i, task, s, e, d, Poll(e.reply.now + TIME_OUT, 0));
    }
  }

  lemma PauseEnds(plan: Plan, m: Addr, sip: Addr, deadline: int, checks: nat, u: seq<Event>, e: Event)
    requires Partial(plan, m, sip, Pause(deadline, checks), u) && e.cmd == Sleep(5)
    ensures RestoredUpTo(plan, sip, deadline, u + [e])
  {
    hide RestoredUpTo;
    hide Unreported;
    var c :| InRound(plan, sip, deadline, u, c) && Unreported(plan, sip, u[c + 1..]);
    RoundEnds(plan, sip, deadline, u, e, c);
  }

  lemma WaitInfoTask(plan: Plan, m: Addr, sips: seq<Addr>, i: nat, deadline: int, checks: nat, s: seq<Event>, e: Event, d: int)
    requires InTask(plan, m, sips, i, WaitInfo(deadline, checks), s, d) && e.cmd == SentinelInfo(sips[i])
    ensures TaskScript(plan, m, sips, i, if Ready(e.reply) then WaitBlobs(deadline, checks) else Pause(deadline, checks), s + [e])
  {
    hide UpTo;
    hide InRound;
    hide TaskScript;
    var u := s[d..];
    var c := |u| - 1;
    InRoundGrows(plan, sips[i], deadline, u, e, c);
    assert (u + [e])[c + 1..] == [e] && (u + [e])[|u + [e]| - 1] == e;
    TaskGoes(plan, m, sips, i, WaitInfo(deadline, checks), s, e, d,
             if Ready(e.reply) then WaitBlobs(deadline, checks) else Pause(deadline, checks));
  }

  lemma WaitBlobsTask(plan: Plan, m: Addr, sips: seq<Addr>, i: nat, deadline: int, checks: nat, s: seq<Event>, e: Event, d: int)
    requires InTask(plan, m, sips, i, WaitBlobs(deadline, checks), s, d) && e.cmd == SentinelSlaves(sips[i])
    ensures if CountsTo(e.reply, plan.size - 1) then UpTo(plan, m, Memory, sips, i + 1, s + [e])
            else TaskScript(plan, m, sips, i, Pause(deadline, checks), s + [e])
  {
    hide UpTo;
    hide InRound;
    hide TaskScript;
    var u := s[d..];
    var c := |u| - 2;
    InRoundGrows(plan, sips[i], deadline, u, e, c);
    assert u[c + 1..] == [u[c + 1]];
    assert (u + [e])[c + 1..] == [u[c + 1], e];
    if CountsTo(e.reply, plan.size - 1) {
      TaskCloses(plan, m, sips, i, WaitBlobs(deadline, checks), s, e, d);
    } else {
      TaskGoes(plan, m, sips, i, WaitBlobs(deadline, checks), s, e, d, Pause(deadline, checks));
    }
  }

  lemma PollTask(plan: Plan, m: Addr, sips: seq<Addr>, i: nat, deadline: int, checks: nat, s: seq<Event>, e: Event, d: int)
    requires InTask(plan, m, sips, i, Poll(deadline, checks), s, d) && InTime(e, deadline)
    ensures TaskScript(plan, m, sips, i, WaitInfo(deadline, checks + 1), s + [e])
  {
    hide UpTo;
    hide RestoredUpTo;
    hide InRound;
    hide TaskScript;
    RoundBegins(plan, sips[i], deadline, s[d..], e);
    TaskGoes(plan, m, sips, i, Poll(deadline, checks), s, e, d, WaitInfo(deadline, checks + 1));
  }

  lemma PauseTask(plan: Plan, m: Addr, sips: seq<Addr>, i: nat, deadline: int, checks: nat, s: seq<Event>, e: Event, d: int)
    requires InTask(plan, m, sips, i, Pause(deadline, checks), s, d) && e.cmd == Sleep(5)
    ensures TaskScript(plan, m, sips, i, Poll(deadline, checks), s + [e])
  {
    hide UpTo;
    hide RestoredUpTo;
    hide InRound;
    hide TaskScript;
    PauseEnds(plan, m, sips[i], deadline, checks, s[d..], e);
    TaskGoes(plan, m, sips, i, Pause(deadline, checks), s, e, d, Poll(deadline, checks));
  }

  lemma WaitTask(plan: Plan, m: Addr, sips: seq<Addr>, i: nat, task: Task, s: seq<Event>, e: Event, d: int)
    requires task.Poll? || task.WaitInfo? || task.WaitBlobs? || task.Pause?
    requires InTask(plan, m, sips, i, task, s, d) && e.cmd == TaskCommand(plan, m, sips[i], task)
    ensures CourseScript(plan, m, AdvanceTask(plan, m, sips, i, task, e.reply), s + [e])
  {
    hide UpTo;
    hide MemoryFrom;
    hide TaskScript;
    hide Partial;
    match task {
      case Poll(deadline, checks) =>
        if InTime(e, deadline) {
          PollTask(plan, m, sips, i, deadline, checks, s, e, d);
        }
      case WaitInfo(deadline, checks) => WaitInfoTask(plan, m, sips, i, deadline, checks, s, e, d);
      case WaitBlobs(deadline, checks) =>
        WaitBlobsTask(plan, m, sips, i, deadline, checks, s, e, d);
        if CountsTo(e.reply, plan.size - 1) {
          MemoryHead(plan, m, sips, i + 1, s + [e]);
        }
      case Pause(deadline, checks) => PauseTask(plan, m, sips, i, deadline, checks, s, e, d);
    }
  }

  // ---------------------------------------------------------------- any step

  lemma TaskFollows(plan: Plan, m: Addr, sips: seq<Addr>, i: nat, task: Task, s: seq<Event>, e: Event)
    requires ActiveTask(plan, task) && TaskScript(plan, m, sips, i, task, s)
    requires e.cmd == TaskCommand(plan, m, sips[i], task)
    ensures CourseScript(plan, m, AdvanceTask(plan, m, sips, i, task, e.reply), s + [e])
  {
    hide InTask;
    hide CourseScript;
    hide AdvanceTask;
    hide TaskCommand;
    hide ActiveTask;
    var d :| InTask(plan, m, sips, i, task, s, d);
    match LoopOf(task) {
      case Watch => WatchTask(plan, m, sips, i, task, s, e, d);
      case Peers => PeersTask(plan, m, sips, i, task, s, e, d);
      case Custom => CustomTask(plan, m, sips, i, task.j, s, e, d);
      case Memory =>
        if task.AskInfo? || task.AskBlobs? {
          AskTask(plan, m, sips, i, task, s, e, d);
        } else if task.Restore? || task.ArmTimer? {
          RestoreTask(plan, m, sips, i, task, s, e, d);
        } else {
          WaitTask(plan, m, sips, i, task, s, e, d);
        }
    }
  }

  lemma ListingFollows(plan: Plan, m: Addr, s: seq<Event>, e: Event)
    requires StepScript(plan, m, SentinelList, s) && e.cmd == ListSentinels && e.reply.SentinelsAre?
    ensures CourseScript(plan, m, MonitorFrom(plan, RunningSentinelIPs(e.reply.sentinels), 0), s + [e])
  {
    hide UpTo;
    hide MonitorFrom;
    hide RunningSentinelIPs;
    Cut(s, e, |s|);
    var sips := RunningSentinelIPs(e.reply.sentinels);
    assert Opening(plan, m, Watch, sips, s + [e]);
    LoopBegins(plan, m, Watch, sips, s + [e]);
    WatchHead(plan, m, sips, 0, s + [e]);
  }

  lemma CheckFollows(plan: Plan, m: Addr, ips: seq<Addr>, i: nat, s: seq<Event>, e: Event)
    requires i < |ips| && CheckUpTo(s, m, ips, i) && e.cmd == InfoReplication(ips[i])
    ensures StepScript(plan, m, if FollowsOnly(e.reply, m) then CheckSlavesFrom(ips, i + 1) else RepointList, s + [e])
  {
    hide CheckUpTo;
    hide CheckBroken;
    if NoOtherMaster(e.reply, m) {
      CheckGrows(s, e, m, ips, i);
    } else {
      CheckBreaks(s, e, m, ips, i);
    }
  }

  lemma SlavesFollow(plan: Plan, m: Addr, step: Step, s: seq<Event>, e: Event)
    requires ActiveStep(plan, step) && (step.SlavesList? || step.CheckingSlaves? || step.RepointList? || step.Repointing?)
    requires StepScript(plan, m, step, s) && e.cmd == StepCommand(plan, m, step)
    ensures CourseScript(plan, m, AdvanceStep(plan, m, step, e.reply), s + [e])
  {
    hide CheckBroken;
    hide RepointUpTo;
    hide RunningIPs;
    match step {
      case SlavesList =>
        assert s + [e] == [e];
        FirstListing(plan, m, e);
      case CheckingSlaves(ips, i) =>
        hide CheckUpTo;
        CheckFollows(plan, m, ips, i, s, e);
      case RepointList =>
        if e.reply.PodsAre? {
          RepointBegins(s, e, m);
          RepointHead(plan, s + [e], m, e.reply.pods, 0, |s|);
        }
      case Repointing(items, i) =>
        if e.reply.Done? {
          var c :| InRepoint(s, m, items, i, c);
          RepointGrows(s, e, m, items, i, c);
          RepointHead(plan, s + [e], m, items, i + 1, c);
        }
    }
  }

  lemma FirstListing(plan: Plan, m: Addr, e: Event)
    requires e.cmd == ListPods
    ensures StepScript(plan, m, if e.reply.PodsAre? then CheckSlavesFrom(RunningIPs(e.reply.pods), 0) else RepointList, [e])
  {
    hide RunningIPs;
    if e.reply.PodsAre? {
      assert CheckUpTo([e], m, RunningIPs(e.reply.pods), 0);
    }
  }

  lemma NodeFollows(plan: Plan, m: Addr, ips: seq<Addr>, i: nat, s: seq<Event>, e: Event, op': Op)
    requires i < |ips| && Advances(plan, Settled(m, ReadingConfig(ips, i)), e.reply, op')
    requires e.cmd == ConfigGet(ips[i]) && UpTo(plan, m, Nodes, ips, i, s)
    ensures OpScript(plan, m, op', s + [e])
  {
    hide UpTo;
    hide NodeConfig.Matches;
    hide ConfigFrom;
    hide WriteFrom;
    hide StepScript;
    hide AdvanceTask;
    if e.reply.ConfigIs? && NodeConfig.Matches(plan.config, e.reply.config) {
      NodeMatches(plan, m, ips, i, s, e);
    } else {
      var keys :| Lists(keys, plan.config.Keys) && op' == Settled(m, WriteFrom(ips, i, keys, 0));
      NodeDiffers(plan, m, ips, i, s, e, keys);
    }
  }

  lemma KeyFollows(plan: Plan, m: Addr, ips: seq<Addr>, i: nat, keys: seq<string>, j: nat, s: seq<Event>, e: Event)
    requires ActiveStep(plan, WritingConfig(ips, i, keys, j)) && StepScript(plan, m, WritingConfig(ips, i, keys, j), s)
    requires e.cmd == ConfigSet(ips[i], keys[j], plan.config[keys[j]])
    ensures CourseScript(plan, m, if e.reply.Done? then Go(WriteFrom(ips, i, keys, j + 1)) else Stop(Broken), s + [e])
  {
    hide InWriting;
    hide WriteFrom;
    if e.reply.Done? {
      var d :| InWriting(plan, m, ips, i, keys, j, s, d);
      hide StepScript;
      WritingGrows(plan, m, ips, i, keys, j, s, e, d);
    }
  }

  lemma ConfigListFollows(plan: Plan, m: Addr, s: seq<Event>, e: Event)
    requires StepScript(plan, m, ConfigList, s) && e.cmd == ListPods
    ensures CourseScript(plan, m, if e.reply.PodsAre? then Go(ConfigFrom(RunningIPs(e.reply.pods), 0)) else Stop(Broken), s + [e])
  {
    hide Slaves;
    hide RunningIPs;
    hide ConfigFrom;
    if e.reply.PodsAre? {
      NodesBegin(plan, m, s, e);
    }
  }

  lemma ConfigFollows(plan: Plan, m: Addr, step: Step, s: seq<Event>, e: Event, op': Op)
    requires ActiveStep(plan, step) && (step.ConfigList? || step.ReadingConfig? || step.WritingConfig?)
    requires e.cmd == StepCommand(plan, m, step) && Advances(plan, Settled(m, step), e.reply, op')
    requires StepScript(plan, m, step, s)
    ensures OpScript(plan, m, op', s + [e])
  {
    hide UpTo;
    hide RunningIPs;
    hide ConfigFrom;
    hide WriteFrom;
    hide CourseScript;
    hide OpScript;
    hide NodeConfig.Matches;
    match step {
      case ConfigList =>
        hide StepScript;
        ConfigListFollows(plan, m, s, e);
        CourseIsOp(plan, m, if e.reply.PodsAre? then Go(ConfigFrom(RunningIPs(e.reply.pods), 0)) else Stop(Broken), s + [e]);
      case ReadingConfig(ips, i) =>
        hide Advances;
        NodeFollows(plan, m, ips, i, s, e, op');
      case WritingConfig(ips, i, keys, j) =>
        hide StepScript;
        KeyFollows(plan, m, ips, i, keys, j, s, e);
        CourseIsOp(plan, m, if e.reply.Done? then Go(WriteFrom(ips, i, keys, j + 1)) else Stop(Broken), s + [e]);
    }
  }

  lemma StepFollows(plan: Plan, m: Addr, step: Step, s: seq<Event>, e: Event, op': Op)
    requires ActiveStep(plan, step) && e.cmd == StepCommand(plan, m, step)
    requires Advances(plan, Settled(m, step), e.reply, op')
    requires StepScript(plan, m, step, s)
    ensures OpScript(plan, m, op', s + [e])
  {
    hide StepScript;
    hide OpScript;
    hide CourseScript;
    hide StepCommand;
    hide AdvanceStep;
    if step.ConfigList? || step.ReadingConfig? || step.WritingConfig? {
      hide Advances;
      ConfigFollows(plan, m, step, s, e, op');
    } else {
      CourseIsOp(plan, m, AdvanceStep(plan, m, step, e.reply), s + [e]);
      if step.SlavesList? || step.CheckingSlaves? || step.RepointList? || step.Repointing? {
        SlavesFollow(plan, m, step, s, e);
      } else {
        LateFollows(plan, m, step, s, e);
      }
    }
  }

  lemma LateFollows(plan: Plan, m: Addr, step: Step, s: seq<Event>, e: Event)
    requires step.SentinelList? || step.AtSentinel? || step.ReadyCheck?
    requires ActiveStep(plan, step) && StepScript(plan, m, step, s) && e.cmd == StepCommand(plan, m, step)
    ensures CourseScript(plan, m, AdvanceStep(plan, m, step, e.reply), s + [e])
  {
    hide UpTo;
    hide TaskScript;
    hide AdvanceTask;
    hide TaskCommand;
    hide MonitorFrom;
    hide RunningSentinelIPs;
    match step {
      case SentinelList =>
        if e.reply.SentinelsAre? {
          ListingFollows(plan, m, s, e);
        }
      case AtSentinel(sips, i, task) =>
        TaskFollows(plan, m, sips, i, task, s, e);
      case ReadyCheck(sips) =>
        Cut(s, e, |s|);
    }
  }

  // ---------------------------------------------------------------- runs

  ghost predicate FromScan(plan: Plan, m: Addr, op: Op, log: seq<Event>, p: int) {
    0 <= p <= |log| && Located(log, p, m) && OpScript(plan, m, op, log[p..])
  }

  ghost predicate Scripted(plan: Plan, op: Op, log: seq<Event>) {
    match op
    case Settled(m, step) => exists p :: FromScan(plan, m, op, log, p)
    case Finished(outcome) => outcome == Healthy ==> exists p, m :: FromScan(plan, m, op, log, p)
    case _ => true
  }

  lemma SettledFollows(plan: Plan, m: Addr, step: Step, log: seq<Event>, e: Event, op': Op, p: int)
    requires ActiveStep(plan, step) && e.cmd == StepCommand(plan, m, step)
    requires Advances(plan, Settled(m, step), e.reply, op')
    requires FromScan(plan, m, Settled(m, step), log, p)
    ensures Scripted(plan, op', log + [e])
  {
    hide StepScript;
    hide Located;
    hide Advances;
    hide StepCommand;
    hide ActiveStep;
    hide Script;
    Cut(log, e, p);
    LocatedGrows(log, e, p, m);
    StepFollows(plan, m, step, log[p..], e, op');
    assert FromScan(plan, m, op', log + [e], p);
  }

  /** The point after the scan that settles a pass. */
  lemma SettlingFollows(plan: Plan, op': Op, log: seq<Event>)
    requires Logged(op', log) && op'.Settled? && op'.step.SlavesList?
    ensures Scripted(plan, op', log)
  {
    hide Located;
    hide Scanned;
    assert log[|log|..] == [];
    assert FromScan(plan, op'.m, op', log, |log|);
  }

  lemma EarlierSettles(plan: Plan, op: Op, r: Reply, op': Op)
    requires Active(plan, op) && !op.Settled? && Advances(plan, op, r, op')
    ensures op'.Settled? ==> op'.step.SlavesList?
    ensures op' != Finished(Healthy)
  {
    hide RunningIPs;
    hide NodeConfig.Matches;
  }

  lemma OpFollows(s: Sys, fate: Fate, r: Reply, s': Sys)
    requires Logged(s.op, s.log) && Scripted(s.plan, s.op, s.log) && OpStep(s, fate, r, s')
    ensures Scripted(s'.plan, s'.op, s'.log)
  {
    hide Happens;
    hide Logged;
    hide FromScan;
    hide Advances;
    hide StepCommand;
    hide ActiveStep;
    OpLogged(s, fate, r, s');
    if s.op.Settled? {
      var p :| FromScan(s.plan, s.op.m, s.op, s.log, p);
      SettledFollows(s.plan, s.op.m, s.op.step, s.log, Event(NextCommand(s.plan, s.op), r), s'.op, p);
    } else {
      EarlierSettles(s.plan, s.op, r, s'.op);
      if s'.op.Settled? {
        SettlingFollows(s.plan, s'.op, s'.log);
      }
    }
  }

  lemma {:induction false} ScriptedHolds(run: seq<Sys>, k: nat)
    requires IsRun(run) && run[0].op.Idle? && k < |run|
    ensures Scripted(run[k].plan, run[k].op, run[k].log)
  {
    hide OpStep;
    hide EnvStep;
    hide FromScan;
    if k > 0 {
      ScriptedHolds(run, k - 1);
      LoggedHolds(run, k - 1);
      var s, s' := run[k - 1], run[k];
      if !WorldStep(s, s') && !BeginPass(s, s') {
        var fate, r :| OpStep(s, fate, r, s');
        OpFollows(s, fate, r, s');
      }
    }
  }

  /**
   * In every run, with any losses, crashes and restarts: what a pass that ends well has sent and
   * was answered, from the scan that found m to be the only master to the end, is the script.
   * Every running pod was checked, or every listed pod told whom to follow; every node was read
   * and, if it differed, fully written; every listed sentinel was made to watch m with all the
   * settings, reported its replicas, within thirty seconds of its reset if it had one, was asked
   * for its peers and reset if it miscounted, and was given the custom settings.
   */
  lemma GoodPassFollowsScript(run: seq<Sys>, k: nat) returns (p: nat, m: Addr)
    requires IsRun(run) && run[0].op.Idle? && k < |run| && run[k].op == Finished(Healthy)
    ensures p <= |run[k].log| && Located(run[k].log, p, m) && Script(run[k].plan, m, run[k].log[p..])
  {
    hide Next;
    hide Located;
    hide Script;
    ScriptedHolds(run, k);
    p, m :| FromScan(run[k].plan, m, run[k].op, run[k].log, p);
  }
}
