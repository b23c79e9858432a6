/**
 * Every command brings a pass that nobody hinders nearer to its end, and such a pass exists from
 * every fit state: a clean pass that ends well is there to be had.
 */
module HealTermination {
  import opened Basics
  import opened Cluster
  import opened HealMachine
  import opened HealClean
  import opened HealStable
  import opened HealProgress
  import NodeConfig
  import SentinelMemory
  import Sorting

  // ---------------------------------------------------------------- how far there is to go

  /** Parts of a pass, in the order they are passed through. */
  function Part(op: Op): nat {
    match op
    case Idle => 0
    case Finished(_) => 0
    case RedisNumber => 30
    case SentinelNumber => 29
    case CountList => 28
    case Counting(_, _, _) => 27
    case SoleList => 26
    case PromoteSole(_) => 25
    case AgeList => 24
    case OldestList => 23
    case Promoting(_, _, _) => 22
    case MasterList => 21
    case Locating(_, _, _) => 20
    case Settled(_, step) => PartOf(step)
  }

  function PartOf(step: Step): nat {
    match step
    case SlavesList => 19
    case CheckingSlaves(_, _) => 18
    case RepointList => 17
    case Repointing(_, _) => 16
    case ConfigList => 15
    case ReadingConfig(_, _) => 14
    case WritingConfig(_, _, _, _) => 14
    case SentinelList => 13
    case AtSentinel(_, _, task) => PartOfTask(task)
    case ReadyCheck(_) => 1
  }

  function PartOfTask(task: Task): nat {
    if task.CheckMonitor? || task.Remove? || task.Install? || task.SetOption? then 12
    else if task.AskPeers? || task.ResetPeers? then 10
    else if task.SetCustom? then 9
    else 11
  }

  function Rest(n: int, i: int): nat {
    if i < n then n - i else 0
  }

  /** Elements of the part's loop still to come, the present one included. */
  function Left(op: Op): nat {
    match op
    case Counting(ips, i, _) => Rest(|ips|, i)
    case Promoting(items, i, _) => Rest(|items|, i)
    case Locating(ips, i, _) => Rest(|ips|, i)
    case Settled(_, step) => LeftOf(step)
    case _ => 0
  }

  function LeftOf(step: Step): nat {
    match step
    case CheckingSlaves(ips, i) => Rest(|ips|, i)
    case Repointing(items, i) => Rest(|items|, i)
    case ReadingConfig(ips, i) => Rest(|ips|, i)
    case WritingConfig(ips, i, _, _) => Rest(|ips|, i)
    case AtSentinel(sips, i, _) => Rest(|sips|, i)
    case _ => 0
  }

  /** Points still to come for the present element. */
  function Phase(op: Op): nat {
    if !op.Settled? then 0
    else
      match op.step
      case ReadingConfig(_, _) => 1
      case AtSentinel(_, _, task) =>
        (match task
         case CheckMonitor => 3
         case Remove => 2
         case Install => 1
         case AskInfo => 1
         case AskPeers => 1
         case _ => 0)
      case _ => 0
  }

  /** Settings still to be written at that point. */
  function Inner(plan: Plan, op: Op): nat {
    if !op.Settled? then 0
    else
      match op.step
      case WritingConfig(_, _, keys, j) => Rest(|keys|, j)
      case AtSentinel(_, _, task) =>
        if task.SetOption? then Rest(|MonitorOptions(plan)|, task.j)
        else if task.SetCustom? then Rest(|plan.customConfig|, task.j)
        else 0
      case _ => 0
  }

  ghost predicate Nearer(plan: Plan, op': Op, op: Op) {
    || Part(op') < Part(op)
    || (Part(op') == Part(op)
        && (|| Left(op') < Left(op)
            || (Left(op') == Left(op)
                && (Phase(op') < Phase(op) || (Phase(op') == Phase(op) && Inner(plan, op') < Inner(plan, op))))))
  }

  lemma TaskNearer(plan: Plan, m: Addr, sips: seq<Addr>, i: nat, task: Task, r: Reply)
    requires i < |sips| && ActiveTask(plan, task) && !Waiting(task)
    requires task.AskInfo? ==> r.InfoIs? && r.statusOk
    requires task.AskBlobs? ==> CountOf(r) == Some(plan.size - 1)
    ensures Nearer(plan, Follow(m, AdvanceTask(plan, m, sips, i, task, r)), Settled(m, AtSentinel(sips, i, task)))
  {
    hide CustomFrom;
    hide MonitorOptions;
  }

  lemma StepNearer(plan: Plan, m: Addr, step: Step, r: Reply, op': Op)
    requires ActiveStep(plan, step) && Advances(plan, Settled(m, step), r, op')
    requires step.AtSentinel? ==> !Waiting(step.task) && Obliges(plan, StepCommand(plan, m, step), r)
    ensures Nearer(plan, op', Settled(m, step))
  {
    hide RunningIPs;
    hide RunningSentinelIPs;
    hide NodeConfig.Matches;
    hide CustomFrom;
    hide MonitorOptions;
    if step.AtSentinel? {
      hide Advances;
      hide Nearer;
      TaskObliged(plan, m, step, r, op');
      hide AdvanceTask;
      TaskNearer(plan, m, step.sips, step.i, step.task, r);
    } else {
      hide AdvanceTask;
    }
  }

  lemma TaskObliged(plan: Plan, m: Addr, step: Step, r: Reply, op': Op)
    requires ActiveStep(plan, step) && step.AtSentinel? && Advances(plan, Settled(m, step), r, op')
    requires Obliges(plan, StepCommand(plan, m, step), r)
    ensures op' == Follow(m, AdvanceTask(plan, m, step.sips, step.i, step.task, r))
    ensures step.task.AskInfo? ==> r.InfoIs? && r.statusOk
    ensures step.task.AskBlobs? ==> CountOf(r) == Some(plan.size - 1)
  {
    hide AdvanceTask;
    hide MonitorOptions;
    hide GetConfigParameters;
  }

  /** In a pass that nobody hinders every answer leads nearer to the end. */
  lemma ObligingStepsNearer(s: Sys, r: Reply, s': Sys)
    requires TrackInv(s) && ObligingStep(s, r, s')
    ensures Nearer(s'.plan, s'.op, s.op)
  {
    hide Serves;
    hide CleanInv;
    hide Fit;
    OpNearer(s.world, s.plan, s.op, r, s'.op);
  }

  lemma OpNearer(w: World, plan: Plan, op: Op, r: Reply, op': Op)
    requires Active(plan, op) && OnTrack(w, plan, op) && Advances(plan, op, r, op') && Obliges(plan, NextCommand(plan, op), r)
    ensures Nearer(plan, op', op)
  {
    hide RunningIPs;
    hide NodeConfig.Matches;
    hide Census;
    hide Everybody;
    hide AllSentinelsReachable;
    if op.Settled? {
      hide Advances;
      hide Nearer;
      StepNearer(plan, op.m, op.step, r, op');
    } else {
      hide AdvanceStep;
    }
  }

  // ---------------------------------------------------------------- every command can be answered well

  lemma {:induction false} Enumerated<T>(s: set<T>) returns (order: seq<T>)
    ensures Lists(order, s)
    decreases |s|
  {
    if s == {} {
      order := [];
    } else {
      var x :| x in s;
      var rest := Enumerated(s - {x});
      order := [x] + rest;
      forall y | y in s
        ensures y in order
      {
        if y != x {
          assert y in rest;
        }
      }
    }
  }

  lemma PodsListed(w: World) returns (items: seq<PodView>)
    ensures ListsPods(items, w)
  {
    var order := Enumerated(w.pods.Keys);
    items := seq(|order|, k requires 0 <= k < |order| => ViewOf(order[k], w.pods[order[k]]));
    forall id | id in w.pods
      ensures ViewOf(id, w.pods[id]) in items
    {
      assert id in order;
      var k :| 0 <= k < |order| && order[k] == id;
      assert items[k] == ViewOf(id, w.pods[id]);
    }
  }

  lemma SentinelsListed(w: World) returns (items: seq<SentinelView>)
    ensures ListsSentinels(items, w)
  {
    var order := Enumerated(w.sentinels.Keys);
    items := seq(|order|, k requires 0 <= k < |order| => SentinelViewOf(order[k], w.sentinels[order[k]]));
    forall id | id in w.sentinels
      ensures SentinelViewOf(id, w.sentinels[id]) in items
    {
      assert id in order;
      var k :| 0 <= k < |order| && order[k] == id;
      assert items[k] == SentinelViewOf(id, w.sentinels[id]);
    }
  }

  /** What gossip has to have taught: as many eligible replicas as there are, and some peers. */
  function Told(plan: Plan, peers: Option<int>, s: Sentinel): Sentinel {
    s.(statusOk := true, peers := peers, blobs := seq(Rest(plan.size, 1), k => []))
  }

  function Informed(plan: Plan, peers: Option<int>, w: World): World {
    w.(sentinels := map id | id in w.sentinels :: Told(plan, peers, w.sentinels[id]))
  }

  lemma InformedIsQuiet(plan: Plan, peers: Option<int>, w: World)
    ensures QuietStep(w, Informed(plan, peers, w))
  {
  }

  lemma {:induction false} AllEligible(blobs: seq<SentinelMemory.Blob>)
    requires forall k :: 0 <= k < |blobs| ==> blobs[k] == []
    ensures SentinelMemory.CountEligible(blobs) == |blobs|
  {
    if blobs != [] {
      AllEligible(blobs[..|blobs| - 1]);
    }
  }

  /** The sentinels know what they should, and monitor something when they are asked about it. */
  ghost predicate Knowing(w: World, plan: Plan, peers: Option<int>, cmd: Command) {
    && (forall id :: id in w.sentinels ==> w.sentinels[id] == Told(plan, peers, w.sentinels[id]))
    && (ToSentinel(cmd) ==> SentinelReachable(w, cmd.sip))
    && (cmd.SentinelSlaves? || cmd.SentinelSet? ==> forall id :: SentinelRunsAt(w, id, cmd.sip) ==> w.sentinels[id].monitored.Some?)
    && (cmd.ConfigSet? ==> Reachable(w, cmd.ip) && NodeConfig.Normal(cmd.key, cmd.value).Success?)
    && plan.size >= 1
  }

  /** Who is asked about the peers tells what gossip has taught. */
  predicate Tells(cmd: Command, r: Reply, peers: Option<int>) {
    cmd.SentinelInfo? ==> r == InfoIs(true, peers)
  }

  lemma SentinelAnswered(w: World, plan: Plan, peers: Option<int>, cmd: Command) returns (w': World, r: Reply)
    requires ToSentinel(cmd) && Knowing(w, plan, peers, cmd)
    ensures Serves(w, cmd, w', r) && Obliges(plan, cmd, r) && Tells(cmd, r, peers)
  {
    var id :| SentinelRunsAt(w, id, cmd.sip);
    var s := w.sentinels[id];
    assert s == Told(plan, peers, s);
    match cmd
    case SentinelMaster(_) => w', r := w, if s.monitored.Some? then MonitorIs(s.monitored.value) else Failed; Same(w, id);
    case SentinelRemove(_) => w', r := WithSentinel(w, id, Removed(s)), if s.monitored.Some? then Done else Failed;
    case SentinelMonitor(_, host, _) =>
      if s.monitored.Some? {
        w', r := w, Failed;
        Same(w, id);
      } else {
        w', r := WithSentinel(w, id, Monitoring(s, host)), Done;
      }
    case SentinelSet(_, param, setting) => w', r := WithSentinel(w, id, s.(options := s.options[param := setting])), Done;
    case SentinelInfo(_) => w', r := w, InfoIs(s.statusOk, s.peers); Same(w, id);
    case SentinelSlaves(_) => w', r := w, BlobsAre(s.blobs); Same(w, id); AllEligible(s.blobs);
    case SentinelReset(_) => w', r := WithSentinel(w, id, Forgetful(s)), Done;
  }

  lemma Same(w: World, id: PodId)
    requires id in w.sentinels
    ensures WithSentinel(w, id, w.sentinels[id]) == w
  {
    assert w.sentinels[id := w.sentinels[id]] == w.sentinels;
  }

  lemma SettingAnswered(w: World, ip: Addr, key: string, value: string) returns (w': World, r: Reply)
    requires Reachable(w, ip) && NodeConfig.Normal(key, value).Success?
    ensures Serves(w, ConfigSet(ip, key, value), w', r) && r == Done
  {
    hide NodeConfig.Normal;
    var id :| id in w.pods && Answers(w.pods[id], ip);
    assert RunsAt(w, id, ip);
    w', r := WithConfig(w, id, NodeConfig.Set(w.pods[id].config, key, value).value), Done;
  }

  lemma Answered(w: World, plan: Plan, peers: Option<int>, cmd: Command) returns (w': World, r: Reply)
    requires Knowing(w, plan, peers, cmd)
    ensures Serves(w, cmd, w', r) && Obliges(plan, cmd, r) && Tells(cmd, r, peers)
  {
    hide ListsPods;
    hide ListsSentinels;
    hide NodeConfig.Set;
    hide NodeConfig.Normal;
    w' := w;
    if ToSentinel(cmd) {
      hide Serves;
      w', r := SentinelAnswered(w, plan, peers, cmd);
    } else {
      match cmd
      case GetRedisSet => r := SetIs(w.redisSet);
      case GetSentinelSet => r := SetIs(w.sentinelSet);
      case ListPods =>
        var items := PodsListed(w);
        r := PodsAre(items);
      case ListSentinels =>
        var items := SentinelsListed(w);
        r := SentinelsAre(items);
      case InfoReplication(ip) =>
        r := Failed;
        if Reachable(w, ip) {
          var id :| id in w.pods && Answers(w.pods[id], ip);
          assert RunsAt(w, id, ip);
          r := RoleIs(w.pods[id].role);
        }
      case ConfigGet(ip) =>
        r := Failed;
        if Reachable(w, ip) {
          var id :| id in w.pods && Answers(w.pods[id], ip);
          assert RunsAt(w, id, ip);
          r := ConfigIs(w.pods[id].config);
        }
      case SlaveOfNoOne(ip) =>
        w', r := if Reachable(w, ip) then WithRole(w, ip, Master) else w, if Reachable(w, ip) then Done else Failed;
      case SlaveOfHost(ip, host) =>
        w', r := if Reachable(w, ip) then WithRole(w, ip, SlaveOf(host)) else w, if Reachable(w, ip) then Done else Failed;
      case ConfigSet(ip, key, value) => w', r := SettingAnswered(w, ip, key, value);
      case ReadClock => r := TimeIs(w.now);
      case Sleep(span) => w', r := w.(now := w.now + span), Done;
    }
  }

  /** Where an answer leads, with some choice where there is one. */
  lemma Led(plan: Plan, op: Op, r: Reply) returns (op': Op)
    requires Active(plan, op)
    ensures Advances(plan, op, r, op')
  {
    hide NodeConfig.Matches;
    hide AdvanceStep;
    op' := Advance(plan, op, r);
    if op.OldestList? && r.PodsAre? && r.pods != [] {
      Sorting.SortSorts(r.pods, Created);
      Sorting.PermutationFacts(Sorting.Sort(r.pods, Created), r.pods);
    } else if op.Settled? && op.step.ReadingConfig? && !(r.ConfigIs? && NodeConfig.Matches(plan.config, r.config)) {
      var keys := Enumerated(plan.config.Keys);
      op' := Settled(op.m, WriteFrom(op.step.ips, op.step.i, keys, 0));
    }
  }

  // ---------------------------------------------------------------- a pass that ends well exists

  lemma LedIsActive(plan: Plan, op: Op, r: Reply, op': Op)
    requires Active(plan, op) && Advances(plan, op, r, op')
    ensures Active(plan, op') || op'.Finished?
  {
    hide AdvanceStep;
    hide RunningIPs;
    hide NodeConfig.Matches;
    if op.OldestList? && r.PodsAre? && r.pods != [] {
      Sorting.PermutationFacts(r.pods, op'.items);
    } else if op.Settled? && op.step.ReadingConfig? && !(r.ConfigIs? && NodeConfig.Matches(plan.config, r.config)) {
      var keys :| Lists(keys, plan.config.Keys) && op' == Settled(op.m, WriteFrom(op.step.ips, op.step.i, keys, 0));
      hide Advances;
    } else {
      AlwaysANextPoint(plan, op, r);
    }
  }

  lemma TaskKnowing(w: World, plan: Plan, peers: Option<int>, m: Addr, sips: seq<Addr>, i: nat, task: Task)
    requires i < |sips| && ActiveTask(plan, task) && plan.size >= 1
    requires StepOnTrack(w, plan, AtSentinel(sips, i, task)) && Achieved(w, plan.config, m, AtSentinel(sips, i, task))
    requires forall id :: id in w.sentinels ==> w.sentinels[id] == Told(plan, peers, w.sentinels[id])
    ensures Knowing(w, plan, peers, TaskCommand(plan, m, sips[i], task))
  {
    hide AllConfigured;
    hide MonitorOptions;
    hide GetConfigParameters;
    assert SentinelReachable(w, sips[i]);
    forall id | SentinelRunsAt(w, id, sips[i]) && (task.SetOption? || task.AskBlobs? || task.SetCustom?)
      ensures w.sentinels[id].monitored.Some?
    {
      assert SentinelRuns(w, id);
      assert Before(sips[i], sips, i + 1);
    }
  }

  lemma NextIsKnowing(w: World, plan: Plan, peers: Option<int>, op: Op)
    requires Active(plan, op) && OnTrack(w, plan, op) && CleanFacts(w, plan, op)
    requires plan.size >= 1 && NodeConfig.Readable(plan.config)
    requires forall id :: id in w.sentinels ==> w.sentinels[id] == Told(plan, peers, w.sentinels[id])
    ensures Knowing(w, plan, peers, NextCommand(plan, op))
  {
    hide NodeConfig.Normal;
    hide AllSentinelsReachable;
    hide Achieved;
    hide TaskCommand;
    hide Census;
    hide Everybody;
    if op.Settled? && op.step.AtSentinel? {
      hide Knowing;
      TaskKnowing(w, plan, peers, op.m, op.step.sips, op.step.i, op.step.task);
    }
  }

  ghost predicate AllTell(log: seq<Event>, peers: Option<int>) {
    forall e :: e in log ==> Tells(e.cmd, e.reply, peers)
  }

  /** One more answer, after gossip has told the sentinels what they should know. */
  lemma StepExists(s: Sys, peers: Option<int>) returns (t: Sys, r: Reply, s': Sys)
    requires TrackInv(s) && Active(s.plan, s.op) && s.plan.size >= 1 && NodeConfig.Readable(s.plan.config)
    ensures ObligingNext(s, t) && t.op == s.op && t.plan == s.plan
    ensures ObligingStep(t, r, s') && (Active(s'.plan, s'.op) || s'.op.Finished?)
    ensures AllTell(s.log, peers) ==> AllTell(s'.log, peers)
  {
    hide CleanFacts;
    hide Fit;
    hide OnTrack;
    hide Serves;
    hide Advances;
    hide Active;
    hide NextCommand;
    hide Obliges;
    hide NodeConfig.Readable;
    hide Tells;
    var w := Informed(s.plan, peers, s.world);
    t := s.(world := w);
    InformedIsQuiet(s.plan, peers, s.world);
    assert ObligingNext(s, t);
    hide QuietStep;
    ObligingKeeps(s, t);
    NextIsKnowing(w, s.plan, peers, s.op);
    var cmd := NextCommand(s.plan, s.op);
    var w';
    w', r := Answered(w, s.plan, peers, cmd);
    var op' := Led(s.plan, s.op, r);
    LedIsActive(s.plan, s.op, r, op');
    s' := Sys(w', s.plan, op', s.log + [Event(cmd, r)]);
  }

  lemma ObligingGrows(a: Sys, b: Sys, run: seq<Sys>)
    requires run != [] && ObligingFrom(run, 0, |run| - 1) && ObligingNext(a, b) && ObligingNext(b, run[0])
    ensures ObligingFrom([a, b] + run, 0, |run| + 1)
  {
    hide ObligingNext;
    var longer := [a, b] + run;
    forall t | 0 <= t < |run| + 1
      ensures ObligingNext(longer[t], longer[t + 1])
    {
      if t >= 2 {
        assert longer[t] == run[t - 2] && longer[t + 1] == run[t - 1];
      }
    }
  }

  lemma {:induction false} PassGoesOn(s: Sys, peers: Option<int>) returns (run: seq<Sys>)
    requires TrackInv(s) && (Active(s.plan, s.op) || s.op.Finished?)
    requires s.plan.size >= 1 && NodeConfig.Readable(s.plan.config)
    ensures run != [] && run[0] == s && ObligingFrom(run, 0, |run| - 1) && run[|run| - 1].op == Finished(Healthy)
    ensures AllTell(s.log, peers) ==> AllTell(run[|run| - 1].log, peers)
    decreases Part(s.op), Left(s.op), Phase(s.op), Inner(s.plan, s.op)
  {
    hide TrackInv;
    hide AllTell;
    hide Active;
    hide ObligingStep;
    hide NodeConfig.Readable;
    hide Part;
    hide Left;
    hide Phase;
    hide Inner;
    if s.op.Finished? {
      run := [s];
      EndIsGood(s);
    } else {
      var t, r, s' := StepExists(s, peers);
      ObligingKeeps(s, t);
      assert ObligingNext(t, s');
      ObligingKeeps(t, s');
      ObligingStepsNearer(t, r, s');
      KeepsPlan(t, r, s');
      var rest := PassGoesOn(s', peers);
      ObligingGrows(s, t, rest);
      run := [s, t] + rest;
    }
  }

  lemma EndIsGood(s: Sys)
    requires TrackInv(s) && s.op.Finished?
    ensures s.op == Finished(Healthy)
  {
    hide CleanInv;
    hide Fit;
  }

  lemma KeepsPlan(s: Sys, r: Reply, s': Sys)
    requires ObligingStep(s, r, s')
    ensures s'.plan == s.plan
  {
    hide Serves;
    hide Advances;
  }

  /**
   * From every beginning with the pods and sentinels the specification asks for, at most one
   * master, well-formed custom settings and a readable configuration there is a clean pass
   * that ends well - whatever the pods replicate from, the nodes have set, and the sentinels
   * monitor, and whatever number of peers they tell.
   */
  lemma GoodPassExists(s: Sys, peers: Option<int>) returns (run: seq<Sys>)
    requires Begins(s) && Fit(s.world, s.plan) && s.plan.size >= 1 && NodeConfig.Readable(s.plan.config)
    ensures run != [] && run[0] == s && CleanFrom(run, 0, |run| - 1) && run[|run| - 1].op == Finished(Healthy)
    ensures s.log == [] ==> AllTell(run[|run| - 1].log, peers)
  {
    hide Fit;
    hide NodeConfig.Readable;
    hide ObligingNext;
    hide CleanNext;
    run := PassGoesOn(s, peers);
    TrackHolds(run, 0, |run| - 1);
  }
}
