/**
 * `CheckAndHeal` and what it calls, loop by loop, over a cluster that moves underneath. Each
 * remote call is one step of the machine; the ghost history shows that every execution is a run
 * of the machine, and so has every property proved of runs.
 */
module Healer {
  import opened Basics
  import opened Cluster
  import opened HealMachine
  import opened HealSafety
  import opened HealClean
  import HealAccounting
  import Network
  import NodeConfig
  import Quorum
  import SentinelMemory
  import Sorting

  datatype Error = Nil | NeedRequeue | Other

  /** What the caller is told of an outcome. */
  function ErrorOf(outcome: Outcome): Error {
    match outcome
    case Requeue => NeedRequeue
    case Skipped => Nil
    case Healthy => Nil
    case Broken => Other
  }

  /** Where a reply leads when, after a mismatch, the settings are written in this order. */
  ghost function After(plan: Plan, op: Op, r: Reply, order: seq<string>): Op
    requires Active(plan, op)
  {
    if op.Settled? && op.step.ReadingConfig? && !(r.ConfigIs? && NodeConfig.Matches(plan.config, r.config)) then
      Settled(op.m, WriteFrom(op.step.ips, op.step.i, order, 0))
    else Advance(plan, op, r)
  }

  /** Sorting and ranging are choices the machine allows. */
  lemma AfterAdvances(plan: Plan, op: Op, r: Reply, order: seq<string>)
    requires Active(plan, op)
    requires op.Settled? && op.step.ReadingConfig? ==> Lists(order, plan.config.Keys)
    ensures Advances(plan, op, r, After(plan, op, r, order))
  {
    hide NodeConfig.Matches;
    hide AdvanceStep;
    if op.OldestList? && r.PodsAre? && r.pods != [] {
      Sorting.SortSorts(r.pods, Created);
      Sorting.PermutationFacts(Sorting.Sort(r.pods, Created), r.pods);
    }
  }

  lemma RunGrows(past: seq<Sys>, pass: seq<Sys>, s': Sys)
    requires pass != [] && IsRun(past + pass) && Next(pass[|pass| - 1], s')
    ensures IsRun(past + (pass + [s'])) && (past + (pass + [s']))[0] == (past + pass)[0]
  {
    hide Next;
    var run, longer := past + pass, past + (pass + [s']);
    assert longer == run + [s'];
    assert run[|run| - 1] == pass[|pass| - 1];
    forall k | 0 <= k < |longer| - 1
      ensures Next(longer[k], longer[k + 1])
    {
      if k < |run| - 1 {
        assert longer[k] == run[k] && longer[k + 1] == run[k + 1];
      }
    }
  }

  lemma CleanGrows(pass: seq<Sys>, s': Sys)
    requires pass != [] && CleanFrom(pass, 0, |pass| - 1) && CleanNext(pass[|pass| - 1], s')
    ensures CleanFrom(pass + [s'], 0, |pass|)
  {
    hide CleanNext;
    var longer := pass + [s'];
    forall t | 0 <= t < |pass|
      ensures CleanNext(longer[t], longer[t + 1])
    {
      if t < |pass| - 1 {
        assert longer[t] == pass[t] && longer[t + 1] == pass[t + 1];
      }
    }
  }

  lemma EnvClock(w: World, w': World)
    requires EnvStep(w, w')
    ensures w.now <= w'.now && WellAddressed(w')
  {
  }

  lemma StepIsNext(s: Sys, fate: Fate, r: Reply, s': Sys)
    requires OpStep(s, fate, r, s')
    ensures Next(s, s') && (fate == Delivered ==> CleanNext(s, s'))
  {
  }

  /** What the clock is asked for while a sentinel is waited for, and what its answers lead to. */
  lemma WaitPoints(plan: Plan, m: Addr, sips: seq<Addr>, i: nat, deadline: int, checks: nat)
    requires i < |sips|
    ensures ActiveTask(plan, ArmTimer) && ActiveTask(plan, Poll(deadline, checks)) && ActiveTask(plan, Pause(deadline, checks))
    ensures TaskCommand(plan, m, sips[i], ArmTimer) == ReadClock
    ensures TaskCommand(plan, m, sips[i], Poll(deadline, checks)) == ReadClock
    ensures TaskCommand(plan, m, sips[i], Pause(deadline, checks)) == Sleep(CHECK_INTERVAL)
    ensures forall r: Reply :: r.TimeIs? ==>
      && AdvanceTask(plan, m, sips, i, ArmTimer, r) == Go(AtSentinel(sips, i, Poll(r.now + TIME_OUT, 0)))
      && AdvanceTask(plan, m, sips, i, Poll(deadline, checks), r)
         == if r.now <= deadline then Go(AtSentinel(sips, i, WaitInfo(deadline, checks + 1))) else Stop(Broken)
    ensures forall r: Reply :: AdvanceTask(plan, m, sips, i, Pause(deadline, checks), r) == Go(AtSentinel(sips, i, Poll(deadline, checks)))
  {
  }

  /** Where the custom settings of a sentinel stand, and what an answer to one leads to. */
  lemma CustomPoint(plan: Plan, m: Addr, sips: seq<Addr>, i: nat, j: nat)
    requires i < |sips| && j <= |plan.customConfig|
    ensures j == |plan.customConfig| ==> CustomFrom(plan, sips, i, j) == CustomFrom(plan, sips, i + 1, 0)
    ensures j < |plan.customConfig| ==>
      match GetConfigParameters(plan.customConfig[j])
      case None => CustomFrom(plan, sips, i, j) == Stop(Broken)
      case Some(parts) =>
        && CustomFrom(plan, sips, i, j) == Go(AtSentinel(sips, i, SetCustom(j))) && ActiveTask(plan, SetCustom(j))
        && TaskCommand(plan, m, sips[i], SetCustom(j)) == SentinelSet(sips[i], parts.0, parts.1)
        && forall r :: AdvanceTask(plan, m, sips, i, SetCustom(j), r) == if r.Done? then CustomFrom(plan, sips, i, j + 1) else Stop(Broken)
  {
    hide GetConfigParameters;
  }

  lemma PassStaysSafe(past: seq<Sys>, pass: seq<Sys>)
    requires pass != [] && IsRun(past + pass) && AtRest((past + pass)[0])
    ensures AtMostOneMaster(pass[0].world) ==> forall k :: 0 <= k < |pass| ==> AtMostOneMaster(pass[k].world)
  {
    hide Next;
    hide AtMostOneMaster;
    if AtMostOneMaster(pass[0].world) {
      var run := past + pass;
      assert run[|past|] == pass[0];
      forall k | 0 <= k < |pass|
        ensures AtMostOneMaster(pass[k].world)
      {
        assert run[|past| + k] == pass[k];
        MastersNeverMultiply(run, |past|, |past| + k);
      }
    }
  }

  class SentinelHandler {
    // The cluster it acts on, and what the pass reads of the object.
    var world: World
    var plan: Plan
    // History: the states before this pass, and of this pass; and whether nothing was lost or moved in it.
    ghost var past: seq<Sys>
    ghost var pass: seq<Sys>
    ghost var clean: bool

    ghost function Run(): seq<Sys>
      reads this
    {
      past + pass
    }

    ghost function Now(): Sys
      reads this
      requires pass != []
    {
      pass[|pass| - 1]
    }

    ghost function Op(): Op
      reads this
      requires pass != []
    {
      Now().op
    }

    /** The history is a run of the machine that ends in the present. */
    ghost predicate Valid()
      reads this
    {
      && pass != [] && IsRun(Run()) && AtRest(Run()[0]) && Run()[0].op.Idle?
      && Now().world == world && Now().plan == plan
      && (clean ==> CleanFrom(pass, 0, |pass| - 1))
    }

    /** The pass goes on. */
    twostate predicate Proceeds()
      reads this
    {
      && Valid() && plan == old(plan)
      && past == old(past) && old(pass) != [] && pass != [] && pass[0] == old(pass)[0]
      && Run()[0] == old(Run())[0]
      && (clean ==> old(clean)) && old(world.now) <= world.now
    }

    constructor (w: World, p: Plan)
      requires WellAddressed(w)
      ensures Valid() && world == w && plan == p && past == [] && pass == [Sys(w, p, Idle, [])]
    {
      world, plan := w, p;
      past, pass, clean := [], [Sys(w, p, Idle, [])], false;
    }

    /** A new pass for what is now specified. */
    method Begin(p: Plan)
      requires Valid() && (Op().Idle? || Op().Finished?)
      modifies this
      ensures Valid() && world == old(world) && plan == p && clean
      ensures past == old(Run()) && pass == [Sys(world, p, RedisNumber, [])]
    {
      ghost var s' := Sys(world, p, RedisNumber, []);
      assert BeginPass(Now(), s');
      RunGrows(past, pass, s');
      past, pass, clean, plan := past + pass, [s'], true, p;
      assert past + pass == old(past) + (old(pass) + [s']);
    }

    /** The world moves by itself. */
    method Drift()
      requires Valid()
      modifies this`world, this`pass, this`clean
      ensures Proceeds() && Op() == old(Op()) && WellAddressed(world)
    {
      hide OpStep;
      hide EnvStep;
      InvHolds(Run(), |Run()| - 1);
      assert Run()[|Run()| - 1] == Now();
      var w := Network.Disturb(world);
      ghost var s' := Now().(world := w);
      assert WorldStep(Now(), s');
      RunGrows(past, pass, s');
      clean := clean && QuietStep(world, w);
      if clean {
        CleanGrows(pass, s');
      }
      EnvClock(world, w);
      world, pass := w, pass + [s'];
    }

    /** One remote call: the world may move first, and the call or its answer may be lost. */
    method Call(cmd: Command, ghost order: seq<string> := []) returns (r: Reply)
      requires Valid() && Active(plan, Op()) && cmd == NextCommand(plan, Op())
      requires Op().Settled? && Op().step.ReadingConfig? ==> Lists(order, plan.config.Keys)
      modifies this`world, this`pass, this`clean
      ensures Proceeds() && Op() == After(plan, old(Op()), r, order)
      ensures cmd.Sleep? ==> world.now >= old(world.now) + cmd.span
      ensures cmd.ReadClock? ==> r.TimeIs? && old(world.now) <= r.now <= world.now
    {
      hide Lists;
      hide WellAddressed;
      hide CleanNext;
      hide CleanFrom;
      hide Advances;
      hide AtRest;
      hide IsRun;
      hide Advance;
      hide After;
      hide Next;
      hide NextCommand;
      hide NodeConfig.Matches;
      Drift();
      ghost var s := Now();
      var w, answer, fate := Network.Send(world, cmd);
      r := answer;
      HealAccounting.ClockEffect(world, cmd, fate, w, r);
      AfterAdvances(plan, s.op, r, order);
      ghost var s' := Sys(w, plan, After(plan, s.op, r, order), s.log + [Event(cmd, r)]);
      StepIsNext(s, fate, r, s');
      RunGrows(past, pass, s');
      clean := clean && fate == Delivered;
      if clean {
        CleanGrows(pass, s');
      }
      world, pass := w, pass + [s'];
    }

    // ---------------------------------------------------------------- reading the cluster

    /** The addresses of the running redis pods. */
    method GetRedisesIPs() returns (redises: Option<seq<Addr>>, ghost r: Reply)
      requires Valid() && Active(plan, Op()) && NextCommand(plan, Op()) == ListPods
      modifies this`world, this`pass, this`clean
      ensures Proceeds() && Op() == Advance(plan, old(Op()), r)
      ensures redises == if r.PodsAre? then Some(RunningIPs(r.pods)) else None
    {
      hide IsRun;
      hide AtRest;
      hide CleanFrom;
      var reply := Call(ListPods);
      r := reply;
      match reply
      case PodsAre(items) =>
        var ips := [];
        for k := 0 to |items|
          invariant ips == RunningIPs(items[..k])
        {
          assert items[..k + 1][..k] == items[..k];
          if items[k].running {
            ips := ips + [items[k].ip];
          }
        }
        assert items[..|items|] == items;
        redises := Some(ips);
      case _ => redises := None;
    }

    method GetSentinelsIPs() returns (sentinels: Option<seq<Addr>>, ghost r: Reply)
      requires Valid() && Active(plan, Op()) && NextCommand(plan, Op()) == ListSentinels
      modifies this`world, this`pass, this`clean
      ensures Proceeds() && Op() == Advance(plan, old(Op()), r)
      ensures sentinels == if r.SentinelsAre? then Some(RunningSentinelIPs(r.sentinels)) else None
    {
      hide IsRun;
      hide AtRest;
      hide CleanFrom;
      var reply := Call(ListSentinels);
      r := reply;
      match reply
      case SentinelsAre(items) =>
        var sips := [];
        for k := 0 to |items|
          invariant sips == RunningSentinelIPs(items[..k])
        {
          assert items[..k + 1][..k] == items[..k];
          if items[k].running {
            sips := sips + [items[k].ip];
          }
        }
        assert items[..|items|] == items;
        sentinels := Some(sips);
      case _ => sentinels := None;
    }

    /** The number of masters, asked one pod at a time. */
    method GetNumberMasters() returns (nMasters: Option<nat>)
      requires Valid() && Op().CountList?
      modifies this`world, this`pass, this`clean
      ensures Proceeds()
      ensures Op() ==
        match nMasters
        case None => Finished(Broken)
        case Some(n) => CountFrom([], 0, n)
    {
      hide NodeConfig.Matches;
      hide RunningIPs;
      hide StepCommand;
      hide AdvanceStep;
      hide IsRun;
      hide AtRest;
      hide CleanFrom;
      var rips, _ := GetRedisesIPs();
      if rips.None? {
        return None;
      }
      var n := 0;
      for i := 0 to |rips.value|
        invariant Proceeds() && Op() == CountFrom(rips.value, i, n)
      {
        var r := Call(InfoReplication(rips.value[i]));
        match r {
          case RoleIs(role) =>
            if role == Master {
              n := n + 1;
            }
          case _ => return None;
        }
      }
      return Some(n);
    }

    /** The address of the only master. */
    method GetMasterIP() returns (master: Option<Addr>)
      requires Valid() && Op().MasterList?
      modifies this`world, this`pass, this`clean
      ensures Proceeds()
      ensures Op() ==
        match master
        case None => Finished(Broken)
        case Some(m) => Settled(m, SlavesList)
    {
      hide NodeConfig.Matches;
      hide RunningIPs;
      hide StepCommand;
      hide AdvanceStep;
      hide IsRun;
      hide AtRest;
      hide CleanFrom;
      var rips, _ := GetRedisesIPs();
      if rips.None? {
        return None;
      }
      var masters := [];
      for i := 0 to |rips.value|
        invariant Proceeds() && Op() == LocateFrom(rips.value, i, masters)
      {
        var r := Call(InfoReplication(rips.value[i]));
        match r {
          case RoleIs(role) =>
            if role == Master {
              masters := masters + [rips.value[i]];
            }
          case _ => return None;
        }
      }
      if |masters| != 1 {
        return None;
      }
      return Some(masters[0]);
    }

    method CheckAllSlavesFromMaster(master: Addr) returns (ok: bool)
      requires Valid() && Op() == Settled(master, SlavesList)
      modifies this`world, this`pass, this`clean
      ensures Proceeds() && Op() == Settled(master, if ok then ConfigList else RepointList)
    {
      hide MonitorFrom;
      hide NodeConfig.Matches;
      hide RunningIPs;
      hide TaskCommand;
      hide AdvanceTask;
      hide IsRun;
      hide AtRest;
      hide CleanFrom;
      var rips, _ := GetRedisesIPs();
      if rips.None? {
        return false;
      }
      for i := 0 to |rips.value|
        invariant Proceeds() && Op() == Settled(master, CheckSlavesFrom(rips.value, i))
      {
        var r := Call(InfoReplication(rips.value[i]));
        if !r.RoleIs? {
          return false;
        }
        var slave := match r.role case Master => "" case SlaveOf(host) => host;
        if slave != "" && slave != master {
          return false;
        }
      }
      return true;
    }

    // ---------------------------------------------------------------- promoting and re-pointing

    method SetOldestAsMaster() returns (ok: bool)
      requires Valid() && Op().OldestList?
      modifies this`world, this`pass, this`clean
      ensures Proceeds() && Op() == if ok then MasterList else Finished(Broken)
    {
      hide Sorting.Sort;
      hide NodeConfig.Matches;
      hide RunningIPs;
      hide StepCommand;
      hide AdvanceStep;
      hide IsRun;
      hide AtRest;
      hide CleanFrom;
      var ssp := Call(ListPods);
      if !ssp.PodsAre? || |ssp.pods| < 1 {
        return false;
      }
      var items := Sorting.Sort(ssp.pods, Created);
      var newMasterIP := "";
      for i := 0 to |items|
        invariant Proceeds() && Op() == PromoteFrom(items, i, newMasterIP)
      {
        var r;
        if newMasterIP == "" {
          newMasterIP := items[i].ip;
          r := Call(SlaveOfNoOne(newMasterIP));
        } else {
          r := Call(SlaveOfHost(items[i].ip, newMasterIP));
        }
        if !r.Done? {
          return false;
        }
      }
      return true;
    }

    method SetMasterOnAll(master: Addr) returns (ok: bool)
      requires Valid() && Op() == Settled(master, RepointList)
      modifies this`world, this`pass, this`clean
      ensures Proceeds() && Op() == if ok then Settled(master, ConfigList) else Finished(Broken)
    {
      hide NodeConfig.Matches;
      hide RunningIPs;
      hide TaskCommand;
      hide AdvanceTask;
      hide IsRun;
      hide AtRest;
      hide CleanFrom;
      var ssp := Call(ListPods);
      if !ssp.PodsAre? {
        return false;
      }
      for i := 0 to |ssp.pods|
        invariant Proceeds() && Op() == Settled(master, RepointFrom(ssp.pods, i))
      {
        var r;
        if ssp.pods[i].ip == master {
          r := Call(SlaveOfNoOne(master));
        } else {
          r := Call(SlaveOfHost(ssp.pods[i].ip, master));
        }
        if !r.Done? {
          return false;
        }
      }
      return true;
    }

    // ---------------------------------------------------------------- settings of the redis nodes

    method SetCustomRedisConfig(m: Addr, ips: seq<Addr>, i: nat, order: seq<string>) returns (ok: bool)
      requires Valid() && i < |ips| && Lists(order, plan.config.Keys)
      requires Op() == Settled(m, WriteFrom(ips, i, order, 0))
      modifies this`world, this`pass, this`clean
      ensures Proceeds() && Op() == if ok then Settled(m, ConfigFrom(ips, i + 1)) else Finished(Broken)
    {
      hide NodeConfig.Matches;
      hide MonitorFrom;
      hide TaskCommand;
      hide AdvanceTask;
      hide IsRun;
      hide AtRest;
      hide CleanFrom;
      for j := 0 to |order|
        invariant Proceeds() && Op() == Settled(m, WriteFrom(ips, i, order, j))
      {
        var r := Call(ConfigSet(ips[i], order[j], plan.config[order[j]]));
        if !r.Done? {
          return false;
        }
      }
      return true;
    }

    /**
     * Compares the node's settings with the specification, in one order of the keys; after a
     * difference, or a failed read, they are all written, in another order.
     */
    method ConfigureNode(m: Addr, ips: seq<Addr>, i: nat) returns (ok: bool)
      requires Valid() && i < |ips| && Op() == Settled(m, ReadingConfig(ips, i))
      modifies this`world, this`pass, this`clean
      ensures Proceeds() && Op() == if ok then Settled(m, ConfigFrom(ips, i + 1)) else Finished(Broken)
    {
      hide IsRun;
      hide AtRest;
      hide CleanFrom;
      hide Lists;
      hide NodeConfig.Matches;
      hide AdvanceTask;
      hide TaskCommand;
      var asRead := Range(plan.config.Keys);
      var asWritten := Range(plan.config.Keys);
      var r := Call(ConfigGet(ips[i]), asWritten);
      var same := false;
      if r.ConfigIs? {
        same := NodeConfig.CheckRedisConfig(plan.config, r.config, asRead);
      }
      ok := true;
      if !same {
        ok := SetCustomRedisConfig(m, ips, i, asWritten);
      }
    }

    method SetRedisConfig(m: Addr) returns (ok: bool)
      requires Valid() && Op() == Settled(m, ConfigList)
      modifies this`world, this`pass, this`clean
      ensures Proceeds() && Op() == if ok then Settled(m, SentinelList) else Finished(Broken)
    {
      hide IsRun;
      hide AtRest;
      hide CleanFrom;
      hide NodeConfig.Matches;
      hide RunningIPs;
      hide AdvanceTask;
      hide MonitorFrom;
      var redises, _ := GetRedisesIPs();
      if redises.None? {
        return false;
      }
      for i := 0 to |redises.value|
        invariant Proceeds() && Op() == Settled(m, ConfigFrom(redises.value, i))
      {
        var done := ConfigureNode(m, redises.value, i);
        if !done {
          return false;
        }
      }
      return true;
    }

    // ---------------------------------------------------------------- sentinels

    /** A call on behalf of a sentinel, to it or to the clock. */
    method CallFor(cmd: Command, m: Addr, sips: seq<Addr>, i: nat, ghost task: Task) returns (r: Reply)
      requires Valid() && i < |sips| && ActiveTask(plan, task) && Op() == Settled(m, AtSentinel(sips, i, task))
      requires cmd == TaskCommand(plan, m, sips[i], task)
      modifies this`world, this`pass, this`clean
      ensures Proceeds() && Op() == Follow(m, AdvanceTask(plan, m, sips, i, task, r))
      ensures cmd.Sleep? ==> world.now >= old(world.now) + cmd.span
      ensures cmd.ReadClock? ==> r.TimeIs? && old(world.now) <= r.now <= world.now
    {
      hide IsRun;
      hide AtRest;
      hide CleanFrom;
      hide MonitorFrom;
      hide OptionFrom;
      hide MemoryFrom;
      hide PeersFrom;
      hide CustomFrom;
      hide AdvanceTask;
      hide TaskCommand;
      r := Call(cmd);
    }

    method CheckSentinelMonitor(m: Addr, sips: seq<Addr>, i: nat) returns (ok: bool)
      requires Valid() && i < |sips| && Op() == Settled(m, AtSentinel(sips, i, CheckMonitor))
      modifies this`world, this`pass, this`clean
      ensures Proceeds()
      ensures Op() == if ok then Follow(m, MonitorFrom(plan, sips, i + 1)) else Settled(m, AtSentinel(sips, i, Remove))
    {
      hide IsRun;
      hide AtRest;
      hide CleanFrom;
      hide MonitorFrom;
      hide OptionFrom;
      hide MemoryFrom;
      hide PeersFrom;
      hide CustomFrom;
      var r := CallFor(SentinelMaster(sips[i]), m, sips, i, CheckMonitor);
      return r.MonitorIs? && r.host == m;
    }

    /** REMOVE may fail; MONITOR and the settings behind it may not. */
    method NewSentinelMonitor(m: Addr, sips: seq<Addr>, i: nat) returns (ok: bool)
      requires Valid() && i < |sips| && Op() == Settled(m, AtSentinel(sips, i, Remove))
      modifies this`world, this`pass, this`clean
      ensures Proceeds() && Op() == if ok then Follow(m, MonitorFrom(plan, sips, i + 1)) else Finished(Broken)
    {
      hide Quorum.GetQuorum;
      hide Active;
      hide StepCommand;
      hide NextCommand;
      hide AdvanceStep;
      hide Advance;
      hide After;
      hide IsRun;
      hide AtRest;
      hide CleanFrom;
      hide MonitorFrom;
      hide MemoryFrom;
      hide PeersFrom;
      hide CustomFrom;
      var r := CallFor(SentinelRemove(sips[i]), m, sips, i, Remove);
      r := CallFor(SentinelMonitor(sips[i], m, Quorum.GetQuorum(plan.sentinels)), m, sips, i, Install);
      if !r.Done? {
        return false;
      }
      var options := MonitorOptions(plan);
      for j := 0 to |options|
        invariant Proceeds() && Op() == Follow(m, OptionFrom(plan, sips, i, j))
      {
        r := CallFor(SentinelSet(sips[i], options[j].0, options[j].1), m, sips, i, SetOption(j));
        if !r.Done? {
          return false;
        }
      }
      return true;
    }

    /** The two questions behind `GetNumberSentinelSlavesInMemory`. */
    method CheckSentinelSlavesNumberInMemory(m: Addr, sips: seq<Addr>, i: nat, ghost task: Task) returns (ok: bool)
      requires Valid() && i < |sips| && (task.AskInfo? || task.WaitInfo?)
      requires Op() == Settled(m, AtSentinel(sips, i, task))
      modifies this`world, this`pass, this`clean
      ensures Proceeds()
      ensures Op() ==
        if ok then Follow(m, MemoryFrom(plan, sips, i + 1))
        else Settled(m, AtSentinel(sips, i, match task case WaitInfo(deadline, checks) => Pause(deadline, checks) case _ => Restore))
    {
      hide Active;
      hide StepCommand;
      hide NextCommand;
      hide AdvanceStep;
      hide Advance;
      hide After;
      hide IsRun;
      hide AtRest;
      hide CleanFrom;
      hide MonitorFrom;
      hide OptionFrom;
      hide MemoryFrom;
      hide PeersFrom;
      hide CustomFrom;
      var r := CallFor(SentinelInfo(sips[i]), m, sips, i, task);
      if !r.InfoIs? || !r.statusOk {
        return false;
      }
      r := CallFor(SentinelSlaves(sips[i]), m, sips, i,
        match task case WaitInfo(deadline, checks) => WaitBlobs(deadline, checks) case _ => AskBlobs);
      if !r.BlobsAre? {
        return false;
      }
      var nSlaves := SentinelMemory.CountSlaves(r.blobs);
      return nSlaves == plan.size - 1;
    }

    /** One turn of the wait: the timer may have fired, the sentinel may have caught up, or it is given more time. */
    method WaitOnce(m: Addr, sips: seq<Addr>, i: nat, deadline: int, ghost checks: nat) returns (fired: bool, caughtUp: bool)
      requires Valid() && i < |sips| && Op() == Settled(m, AtSentinel(sips, i, Poll(deadline, checks)))
      modifies this`world, this`pass, this`clean
      ensures Proceeds()
      ensures Op() ==
        if fired then Finished(Broken)
        else if caughtUp then Follow(m, MemoryFrom(plan, sips, i + 1))
        else Settled(m, AtSentinel(sips, i, Poll(deadline, checks + 1)))
      ensures !fired && !caughtUp ==> old(world.now) <= deadline && world.now >= old(world.now) + CHECK_INTERVAL
    {
      hide IsRun;
      hide AtRest;
      hide CleanFrom;
      hide MemoryFrom;
      hide After;
      hide Advance;
      hide AdvanceTask;
      hide TaskCommand;
      hide ActiveTask;
      WaitPoints(plan, m, sips, i, deadline, checks);
      fired, caughtUp := false, false;
      var clock := CallFor(ReadClock, m, sips, i, Poll(deadline, checks));
      if clock.now > deadline {
        fired := true;
        return;
      }
      caughtUp := CheckSentinelSlavesNumberInMemory(m, sips, i, WaitInfo(deadline, checks + 1));
      if !caughtUp {
        WaitPoints(plan, m, sips, i, deadline, checks + 1);
        var _ := CallFor(Sleep(CHECK_INTERVAL), m, sips, i, Pause(deadline, checks + 1));
      }
    }

    /** Checks, sleeps and checks again until the sentinel has caught up or the timer has fired. */
    method WaitRestoreSentinelSlavesOK(m: Addr, sips: seq<Addr>, i: nat) returns (ok: bool)
      requires Valid() && i < |sips| && Op() == Settled(m, AtSentinel(sips, i, ArmTimer))
      modifies this`world, this`pass, this`clean
      ensures Proceeds() && Op() == if ok then Follow(m, MemoryFrom(plan, sips, i + 1)) else Finished(Broken)
    {
      hide IsRun;
      hide AtRest;
      hide CleanFrom;
      hide MemoryFrom;
      hide After;
      hide Advance;
      hide AdvanceTask;
      hide TaskCommand;
      hide ActiveTask;
      WaitPoints(plan, m, sips, i, 0, 0);
      var armed := CallFor(ReadClock, m, sips, i, ArmTimer);
      var deadline := armed.now + TIME_OUT;
      ghost var checks: nat := 0;
      while true
        invariant Proceeds() && Op() == Settled(m, AtSentinel(sips, i, Poll(deadline, checks)))
        decreases deadline - world.now
      {
        var fired, caughtUp := WaitOnce(m, sips, i, deadline, checks);
        if fired {
          return false;
        }
        if caughtUp {
          return true;
        }
        checks := checks + 1;
      }
    }

    method CheckSentinelNumberInMemory(m: Addr, sips: seq<Addr>, i: nat) returns (ok: bool)
      requires Valid() && i < |sips| && Op() == Settled(m, AtSentinel(sips, i, AskPeers))
      modifies this`world, this`pass, this`clean
      ensures Proceeds()
      ensures Op() == if ok then Follow(m, PeersFrom(plan, sips, i + 1)) else Settled(m, AtSentinel(sips, i, ResetPeers))
    {
      hide IsRun;
      hide AtRest;
      hide CleanFrom;
      hide MonitorFrom;
      hide OptionFrom;
      hide MemoryFrom;
      hide PeersFrom;
      hide CustomFrom;
      var r := CallFor(SentinelInfo(sips[i]), m, sips, i, AskPeers);
      return r.InfoIs? && r.statusOk && r.peers == Some(plan.sentinels);
    }

    /** The three loops of `CheckAndHeal` over the sentinels. */
    method MakeSentinelsWatch(m: Addr, sips: seq<Addr>) returns (ok: bool)
      requires Valid() && Op() == Follow(m, MonitorFrom(plan, sips, 0))
      modifies this`world, this`pass, this`clean
      ensures Proceeds() && Op() == if ok then Follow(m, MemoryFrom(plan, sips, 0)) else Finished(Broken)
    {
      hide IsRun;
      hide AtRest;
      hide CleanFrom;
      hide OptionFrom;
      hide MemoryFrom;
      hide PeersFrom;
      hide CustomFrom;
      for i := 0 to |sips|
        invariant Proceeds() && Op() == Follow(m, MonitorFrom(plan, sips, i))
      {
        var watches := CheckSentinelMonitor(m, sips, i);
        if !watches {
          var done := NewSentinelMonitor(m, sips, i);
          if !done {
            return false;
          }
        }
      }
      return true;
    }

    method MakeSentinelsCount(m: Addr, sips: seq<Addr>) returns (ok: bool)
      requires Valid() && Op() == Follow(m, MemoryFrom(plan, sips, 0))
      modifies this`world, this`pass, this`clean
      ensures Proceeds() && Op() == if ok then Follow(m, PeersFrom(plan, sips, 0)) else Finished(Broken)
    {
      hide IsRun;
      hide AtRest;
      hide CleanFrom;
      hide MonitorFrom;
      hide OptionFrom;
      hide PeersFrom;
      hide CustomFrom;
      for i := 0 to |sips|
        invariant Proceeds() && Op() == Follow(m, MemoryFrom(plan, sips, i))
      {
        var counts := CheckSentinelSlavesNumberInMemory(m, sips, i, AskInfo);
        if !counts {
          var r := CallFor(SentinelReset(sips[i]), m, sips, i, Restore);
          if !r.Done? {
            return false;
          }
          var caughtUp := WaitRestoreSentinelSlavesOK(m, sips, i);
          if !caughtUp {
            return false;
          }
        }
      }
      return true;
    }

    method ResetForgetfulSentinels(m: Addr, sips: seq<Addr>) returns (ok: bool)
      requires Valid() && Op() == Follow(m, PeersFrom(plan, sips, 0))
      modifies this`world, this`pass, this`clean
      ensures Proceeds()
      ensures Op() ==
        if !ok then Finished(Broken)
        else if plan.checkOnly then Settled(m, ReadyCheck(sips))
        else Follow(m, CustomFrom(plan, sips, 0, 0))
    {
      hide IsRun;
      hide AtRest;
      hide CleanFrom;
      hide MonitorFrom;
      hide OptionFrom;
      hide MemoryFrom;
      hide CustomFrom;
      for i := 0 to |sips|
        invariant Proceeds() && Op() == Follow(m, PeersFrom(plan, sips, i))
      {
        var knows := CheckSentinelNumberInMemory(m, sips, i);
        if !knows {
          var r := CallFor(SentinelReset(sips[i]), m, sips, i, ResetPeers);
          if !r.Done? {
            return false;
          }
        }
      }
      return true;
    }

    /** The custom settings at one sentinel, up to the first that is malformed or refused. */
    method SetCustomSentinelConfig(m: Addr, sips: seq<Addr>, i: nat) returns (ok: bool)
      requires Valid() && i < |sips| && Op() == Follow(m, CustomFrom(plan, sips, i, 0))
      modifies this`world, this`pass, this`clean
      ensures Proceeds() && Op() == if ok then Follow(m, CustomFrom(plan, sips, i + 1, 0)) else Finished(Broken)
    {
      hide IsRun;
      hide AtRest;
      hide CleanFrom;
      hide MonitorFrom;
      hide OptionFrom;
      hide MemoryFrom;
      hide PeersFrom;
      hide CustomFrom;
      hide AdvanceTask;
      hide TaskCommand;
      hide ActiveTask;
      hide GetConfigParameters;
      hide After;
      hide Advance;
      hide NextCommand;
      for j := 0 to |plan.customConfig|
        invariant Proceeds() && Op() == Follow(m, CustomFrom(plan, sips, i, j))
      {
        CustomPoint(plan, m, sips, i, j);
        match GetConfigParameters(plan.customConfig[j]) {
          case None => return false;
          case Some(parts) =>
            var r := CallFor(SentinelSet(sips[i], parts.0, parts.1), m, sips, i, SetCustom(j));
            if !r.Done? {
              return false;
            }
        }
      }
      CustomPoint(plan, m, sips, i, |plan.customConfig|);
      return true;
    }

    /** Nothing to set while nothing has changed. */
    method SetSentinelConfig(m: Addr, sips: seq<Addr>) returns (ok: bool)
      requires Valid()
      requires Op() == if plan.checkOnly then Settled(m, ReadyCheck(sips)) else Follow(m, CustomFrom(plan, sips, 0, 0))
      modifies this`world, this`pass, this`clean
      ensures Proceeds() && Op() == if ok then Settled(m, ReadyCheck(sips)) else Finished(Broken)
    {
      hide IsRun;
      hide AtRest;
      hide CleanFrom;
      hide GetConfigParameters;
      if plan.checkOnly {
        return true;
      }
      for i := 0 to |sips|
        invariant Proceeds() && Op() == Follow(m, CustomFrom(plan, sips, i, 0))
      {
        var done := SetCustomSentinelConfig(m, sips, i);
        if !done {
          return false;
        }
      }
      return true;
    }

    // ---------------------------------------------------------------- the pass

    method CheckRedisNumber() returns (ok: bool)
      requires Valid() && Op().RedisNumber?
      modifies this`world, this`pass, this`clean
      ensures Proceeds() && Op() == if ok then SentinelNumber else Finished(Requeue)
    {
      var ss := Call(GetRedisSet);
      return ss.SetIs? && plan.size == ss.counts.replicas && plan.size == ss.counts.ready;
    }

    method CheckSentinelNumber() returns (ok: bool)
      requires Valid() && Op().SentinelNumber?
      modifies this`world, this`pass, this`clean
      ensures Proceeds() && Op() == if ok then CountList else Finished(Skipped)
    {
      var d := Call(GetSentinelSet);
      return d.SetIs? && plan.sentinels == d.counts.replicas;
    }

    method EnsureSentinelReady(m: Addr, ghost sips: seq<Addr>) returns (err: Error)
      requires Valid() && Op() == Settled(m, ReadyCheck(sips))
      modifies this`world, this`pass, this`clean
      ensures Proceeds() && Op().Finished? && err == ErrorOf(Op().outcome) && Op().outcome != Skipped
    {
      var d := Call(GetSentinelSet);
      if !d.SetIs? {
        return Other;
      }
      return if plan.sentinels != d.counts.ready then NeedRequeue else Nil;
    }

    /** A pass that counted no master promotes the only pod, or the oldest. */
    method PromoteSomeone() returns (ok: bool)
      requires Valid() && Op().SoleList?
      modifies this`world, this`pass, this`clean
      ensures Proceeds() && Op() == if ok then MasterList else Finished(Broken)
    {
      hide IsRun;
      hide AtRest;
      hide CleanFrom;
      hide RunningIPs;
      var redises, _ := GetRedisesIPs();
      if redises.None? {
        return false;
      }
      if |redises.value| == 1 {
        var r := Call(SlaveOfNoOne(redises.value[0]));
        return r.Done?;
      }
      var ages := Call(ListPods);
      if !ages.PodsAre? {
        return false;
      }
      ok := SetOldestAsMaster();
    }

    /** What follows the search for the master. */
    method HealAround(m: Addr) returns (err: Error)
      requires Valid() && Op() == Settled(m, SlavesList)
      modifies this`world, this`pass, this`clean
      ensures Proceeds() && Op().Finished? && err == ErrorOf(Op().outcome) && Op().outcome != Skipped
    {
      hide OptionFrom;
      hide TaskCommand;
      hide AdvanceTask;
      hide Quorum.GetQuorum;
      hide IsRun;
      hide AtRest;
      hide CleanFrom;
      hide MonitorFrom;
      hide MemoryFrom;
      hide PeersFrom;
      hide CustomFrom;
      hide RunningSentinelIPs;
      var ok := CheckAllSlavesFromMaster(m);
      if !ok {
        ok := SetMasterOnAll(m);
        if !ok {
          return Other;
        }
      }
      ok := SetRedisConfig(m);
      if !ok {
        return Other;
      }
      var sentinels, _ := GetSentinelsIPs();
      if sentinels.None? {
        return Other;
      }
      ok := MakeSentinelsWatch(m, sentinels.value);
      if !ok {
        return Other;
      }
      ok := MakeSentinelsCount(m, sentinels.value);
      if !ok {
        return Other;
      }
      ok := ResetForgetfulSentinels(m, sentinels.value);
      if !ok {
        return Other;
      }
      ok := SetSentinelConfig(m, sentinels.value);
      if !ok {
        return Other;
      }
      err := EnsureSentinelReady(m, sentinels.value);
    }

    method Pass() returns (err: Error)
      requires Valid() && Op().RedisNumber?
      modifies this`world, this`pass, this`clean
      ensures Proceeds() && Op().Finished? && err == ErrorOf(Op().outcome)
    {
      hide IsRun;
      hide AtRest;
      hide CleanFrom;
      var ok := CheckRedisNumber();
      if !ok {
        return NeedRequeue;
      }
      ok := CheckSentinelNumber();
      if !ok {
        return Nil;
      }
      var nMasters := GetNumberMasters();
      if nMasters.None? {
        return Other;
      }
      if nMasters.value == 0 {
        ok := PromoteSomeone();
        if !ok {
          return Other;
        }
      } else if nMasters.value > 1 {
        return Other;
      }
      var master := GetMasterIP();
      if master.None? {
        return Other;
      }
      err := HealAround(master.value);
    }

    /**
     * One pass, whatever moves, fails or gets lost during it. The history is a run of the
     * machine; with at most one master at the start there is at most one at every moment of the
     * pass; and a clean pass that ends in nil past the number checks has healed the cluster.
     */
    method CheckAndHeal(meta: Plan) returns (err: Error)
      requires Valid() && (Op().Idle? || Op().Finished?)
      modifies this
      ensures Valid() && plan == meta && past == old(Run())
      ensures pass[0] == Sys(old(world), meta, RedisNumber, [])
      ensures Op().Finished? && err == ErrorOf(Op().outcome)
      ensures err == Nil <==> Op().outcome == Healthy || Op().outcome == Skipped
      ensures err == NeedRequeue <==> Op().outcome == Requeue
      ensures AtMostOneMaster(old(world)) ==> forall k :: 0 <= k < |pass| ==> AtMostOneMaster(pass[k].world)
      ensures clean && Op().outcome == Healthy && HostsNamed(old(world)) && SentinelsAddressed(old(world)) ==>
        exists m :: Healed(world, meta.config, m)
    {
      hide Healed;
      hide CleanFrom;
      Begin(meta);
      err := Pass();
      PassStaysSafe(past, pass);
      if clean && Op().outcome == Healthy && HostsNamed(old(world)) && SentinelsAddressed(old(world)) {
        InvHolds(Run(), |past|);
        assert Run()[|past|] == pass[0];
        var m := CleanPassHeals(pass, 0, |pass| - 1);
      }
    }
  }
}
