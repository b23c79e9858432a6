/**
 * What a clean pass that ends well leaves in the settings, exactly: of every redis node, and of
 * every sentinel, as a function of what was there when the pass began.
 */
module HealSettings {
  import opened Basics
  import opened Cluster
  import opened HealMachine
  import opened HealSafety
  import opened HealClean
  import NodeConfig

  // ---------------------------------------------------------------- settings of the redis nodes

  /** A node that matched is left alone; any other has taken the whole specification, in normal form. */
  ghost predicate Taken(spec: NodeConfig.Config, before: NodeConfig.Config, after: NodeConfig.Config) {
    if NodeConfig.Matches(spec, before) then after == before
    else NodeConfig.Readable(spec) && after == before + NodeConfig.Normalised(spec)
  }

  /** The first i addresses have been seen to. */
  ghost predicate TakenBefore(w0: World, w: World, spec: NodeConfig.Config, ips: seq<Addr>, i: nat) {
    forall id :: Runs(w0, id) && Runs(w, id) ==>
      if Before(w0.pods[id].ip, ips, i) then Taken(spec, w0.pods[id].config, w.pods[id].config)
      else w.pods[id].config == w0.pods[id].config
  }

  ghost predicate AllTaken(w0: World, w: World, spec: NodeConfig.Config) {
    forall id :: Runs(w0, id) && Runs(w, id) ==> Taken(spec, w0.pods[id].config, w.pods[id].config)
  }

  ghost predicate NodesUntouched(w0: World, w: World) {
    forall id :: Runs(w0, id) && Runs(w, id) ==> w.pods[id].config == w0.pods[id].config
  }

  /** The node at the address did not match, and has taken the first j keys. */
  ghost predicate HalfWritten(w0: World, w: World, spec: NodeConfig.Config, ips: seq<Addr>, i: nat, keys: seq<string>, j: nat)
    requires i < |ips| && j <= |keys| && forall t :: 0 <= t < |keys| ==> keys[t] in spec
  {
    forall id :: RunsAt(w0, id, ips[i]) && Runs(w, id) ==>
      && !Before(ips[i], ips, i) && !NodeConfig.Matches(spec, w0.pods[id].config)
      && NodeConfig.SetAll(w0.pods[id].config, spec, keys[..j]) == Some(w.pods[id].config)
  }

  /** The nodes elsewhere, while one is being written. */
  ghost predicate OthersTaken(w0: World, w: World, spec: NodeConfig.Config, ips: seq<Addr>, i: nat)
    requires i < |ips|
  {
    forall id :: Runs(w0, id) && Runs(w, id) && w0.pods[id].ip != ips[i] ==>
      if Before(w0.pods[id].ip, ips, i) then Taken(spec, w0.pods[id].config, w.pods[id].config)
      else w.pods[id].config == w0.pods[id].config
  }

  ghost predicate NodeStep(w0: World, w: World, spec: NodeConfig.Config, step: Step) {
    match step
    case ReadingConfig(ips, i) => TakenBefore(w0, w, spec, ips, i)
    case WritingConfig(ips, i, keys, j) =>
      && i < |ips| && j <= |keys| && Lists(keys, spec.Keys)
      && HalfWritten(w0, w, spec, ips, i, keys, j) && OthersTaken(w0, w, spec, ips, i)
    case SentinelList => AllTaken(w0, w, spec)
    case AtSentinel(_, _, _) => AllTaken(w0, w, spec)
    case ReadyCheck(_) => AllTaken(w0, w, spec)
    case _ => NodesUntouched(w0, w)
  }

  ghost predicate NodesExact(w0: World, w: World, spec: NodeConfig.Config, op: Op) {
    && SamePods(w0, w)
    && match op
       case Settled(_, step) => NodeStep(w0, w, spec, step)
       case Finished(outcome) => outcome == Healthy ==> AllTaken(w0, w, spec)
       case _ => NodesUntouched(w0, w)
  }

  /** All commands but CONFIG SET leave settings as they are. */
  lemma ConfigsStay(w: World, cmd: Command, w': World, r: Reply)
    requires Serves(w, cmd, w', r) && !cmd.ConfigSet?
    ensures SamePods(w, w') && NodesUntouched(w, w')
  {
    if ToSentinel(cmd) {
      hide Serves;
      SentinelEffect(w, cmd, w', r);
    } else {
      OtherEffect(w, cmd, w', r);
    }
  }

  lemma SameConfigs(w0: World, w: World, w': World, spec: NodeConfig.Config, step: Step)
    requires SamePods(w0, w) && SamePods(w, w') && NodesUntouched(w, w') && NodeStep(w0, w, spec, step)
    ensures SamePods(w0, w') && NodeStep(w0, w', spec, step)
  {
    hide NodeConfig.Matches;
    hide NodeConfig.SetAll;
    hide Before;
    hide Taken;
  }

  lemma UntouchedChain(w0: World, w: World, w': World)
    requires SamePods(w0, w) && SamePods(w, w') && NodesUntouched(w0, w) && NodesUntouched(w, w')
    ensures SamePods(w0, w') && NodesUntouched(w0, w')
  {
  }

  lemma TakenMatches(spec: NodeConfig.Config, before: NodeConfig.Config, after: NodeConfig.Config)
    requires Taken(spec, before, after)
    ensures NodeConfig.Matches(spec, after)
  {
    hide NodeConfig.Normal;
  }

  /** The last key written, the node has taken the specification, whatever the order was. */
  lemma WrittenIsTaken(spec: NodeConfig.Config, before: NodeConfig.Config, keys: seq<string>, after: NodeConfig.Config)
    requires Lists(keys, spec.Keys) && !NodeConfig.Matches(spec, before)
    requires NodeConfig.SetAll(before, spec, keys) == Some(after)
    ensures Taken(spec, before, after)
  {
    hide NodeConfig.Matches;
    hide NodeConfig.SetAll;
    hide NodeConfig.Readable;
    hide NodeConfig.Normalised;
    NodeConfig.ApplyingIsOrderFree(before, spec, keys);
  }

  lemma ReadHead(w0: World, w: World, spec: NodeConfig.Config, ips: seq<Addr>, i: nat)
    requires i <= |ips| && SamePods(w0, w) && CoversPods(w, ips) && TakenBefore(w0, w, spec, ips, i)
    ensures NodeStep(w0, w, spec, ConfigFrom(ips, i))
  {
    hide Taken;
    if i == |ips| {
      forall id | Runs(w0, id) && Runs(w, id)
        ensures Taken(spec, w0.pods[id].config, w.pods[id].config)
      {
        BeforeEnd(w0.pods[id].ip, ips);
      }
    }
  }

  lemma WrittenHead(w0: World, w: World, spec: NodeConfig.Config, ips: seq<Addr>, i: nat, keys: seq<string>, j: nat)
    requires i < |ips| && j <= |keys| && Lists(keys, spec.Keys) && SamePods(w0, w) && CoversPods(w, ips)
    requires HalfWritten(w0, w, spec, ips, i, keys, j) && OthersTaken(w0, w, spec, ips, i)
    ensures NodeStep(w0, w, spec, WriteFrom(ips, i, keys, j))
  {
    hide Taken;
    hide NodeConfig.Matches;
    hide NodeConfig.SetAll;
    hide CoversPods;
    if j == |keys| {
      forall id | Runs(w0, id) && Runs(w, id)
        ensures if Before(w0.pods[id].ip, ips, i + 1) then Taken(spec, w0.pods[id].config, w.pods[id].config)
                else w.pods[id].config == w0.pods[id].config
      {
        BeforeNext(w0.pods[id].ip, ips, i);
        if w0.pods[id].ip == ips[i] {
          assert RunsAt(w0, id, ips[i]) && keys[..j] == keys;
          WrittenIsTaken(spec, w0.pods[id].config, keys, w.pods[id].config);
        }
      }
      ReadHead(w0, w, spec, ips, i + 1);
    }
  }

  lemma ReadMatches(w0: World, w: World, spec: NodeConfig.Config, ips: seq<Addr>, i: nat, r: Reply)
    requires i < |ips| && WellAddressed(w) && SamePods(w0, w) && CoversPods(w, ips) && TakenBefore(w0, w, spec, ips, i)
    requires Serves(w, ConfigGet(ips[i]), w, r) && r.ConfigIs? && NodeConfig.Matches(spec, r.config)
    ensures NodeStep(w0, w, spec, ConfigFrom(ips, i + 1))
  {
    hide NodeConfig.Matches;
    hide Serves;
    hide ConfigFrom;
    ConfigAnswer(w, ips[i], r);
    forall id | Runs(w0, id) && Runs(w, id)
      ensures if Before(w0.pods[id].ip, ips, i + 1) then Taken(spec, w0.pods[id].config, w.pods[id].config)
              else w.pods[id].config == w0.pods[id].config
    {
      BeforeNext(w0.pods[id].ip, ips, i);
      assert w0.pods[id].ip == ips[i] ==> RunsAt(w, id, ips[i]);
    }
    ReadHead(w0, w, spec, ips, i + 1);
  }

  /** A node that is reached answers with its settings. */
  lemma ReadReached(w: World, ip: Addr, r: Reply, id: PodId)
    requires WellAddressed(w) && RunsAt(w, id, ip) && Serves(w, ConfigGet(ip), w, r)
    ensures r == ConfigIs(w.pods[id].config)
  {
    assert Reachable(w, ip) by { assert Answers(w.pods[id], ip); }
    var other :| RunsAt(w, other, ip) && r == ConfigIs(w.pods[other].config);
    assert Runs(w, id) && Runs(w, other);
  }

  lemma ReadDiffers(w0: World, w: World, spec: NodeConfig.Config, ips: seq<Addr>, i: nat, r: Reply, keys: seq<string>)
    requires i < |ips| && WellAddressed(w) && SamePods(w0, w) && CoversPods(w, ips) && TakenBefore(w0, w, spec, ips, i)
    requires Serves(w, ConfigGet(ips[i]), w, r) && !(r.ConfigIs? && NodeConfig.Matches(spec, r.config))
    requires Lists(keys, spec.Keys)
    ensures NodeStep(w0, w, spec, WriteFrom(ips, i, keys, 0))
  {
    hide NodeConfig.Matches;
    hide Serves;
    hide Taken;
    hide Before;
    forall id | RunsAt(w0, id, ips[i]) && Runs(w, id)
      ensures !Before(ips[i], ips, i) && !NodeConfig.Matches(spec, w0.pods[id].config)
      ensures w.pods[id].config == w0.pods[id].config
    {
      ReadReached(w, ips[i], r, id);
      if Before(ips[i], ips, i) {
        TakenMatches(spec, w0.pods[id].config, w.pods[id].config);
      }
    }
    assert keys[..0] == [];
    WrittenHead(w0, w, spec, ips, i, keys, 0);
  }

  lemma OneKeyMore(w0: World, w: World, spec: NodeConfig.Config, ips: seq<Addr>, i: nat, keys: seq<string>, j: nat, w': World)
    requires WellAddressed(w) && SamePods(w0, w) && CoversPods(w, ips)
    requires i < |ips| && j < |keys| && Lists(keys, spec.Keys)
    requires HalfWritten(w0, w, spec, ips, i, keys, j) && OthersTaken(w0, w, spec, ips, i)
    requires Serves(w, ConfigSet(ips[i], keys[j], spec[keys[j]]), w', Done)
    ensures SamePods(w0, w') && NodeStep(w0, w', spec, WriteFrom(ips, i, keys, j + 1))
  {
    hide NodeConfig.Matches;
    hide NodeConfig.Set;
    hide Taken;
    hide Before;
    hide WriteFrom;
    var key := keys[j];
    var id :| RunsAt(w, id, ips[i]) && NodeConfig.Set(w.pods[id].config, key, spec[key]).Some?
      && w' == WithConfig(w, id, NodeConfig.Set(w.pods[id].config, key, spec[key]).value);
    assert forall other :: Runs(w', other) <==> Runs(w, other);
    assert forall other :: Runs(w, other) && other != id ==> w'.pods[other] == w.pods[other];
    assert keys[..j + 1][..j] == keys[..j];
    forall other | RunsAt(w0, other, ips[i]) && Runs(w', other)
      ensures other == id
    {
      assert Runs(w, other) && Runs(w, id);
    }
    WrittenHead(w0, w', spec, ips, i, keys, j + 1);
  }

  /** Steps before the settings are looked at, and steps after. */
  predicate EarlyStep(step: Step) {
    step.SlavesList? || step.CheckingSlaves? || step.RepointList? || step.Repointing?
  }

  predicate LateStep(step: Step) {
    step.SentinelList? || step.AtSentinel? || step.ReadyCheck?
  }

  lemma EarlyLeads(plan: Plan, m: Addr, step: Step, r: Reply)
    requires ActiveStep(plan, step) && EarlyStep(step)
    ensures var c := AdvanceStep(plan, m, step, r);
      (c.Go? && (EarlyStep(c.step) || c.step.ConfigList?)) || c == Stop(Broken)
    ensures !StepCommand(plan, m, step).ConfigSet?
  {
    hide RunningIPs;
  }

  lemma LateLeads(plan: Plan, m: Addr, step: Step, r: Reply)
    requires ActiveStep(plan, step) && LateStep(step)
    ensures var c := AdvanceStep(plan, m, step, r); c.Go? ==> c.step.AtSentinel? || c.step.ReadyCheck?
    ensures !StepCommand(plan, m, step).ConfigSet?
  {
    hide CustomFrom;
    hide RunningSentinelIPs;
  }

  lemma ConfigListExact(w0: World, w: World, plan: Plan, m: Addr, r: Reply)
    requires SamePods(w0, w) && NodesUntouched(w0, w) && Serves(w, ListPods, w, r) && r.PodsAre?
    ensures NodeStep(w0, w, plan.config, ConfigFrom(RunningIPs(r.pods), 0))
  {
    hide RunningIPs;
    hide Taken;
    ListingCovers(r.pods, w);
    ReadHead(w0, w, plan.config, RunningIPs(r.pods), 0);
  }

  lemma ReadingExact(w0: World, w: World, plan: Plan, m: Addr, ips: seq<Addr>, i: nat, r: Reply, op': Op)
    requires i < |ips| && WellAddressed(w) && SamePods(w0, w) && CoversPods(w, ips)
    requires NodeStep(w0, w, plan.config, ReadingConfig(ips, i)) && Serves(w, ConfigGet(ips[i]), w, r)
    requires Advances(plan, Settled(m, ReadingConfig(ips, i)), r, op')
    ensures NodesExact(w0, w, plan.config, op')
  {
    hide NodeConfig.Matches;
    hide Serves;
    hide WriteFrom;
    hide ConfigFrom;
    hide CoversPods;
    hide TakenBefore;
    assert TakenBefore(w0, w, plan.config, ips, i);
    hide NodeStep;
    if r.ConfigIs? && NodeConfig.Matches(plan.config, r.config) {
      ReadMatches(w0, w, plan.config, ips, i, r);
    } else {
      var keys :| Lists(keys, plan.config.Keys) && op' == Settled(m, WriteFrom(ips, i, keys, 0));
      ReadDiffers(w0, w, plan.config, ips, i, r, keys);
    }
  }

  lemma WritingExact(w0: World, w: World, plan: Plan, m: Addr, ips: seq<Addr>, i: nat, keys: seq<string>, j: nat, w': World, r: Reply)
    requires ActiveStep(plan, WritingConfig(ips, i, keys, j))
    requires WellAddressed(w) && SamePods(w0, w) && CoversPods(w, ips)
    requires NodeStep(w0, w, plan.config, WritingConfig(ips, i, keys, j))
    requires Serves(w, ConfigSet(ips[i], keys[j], plan.config[keys[j]]), w', r)
    ensures NodesExact(w0, w', plan.config, if r.Done? then Settled(m, WriteFrom(ips, i, keys, j + 1)) else Finished(Broken))
  {
    hide Serves;
    hide WriteFrom;
    hide CoversPods;
    hide HalfWritten;
    hide OthersTaken;
    if r.Done? {
      OneKeyMore(w0, w, plan.config, ips, i, keys, j, w');
    } else {
      RefusedSetting(w, ips[i], keys[j], plan.config[keys[j]], w', r);
    }
  }

  lemma ReadingKeepsWorld(w: World, ip: Addr, w': World, r: Reply)
    requires Serves(w, ConfigGet(ip), w', r)
    ensures w' == w
  {
  }

  lemma ConfigListStepExact(w0: World, w: World, plan: Plan, m: Addr, w': World, r: Reply)
    requires SamePods(w0, w) && NodeStep(w0, w, plan.config, ConfigList) && Serves(w, ListPods, w', r)
    ensures NodesExact(w0, w', plan.config, Follow(m, AdvanceStep(plan, m, ConfigList, r)))
  {
    hide RunningIPs;
    hide ConfigFrom;
    if r.PodsAre? {
      ConfigListExact(w0, w, plan, m, r);
    }
  }

  lemma StepCovers(w: World, config: NodeConfig.Config, m: Addr, step: Step)
    requires (step.ReadingConfig? || step.WritingConfig?) && Achieved(w, config, m, step)
    ensures CoversPods(w, step.ips)
  {
    hide NodeConfig.Matches;
  }

  /** What an operator step leaves of the nodes' settings, up to where it leads. */
  lemma ConfigStepExact(w0: World, w: World, plan: Plan, m: Addr, step: Step, w': World, r: Reply, op': Op)
    requires step.ConfigList? || step.ReadingConfig? || step.WritingConfig?
    requires ActiveStep(plan, step) && WellAddressed(w) && SamePods(w0, w) && Achieved(w, plan.config, m, step)
    requires NodeStep(w0, w, plan.config, step)
    requires Serves(w, StepCommand(plan, m, step), w', r) && Advances(plan, Settled(m, step), r, op')
    ensures NodesExact(w0, w', plan.config, op')
  {
    hide NodeConfig.Matches;
    hide Serves;
    hide Achieved;
    hide NodeStep;
    hide NodesExact;
    hide RunningIPs;
    hide WriteFrom;
    hide ConfigFrom;
    hide CoversPods;
    hide WellAddressed;
    hide SamePods;
    match step {
      case ConfigList =>
        ConfigListStepExact(w0, w, plan, m, w', r);
      case ReadingConfig(ips, i) =>
        hide Advances;
        StepCovers(w, plan.config, m, step);
        ReadingKeepsWorld(w, ips[i], w', r);
        ReadingExact(w0, w, plan, m, ips, i, r, op');
      case WritingConfig(ips, i, keys, j) =>
        StepCovers(w, plan.config, m, step);
        WritingExact(w0, w, plan, m, ips, i, keys, j, w', r);
    }
  }

  lemma RefusedSetting(w: World, ip: Addr, key: string, value: string, w': World, r: Reply)
    requires Serves(w, ConfigSet(ip, key, value), w', r) && !r.Done?
    ensures w' == w && r == Failed
  {
  }

  lemma SettledNodesExact(w0: World, w: World, plan: Plan, m: Addr, step: Step, w': World, r: Reply, op': Op)
    requires ActiveStep(plan, step) && WellAddressed(w) && Achieved(w, plan.config, m, step)
    requires NodesExact(w0, w, plan.config, Settled(m, step))
    requires Serves(w, StepCommand(plan, m, step), w', r) && Advances(plan, Settled(m, step), r, op')
    ensures NodesExact(w0, w', plan.config, op')
  {
    hide NodeConfig.Matches;
    hide Achieved;
    hide Serves;
    hide StepCommand;
    if EarlyStep(step) || LateStep(step) {
      var course := AdvanceStep(plan, m, step, r);
      assert op' == Follow(m, course);
      hide AdvanceStep;
      hide Advances;
      if EarlyStep(step) {
        EarlyLeads(plan, m, step, r);
        ConfigsStay(w, StepCommand(plan, m, step), w', r);
        UntouchedChain(w0, w, w');
      } else {
        LateLeads(plan, m, step, r);
        ConfigsStay(w, StepCommand(plan, m, step), w', r);
        SameConfigs(w0, w, w', plan.config, step);
      }
    } else {
      hide Advances;
      hide NodeStep;
      ConfigStepExact(w0, w, plan, m, step, w', r, op');
    }
  }

  lemma OpNodesExact(w0: World, w: World, plan: Plan, op: Op, w': World, r: Reply, op': Op)
    requires Active(plan, op) && WellAddressed(w) && CleanFacts(w, plan, op) && NodesExact(w0, w, plan.config, op)
    requires Serves(w, NextCommand(plan, op), w', r) && Advances(plan, op, r, op')
    ensures NodesExact(w0, w', plan.config, op')
  {
    hide Serves;
    hide Achieved;
    hide NodeConfig.Matches;
    if op.Settled? {
      hide Advances;
      hide NodesExact;
      SettledNodesExact(w0, w, plan, op.m, op.step, w', r, op');
    } else {
      hide Advances;
      hide NextCommand;
      hide Active;
      EarlierLeads(plan, op, r, op');
      ConfigsStay(w, NextCommand(plan, op), w', r);
      UntouchedChain(w0, w, w');
    }
  }

  lemma EarlierLeads(plan: Plan, op: Op, r: Reply, op': Op)
    requires Active(plan, op) && !op.Settled? && Advances(plan, op, r, op')
    ensures op'.Settled? ==> op'.step.SlavesList?
    ensures op' != Finished(Healthy) && !op.Finished?
    ensures !NextCommand(plan, op).ConfigSet?
  {
    hide RunningIPs;
    hide NodeConfig.Matches;
  }

  lemma CleanNodesExact(w0: World, s: Sys, s': Sys)
    requires CleanInv(s) && CleanNext(s, s') && NodesExact(w0, s.world, s.plan.config, s.op)
    ensures NodesExact(w0, s'.world, s'.plan.config, s'.op)
  {
    hide NodesExact;
    hide CleanFacts;
    hide Serves;
    hide Advances;
    hide NextCommand;
    hide QuietStep;
    if QuietStep(s.world, s'.world) && s' == s.(world := s'.world) {
      QuietNodesExact(w0, s.world, s'.world, s.plan.config, s.op);
    } else {
      var r :| OpStep(s, Delivered, r, s');
      OpNodesExact(w0, s.world, s.plan, s.op, s'.world, r, s'.op);
    }
  }

  lemma QuietNodesExact(w0: World, w: World, w': World, spec: NodeConfig.Config, op: Op)
    requires QuietStep(w, w') && NodesExact(w0, w, spec, op)
    ensures NodesExact(w0, w', spec, op)
  {
    hide NodeConfig.Matches;
    hide Taken;
    assert forall id :: Runs(w', id) <==> Runs(w, id);
    if op.Settled? {
      SameConfigs(w0, w, w', spec, op.step);
    }
  }

  lemma {:induction false} NodesExactHolds(run: seq<Sys>, j: nat, k: nat)
    requires j <= k < |run| && CleanFrom(run, j, k) && Begins(run[j])
    ensures NodesExact(run[j].world, run[k].world, run[k].plan.config, run[k].op)
  {
    hide NodeConfig.Matches;
    hide CleanNext;
    if j < k {
      NodesExactHolds(run, j, k - 1);
      CleanHolds(run, j, k - 1);
      CleanNodesExact(run[j].world, run[k - 1], run[k]);
    }
  }

  /**
   * Exactly what a clean pass that ends well does to the settings of the nodes: one that
   * matched the specification is left as it was, and any other ends as its old settings
   * overridden by the normal form of the specification, whatever the order of the keys was.
   */
  lemma NodeSettingsExactly(run: seq<Sys>, j: nat, k: nat)
    requires j <= k < |run| && CleanFrom(run, j, k) && Begins(run[j]) && run[k].op == Finished(Healthy)
    ensures SamePods(run[j].world, run[k].world) && AllTaken(run[j].world, run[k].world, run[k].plan.config)
  {
    hide CleanFrom;
    hide AllTaken;
    NodesExactHolds(run, j, k);
  }
}
