/**
 * Split-brain safety. Over all interleavings of the operator's steps with crashes, restarts,
 * scaling and lost messages the operator never makes a second master, and never demotes one.
 */
module HealSafety {
  import opened Cluster
  import opened HealMachine

  /** Points between a count of zero and the first promotion. */
  predicate FoundNoMaster(op: Op) {
    op.SoleList? || op.PromoteSole? || op.AgeList? || op.OldestList? || (op.Promoting? && op.leader == "")
  }

  /** What the pass knows about the masters of the live world, although it looked at one pod at a time. */
  ghost predicate Knows(w: World, op: Op) {
    && (FoundNoMaster(op) ==> NoMaster(w))
    && (op.Promoting? && op.leader != "" ==> OnlyMasterAt(w, op.leader))
    && (op.Counting? && op.n == 0 ==> forall id :: IsMaster(w, id) ==> ToCome(w.pods[id].ip, op.ips, op.i))
    && (op.Locating? ==>
         && "" !in op.found
         && forall id :: IsMaster(w, id) ==> w.pods[id].ip in op.found || ToCome(w.pods[id].ip, op.ips, op.i))
    && (op.Settled? ==> op.m != "" && OnlyMasterAt(w, op.m))
  }

  ghost predicate ToCome(ip: Addr, ips: seq<Addr>, i: nat) {
    exists k :: i <= k < |ips| && ips[k] == ip
  }

  ghost predicate Inv(s: Sys) {
    WellAddressed(s.world) && Knows(s.world, s.op)
  }

  // ---------------------------------------------------------------- what commands do to roles

  /** Commands neither move nor start nor stop pods. */
  ghost predicate SamePods(w: World, w': World) {
    && (forall id :: Runs(w', id) <==> Runs(w, id))
    && (forall id :: Runs(w, id) ==> w'.pods[id].ip == w.pods[id].ip)
  }

  /** Everything but role changes and CONFIG SET leaves the pods alone. */
  lemma PodsUntouched(w: World, cmd: Command, w': World, r: Reply)
    requires Serves(w, cmd, w', r) && !ChangesRole(cmd) && !cmd.ConfigSet?
    ensures w'.pods == w.pods
  {
  }

  lemma ConfigEffect(w: World, cmd: Command, w': World, r: Reply)
    requires Serves(w, cmd, w', r) && cmd.ConfigSet?
    ensures SamePods(w, w') && forall id :: IsMaster(w', id) <==> IsMaster(w, id)
  {
  }

  lemma RoleEffect(w: World, cmd: Command, w': World, r: Reply)
    requires Serves(w, cmd, w', r) && ChangesRole(cmd)
    ensures SamePods(w, w')
    ensures cmd.SlaveOfNoOne? ==> forall id :: IsMaster(w', id) ==> IsMaster(w, id) || w.pods[id].ip == cmd.ip
    ensures cmd.SlaveOfNoOne? ==> forall id :: IsMaster(w, id) ==> IsMaster(w', id)
    ensures cmd.SlaveOfHost? ==> forall id :: IsMaster(w', id) ==> IsMaster(w, id)
    ensures cmd.SlaveOfHost? ==> forall id :: IsMaster(w, id) && w.pods[id].ip != cmd.ip ==> IsMaster(w', id)
  {
  }

  lemma EffectOnRoles(w: World, cmd: Command, fate: Fate, w': World, r: Reply)
    requires Happens(w, cmd, fate, w', r)
    ensures SamePods(w, w')
    ensures !ChangesRole(cmd) ==> forall id :: IsMaster(w', id) <==> IsMaster(w, id)
    ensures cmd.SlaveOfNoOne? ==> forall id :: IsMaster(w', id) ==> IsMaster(w, id) || w.pods[id].ip == cmd.ip
    ensures cmd.SlaveOfNoOne? ==> forall id :: IsMaster(w, id) ==> IsMaster(w', id)
    ensures cmd.SlaveOfHost? ==> forall id :: IsMaster(w', id) ==> IsMaster(w, id)
    ensures cmd.SlaveOfHost? ==> forall id :: IsMaster(w, id) && w.pods[id].ip != cmd.ip ==> IsMaster(w', id)
  {
    if fate != RequestLost {
      var r0 :| Serves(w, cmd, w', r0);
      if ChangesRole(cmd) {
        RoleEffect(w, cmd, w', r0);
      } else if cmd.ConfigSet? {
        ConfigEffect(w, cmd, w', r0);
      } else {
        PodsUntouched(w, cmd, w', r0);
      }
    }
  }

  lemma SameAddresses(w: World, w': World)
    requires WellAddressed(w) && SamePods(w, w')
    ensures WellAddressed(w')
  {
    forall a, b | Runs(w', a) && Runs(w', b) && w'.pods[a].ip == w'.pods[b].ip
      ensures a == b
    {
      assert Runs(w, a) && Runs(w, b);
    }
  }

  /** An answer about a role comes from the one pod at the address. */
  lemma RoleAnswer(w: World, ip: Addr, fate: Fate, w': World, r: Reply)
    requires WellAddressed(w) && Happens(w, InfoReplication(ip), fate, w', r) && r.RoleIs?
    ensures w' == w && ip != ""
    ensures forall id :: RunsAt(w, id, ip) ==> w.pods[id].role == r.role
    ensures r.role == Master ==> MasterAt(w, ip)
  {
    var id :| RunsAt(w, id, ip) && r == RoleIs(w.pods[id].role);
    assert Runs(w, id);
    assert forall b :: RunsAt(w, b, ip) ==> Runs(w, b);
  }

  /** A done promotion or re-pointing went to a real address. */
  lemma DoneWasReachable(w: World, ip: Addr, fate: Fate, w': World, r: Reply)
    requires WellAddressed(w) && Happens(w, SlaveOfNoOne(ip), fate, w', r) && r.Done?
    ensures ip != ""
  {
    var id :| id in w.pods && Answers(w.pods[id], ip);
    assert Runs(w, id);
  }

  // ---------------------------------------------------------------- the invariant

  lemma EnvKeeps(s: Sys, s': Sys)
    requires Inv(s) && WorldStep(s, s')
    ensures Inv(s')
    ensures forall id :: IsMaster(s'.world, id) ==> IsMaster(s.world, id)
  {
    forall id | IsMaster(s'.world, id)
      ensures IsMaster(s.world, id) && s'.world.pods[id].ip == s.world.pods[id].ip
    {
      EnvMakesNoMaster(s.world, s'.world, id);
    }
  }

  lemma Members(ips: seq<Addr>)
    ensures forall ip :: ip in ips ==> ToCome(ip, ips, 0)
  {
  }

  /** A pod that does not run at the next address of a scan is still to come, if it was. */
  lemma StillToCome(w: World, id: PodId, ips: seq<Addr>, i: nat)
    requires i < |ips| && Runs(w, id) && ToCome(w.pods[id].ip, ips, i)
    requires !RunsAt(w, id, ips[i])
    ensures ToCome(w.pods[id].ip, ips, i + 1)
  {
    var k :| i <= k < |ips| && ips[k] == w.pods[id].ip;
    assert k != i;
  }

  /** A scan of `GetNumberMasters` that ends with a count of zero has shown that there is no master. */
  lemma CountKnows(w: World, ips: seq<Addr>, i: nat, n: nat)
    requires i <= |ips|
    requires n == 0 ==> forall id :: IsMaster(w, id) ==> ToCome(w.pods[id].ip, ips, i)
    ensures Knows(w, CountFrom(ips, i, n))
  {
  }

  lemma ListingToCount(w: World, fate: Fate, w': World, r: Reply, plan: Plan)
    requires Happens(w, ListPods, fate, w', r) && r.PodsAre?
    ensures Knows(w', Advance(plan, CountList, r))
  {
    var ips := RunningIPs(r.pods);
    ListingCovers(r.pods, w);
    Members(ips);
    CountKnows(w, ips, 0, 0);
  }

  lemma CountingKeeps(w: World, ips: seq<Addr>, i: nat, n: nat, fate: Fate, w': World, r: Reply, plan: Plan)
    requires WellAddressed(w) && i < |ips| && Knows(w, Counting(ips, i, n))
    requires Happens(w, InfoReplication(ips[i]), fate, w', r)
    ensures Knows(w', Advance(plan, Counting(ips, i, n), r))
  {
    hide Happens;
    hide RunningIPs;
    EffectOnRoles(w, InfoReplication(ips[i]), fate, w', r);
    if r.RoleIs? {
      RoleAnswer(w, ips[i], fate, w', r);
      var n' := if r.role == Master then n + 1 else n;
      if n' == 0 {
        forall id | IsMaster(w, id)
          ensures ToCome(w.pods[id].ip, ips, i + 1)
        {
          assert !RunsAt(w, id, ips[i]);
          StillToCome(w, id, ips, i);
        }
      }
      CountKnows(w, ips, i + 1, n');
    }
  }

  /** A scan of `GetMasterIP` that finds one master has shown that every live master lives there. */
  lemma LocateKnows(w: World, ips: seq<Addr>, i: nat, found: seq<Addr>)
    requires i <= |ips| && "" !in found
    requires forall id :: IsMaster(w, id) ==> w.pods[id].ip in found || ToCome(w.pods[id].ip, ips, i)
    ensures Knows(w, LocateFrom(ips, i, found))
  {
    if i == |ips| && |found| == 1 {
      assert forall id :: IsMaster(w, id) ==> w.pods[id].ip in found;
      assert found[0] in found;
    }
  }

  lemma ListingToLocate(w: World, fate: Fate, w': World, r: Reply, plan: Plan)
    requires Happens(w, ListPods, fate, w', r) && r.PodsAre?
    ensures Knows(w', Advance(plan, MasterList, r))
  {
    var ips := RunningIPs(r.pods);
    ListingCovers(r.pods, w);
    Members(ips);
    LocateKnows(w, ips, 0, []);
  }

  lemma LocatingKeeps(w: World, ips: seq<Addr>, i: nat, found: seq<Addr>, fate: Fate, w': World, r: Reply, plan: Plan)
    requires WellAddressed(w) && i < |ips| && Knows(w, Locating(ips, i, found))
    requires Happens(w, InfoReplication(ips[i]), fate, w', r)
    ensures Knows(w', Advance(plan, Locating(ips, i, found), r))
  {
    hide Happens;
    hide RunningIPs;
    EffectOnRoles(w, InfoReplication(ips[i]), fate, w', r);
    if r.RoleIs? {
      RoleAnswer(w, ips[i], fate, w', r);
      var found' := if r.role == Master then found + [ips[i]] else found;
      forall id | IsMaster(w, id)
        ensures w.pods[id].ip in found' || ToCome(w.pods[id].ip, ips, i + 1)
      {
        if w.pods[id].ip !in found' {
          assert !RunsAt(w, id, ips[i]);
          StillToCome(w, id, ips, i);
        }
      }
      LocateKnows(w, ips, i + 1, found');
    }
  }

  /** Without a master, promoting one address leaves masters at that address only. */
  lemma FirstPromotion(w: World, ip: Addr, fate: Fate, w': World, r: Reply)
    requires WellAddressed(w) && (NoMaster(w) || OnlyMasterAt(w, ip)) && Happens(w, SlaveOfNoOne(ip), fate, w', r)
    ensures OnlyMasterAt(w', ip) && (r.Done? ==> ip != "")
  {
    EffectOnRoles(w, SlaveOfNoOne(ip), fate, w', r);
    forall id | IsMaster(w', id)
      ensures w'.pods[id].ip == ip
    {
      assert Runs(w, id);
    }
    if r.Done? {
      DoneWasReachable(w, ip, fate, w', r);
    }
  }

  lemma FollowersOnly(w: World, cmd: Command, m: Addr, fate: Fate, w': World, r: Reply)
    requires OnlyMasterAt(w, m) && !cmd.SlaveOfNoOne? && Happens(w, cmd, fate, w', r)
    ensures OnlyMasterAt(w', m)
  {
    EffectOnRoles(w, cmd, fate, w', r);
    forall id | IsMaster(w', id)
      ensures w'.pods[id].ip == m
    {
      assert Runs(w, id) && IsMaster(w, id);
    }
  }

  /** The commands of a settled pass: promotions go to m, the others are pointed to m. */
  lemma SettledCommands(plan: Plan, m: Addr, step: Step)
    requires ActiveStep(plan, step)
    ensures var cmd := StepCommand(plan, m, step);
      && (cmd.SlaveOfNoOne? ==> cmd.ip == m)
      && (cmd.SlaveOfHost? ==> cmd.ip != m && cmd.host == m)
      && (ChangesRole(cmd) ==> step.Repointing?)
      && (cmd.SentinelMonitor? ==> cmd.host == m)
  {
  }

  lemma SettledKeeps(s: Sys, fate: Fate, r: Reply, s': Sys)
    requires Inv(s) && OpStep(s, fate, r, s') && s.op.Settled?
    ensures Knows(s'.world, s'.op)
  {
    hide Happens;
    hide AdvanceStep;
    hide StepCommand;
    var m, cmd := s.op.m, StepCommand(s.plan, s.op.m, s.op.step);
    SettledCommands(s.plan, m, s.op.step);
    if cmd.SlaveOfNoOne? {
      FirstPromotion(s.world, m, fate, s'.world, r);
    } else {
      FollowersOnly(s.world, cmd, m, fate, s'.world, r);
    }
  }

  lemma PromotingKeeps(s: Sys, fate: Fate, r: Reply, s': Sys)
    requires Inv(s) && OpStep(s, fate, r, s') && (s.op.PromoteSole? || s.op.Promoting?)
    ensures Knows(s'.world, s'.op)
  {
    hide Happens;
    hide RunningIPs;
    var cmd := NextCommand(s.plan, s.op);
    if cmd.SlaveOfNoOne? {
      FirstPromotion(s.world, cmd.ip, fate, s'.world, r);
    } else {
      FollowersOnly(s.world, cmd, s.op.leader, fate, s'.world, r);
    }
  }

  lemma OpKeeps(s: Sys, fate: Fate, r: Reply, s': Sys)
    requires Inv(s) && OpStep(s, fate, r, s')
    ensures Inv(s')
  {
    hide Happens;
    hide RunningIPs;
    var w, w', cmd := s.world, s'.world, NextCommand(s.plan, s.op);
    EffectOnRoles(w, cmd, fate, w', r);
    SameAddresses(w, w');
    match s.op
    case CountList =>
      if r.PodsAre? {
        ListingToCount(w, fate, w', r, s.plan);
      }
    case Counting(ips, i, n) => CountingKeeps(w, ips, i, n, fate, w', r, s.plan);
    case MasterList =>
      if r.PodsAre? {
        ListingToLocate(w, fate, w', r, s.plan);
      }
    case Locating(ips, i, found) => LocatingKeeps(w, ips, i, found, fate, w', r, s.plan);
    case PromoteSole(_) => PromotingKeeps(s, fate, r, s');
    case Promoting(_, _, _) => PromotingKeeps(s, fate, r, s');
    case Settled(_, _) => SettledKeeps(s, fate, r, s');
    case _ =>
  }

  lemma NextKeeps(s: Sys, s': Sys)
    requires Inv(s) && Next(s, s')
    ensures Inv(s')
  {
    if WorldStep(s, s') {
      EnvKeeps(s, s');
    } else if !BeginPass(s, s') {
      var fate, r :| OpStep(s, fate, r, s');
      OpKeeps(s, fate, r, s');
    }
  }

  lemma {:induction false} InvHolds(run: seq<Sys>, k: nat)
    requires IsRun(run) && AtRest(run[0]) && k < |run|
    ensures Inv(run[k])
  {
    if k > 0 {
      InvHolds(run, k - 1);
      NextKeeps(run[k - 1], run[k]);
    }
  }

  // ---------------------------------------------------------------- safety

  lemma OpAddsNoSecondMaster(s: Sys, fate: Fate, r: Reply, s': Sys)
    requires Inv(s) && AtMostOneMaster(s.world) && OpStep(s, fate, r, s')
    ensures AtMostOneMaster(s'.world)
  {
    hide Happens;
    hide RunningIPs;
    hide StepCommand;
    hide AdvanceStep;
    hide Advances;
    var cmd := NextCommand(s.plan, s.op);
    EffectOnRoles(s.world, cmd, fate, s'.world, r);
    SameAddresses(s.world, s'.world);
    if cmd.SlaveOfNoOne? {
      if s.op.Settled? {
        SettledCommands(s.plan, s.op.m, s.op.step);
      }
      FirstPromotion(s.world, cmd.ip, fate, s'.world, r);
      OneAddressOneMaster(s'.world, cmd.ip);
    }
  }

  lemma NextAddsNoSecondMaster(s: Sys, s': Sys)
    requires Inv(s) && AtMostOneMaster(s.world) && Next(s, s')
    ensures AtMostOneMaster(s'.world)
  {
    if WorldStep(s, s') {
      EnvKeeps(s, s');
    } else if !BeginPass(s, s') {
      var fate, r :| OpStep(s, fate, r, s');
      OpAddsNoSecondMaster(s, fate, r, s');
    }
  }

  /**
   * From a state between passes with any number of masters: once there is at most one, there
   * never is a second again, whatever crashes, restarts, scalings, losses and passes follow.
   */
  lemma {:induction false} MastersNeverMultiply(run: seq<Sys>, j: nat, k: nat)
    requires IsRun(run) && AtRest(run[0]) && j <= k < |run|
    requires AtMostOneMaster(run[j].world)
    ensures AtMostOneMaster(run[k].world)
  {
    if j < k {
      MastersNeverMultiply(run, j, k - 1);
      InvHolds(run, k - 1);
      NextAddsNoSecondMaster(run[k - 1], run[k]);
    }
  }

  /** Split-brain safety: started with at most one master, a run never has two. */
  lemma NoSplitBrain(run: seq<Sys>, k: nat)
    requires IsRun(run) && AtRest(run[0]) && AtMostOneMaster(run[0].world) && k < |run|
    ensures AtMostOneMaster(run[k].world)
  {
    MastersNeverMultiply(run, 0, k);
  }

  /**
   * Even when a run starts with several masters: whenever the operator is about to change a
   * role or a sentinel's monitor, at most one master is alive at that moment.
   */
  lemma ActsOnlyOnOneMaster(run: seq<Sys>, k: nat)
    requires IsRun(run) && AtRest(run[0]) && k < |run| && Active(run[k].plan, run[k].op)
    requires var cmd := NextCommand(run[k].plan, run[k].op); ChangesRole(cmd) || ChangesMonitor(cmd)
    ensures AtMostOneMaster(run[k].world)
  {
    InvHolds(run, k);
    var s := run[k];
    if s.op.Settled? {
      OneAddressOneMaster(s.world, s.op.m);
    } else if s.op.Promoting? && s.op.leader != "" {
      OneAddressOneMaster(s.world, s.op.leader);
    } else {
      assert NoMaster(s.world);
    }
  }

  // ---------------------------------------------------------------- no demotion

  /** Whatever the step is, it is not the end of this pod's process. */
  ghost predicate Outlives(s: Sys, s': Sys, id: PodId) {
    WorldStep(s, s') && Runs(s.world, id) ==>
      id in s'.world.pods && Survives(s.world.pods[id], s'.world.pods[id])
  }

  lemma OpDemotesNoMaster(s: Sys, fate: Fate, r: Reply, s': Sys, id: PodId)
    requires Inv(s) && OpStep(s, fate, r, s')
    requires IsMaster(s.world, id) && !s.op.Promoting?
    ensures IsMaster(s'.world, id) && !s'.op.Promoting?
  {
    hide Happens;
    hide RunningIPs;
    hide StepCommand;
    hide AdvanceStep;
    var cmd := NextCommand(s.plan, s.op);
    EffectOnRoles(s.world, cmd, fate, s'.world, r);
    assert !FoundNoMaster(s.op);
    if s.op.Settled? {
      SettledCommands(s.plan, s.op.m, s.op.step);
    }
  }

  lemma NextDemotesNoMaster(s: Sys, s': Sys, id: PodId)
    requires Inv(s) && Next(s, s') && Outlives(s, s', id)
    requires IsMaster(s.world, id) && !s.op.Promoting?
    ensures IsMaster(s'.world, id) && !s'.op.Promoting?
  {
    if !WorldStep(s, s') && !BeginPass(s, s') {
      var fate, r :| OpStep(s, fate, r, s');
      OpDemotesNoMaster(s, fate, r, s', id);
    }
  }

  /**
   * A master that is there when a pass begins stays master for as long as its process lives,
   * through this pass and every later one, however they fail.
   */
  lemma {:induction false} MasterIsKept(run: seq<Sys>, j: nat, k: nat, id: PodId)
    requires IsRun(run) && AtRest(run[0]) && j <= k < |run|
    requires (run[j].op == RedisNumber || AtRest(run[j])) && IsMaster(run[j].world, id)
    requires forall t :: j <= t < k ==> Outlives(run[t], run[t + 1], id)
    ensures IsMaster(run[k].world, id) && !run[k].op.Promoting?
  {
    hide Next;
    hide Outlives;
    hide IsMaster;
    hide Inv;
    if j < k {
      MasterIsKept(run, j, k - 1, id);
      InvHolds(run, k - 1);
      NextDemotesNoMaster(run[k - 1], run[k], id);
    }
  }
}
