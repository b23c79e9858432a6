/**
 * Two runs, from rest, of a clean pass that reports success and leaves something undone: the
 * settings of a sentinel that an earlier pass failed to write, and a sentinel that was reset at
 * the end and has not found its replicas again.
 */
module HealWitness {
  import opened Basics
  import opened Cluster
  import opened HealMachine
  import opened HealClean
  import opened HealAccounting
  import opened HealProgress
  import opened HealSentinels
  import opened HealSettings
  import opened HealStable
  import opened HealTermination

  // ---------------------------------------------------------------- settings that stay missing

  /** What MONITOR without the commands behind it leaves: healed, and without the settings. */
  lemma HealedWithoutOptions() returns (w: World, m: Addr, id: PodId)
    ensures WellAddressed(w) && Healed(w, map[], m) && HostsNamed(w) && SentinelsAddressed(w)
    ensures SentinelRuns(w, id) && w.sentinels[id].monitored == Some(m) && w.sentinels[id].options == map[]
    ensures w.redisSet == Counts(1, 1) && w.sentinelSet == Counts(1, 1)
    ensures (exists pod :: pod in w.pods) && forall pod :: pod in w.pods ==> w.pods[pod].running
  {
    m, id := "10.0.0.1", "sentinel-0";
    var pod := Pod(m, true, 0, Master, map[]);
    var sentinel := Monitoring(Sentinel("10.0.0.2", true, None, map[], false, [], None), m);
    w := World(map["redis-0" := pod], map[id := sentinel], Counts(1, 1), Counts(1, 1), 0);
    assert IsMaster(w, "redis-0") && "redis-0" in w.pods;
  }

  lemma CleanIsNext(s: Sys, s': Sys)
    requires WellAddressed(s.world) && CleanNext(s, s')
    ensures Next(s, s')
  {
    hide OpStep;
    hide EnvStep;
    if QuietStep(s.world, s'.world) && s' == s.(world := s'.world) {
      QuietIsEnv(s.world, s'.world);
    } else {
      var r :| OpStep(s, Delivered, r, s');
    }
  }

  /** A clean pass, begun from rest, is a run. */
  lemma CleanPassIsRun(idle: Sys, pass: seq<Sys>)
    requires pass != [] && CleanFrom(pass, 0, |pass| - 1) && Begins(pass[0])
    requires AtRest(idle) && BeginPass(idle, pass[0])
    ensures IsRun([idle] + pass) && CleanFrom([idle] + pass, 1, |pass|)
  {
    hide CleanNext;
    hide Next;
    var run := [idle] + pass;
    forall t | 0 <= t < |run| - 1
      ensures Next(run[t], run[t + 1]) && (t > 0 ==> CleanNext(run[t], run[t + 1]))
    {
      if t == 0 {
        BeginIsNext(idle, pass[0]);
      } else {
        assert run[t] == pass[t - 1] && run[t + 1] == pass[t];
        assert CleanNext(pass[t - 1], pass[t - 1 + 1]);
        assert CleanFrom(pass, 0, t - 1);
        CleanHolds(pass, 0, t - 1);
        CleanIsNext(run[t], run[t + 1]);
      }
    }
  }

  lemma BeginIsNext(s: Sys, s': Sys)
    requires BeginPass(s, s')
    ensures Next(s, s')
  {
  }

  lemma EmptyLacks(plan: Plan)
    ensures !HasOptions(plan.password, map[])
  {
  }

  /**
   * The failing case as a run: from rest, a clean pass over an unchanged object that reports
   * success and leaves a running sentinel without the settings behind MONITOR.
   */
  lemma MissingOptionsStay() returns (run: seq<Sys>, id: PodId)
    ensures IsRun(run) && AtRest(run[0]) && run[0].op.Idle? && |run| > 1
    ensures Begins(run[1]) && run[1].plan.checkOnly && CleanFrom(run, 1, |run| - 1)
    ensures var last := run[|run| - 1];
      && last.op == Finished(Healthy)
      && SentinelRuns(last.world, id) && !HasOptions(last.plan.password, last.world.sentinels[id].options)
  {
    hide CleanFrom;
    hide Healed;
    hide HasOptions;
    hide IsRun;
    hide Fit;
    var w, m;
    w, m, id := HealedWithoutOptions();
    var plan := Plan(1, 1, map[], "", [], true);
    var idle, first := Sys(w, plan, Idle, []), Sys(w, plan, RedisNumber, []);
    assert Fit(w, plan) by { HealedFits(w, plan, m); }
    var pass := GoodPassExists(first, None);
    CleanPassIsRun(idle, pass);
    run := [idle] + pass;
    var m' := OptionsPresentIff(pass, 0, |pass| - 1);
    SameMaster(pass, m, m');
    EmptyLacks(pass[|pass| - 1].plan);
  }

  lemma HealedFits(w: World, plan: Plan, m: Addr)
    requires WellAddressed(w) && Healed(w, plan.config, m) && plan == Plan(1, 1, map[], "", [], true)
    requires w.redisSet == Counts(1, 1) && w.sentinelSet == Counts(1, 1)
    requires (exists pod :: pod in w.pods) && forall pod :: pod in w.pods ==> w.pods[pod].running
    ensures Fit(w, plan)
  {
    OneAddressOneMaster(w, m);
  }

  /** The master a clean pass began with is the one it ends with. */
  lemma SameMaster(pass: seq<Sys>, m: Addr, m': Addr)
    requires pass != [] && CleanFrom(pass, 0, |pass| - 1) && Begins(pass[0]) && pass[|pass| - 1].op == Finished(Healthy)
    requires MasterAt(pass[0].world, m) && Healed(pass[|pass| - 1].world, pass[|pass| - 1].plan.config, m')
    ensures m == m'
  {
    hide CleanFrom;
    hide AllConfigured;
    hide AllPointed;
    hide AllWatching;
    var id :| IsMaster(pass[0].world, id) && pass[0].world.pods[id].ip == m;
    CleanKeepsMaster(pass, 0, |pass| - 1, id);
    NodeSettingsExactly(pass, 0, |pass| - 1);
    assert Runs(pass[0].world, id);
  }

  // ---------------------------------------------------------------- a sentinel that is reset and not waited for

  /** Whoever lists the sentinels finds this one. */
  ghost predicate AllFind(log: seq<Event>, sip: Addr) {
    forall e :: e in log && e.cmd == ListSentinels && e.reply.SentinelsAre? ==> sip in RunningSentinelIPs(e.reply.sentinels)
  }

  lemma StepFinds(s: Sys, r: Reply, s': Sys, id: PodId, sip: Addr)
    requires OpStep(s, Delivered, r, s') && SentinelRunsAt(s.world, id, sip) && AllFind(s.log, sip)
    ensures SentinelRunsAt(s'.world, id, sip) && AllFind(s'.log, sip)
  {
    hide Serves;
    hide Advances;
    hide NextCommand;
    hide RunningSentinelIPs;
    var cmd := NextCommand(s.plan, s.op);
    assert SentinelRuns(s.world, id);
    if ToSentinel(cmd) {
      SentinelEffect(s.world, cmd, s'.world, r);
    } else {
      OtherEffect(s.world, cmd, s'.world, r);
      if cmd == ListSentinels && r.SentinelsAre? {
        ListingFinds(s.world, s'.world, r, id, sip);
      }
    }
  }

  lemma ListingFinds(w: World, w': World, r: Reply, id: PodId, sip: Addr)
    requires Serves(w, ListSentinels, w', r) && r.SentinelsAre? && SentinelRunsAt(w, id, sip)
    ensures sip in RunningSentinelIPs(r.sentinels)
  {
    hide RunningSentinelIPs;
    SentinelListingCovers(r.sentinels, w);
  }

  lemma {:induction false} RunFinds(run: seq<Sys>, k: nat, id: PodId, sip: Addr)
    requires k < |run| && CleanFrom(run, 0, k) && SentinelRunsAt(run[0].world, id, sip) && AllFind(run[0].log, sip)
    ensures SentinelRunsAt(run[k].world, id, sip) && AllFind(run[k].log, sip)
  {
    hide OpStep;
    hide AllFind;
    if k > 0 {
      RunFinds(run, k - 1, id, sip);
      var s, s' := run[k - 1], run[k];
      assert CleanNext(s, s');
      if QuietStep(s.world, s'.world) && s' == s.(world := s'.world) {
        assert LearnsOnly(s.world.sentinels[id], s'.world.sentinels[id]);
      } else {
        var r :| OpStep(s, Delivered, r, s');
        StepFinds(s, r, s', id, sip);
      }
    }
  }

  /** A listed sentinel that was asked and told a wrong number of peers is not confirmed at the end. */
  lemma WrongIsUnconfirmed(run: seq<Sys>, k: nat, sip: Addr, peers: int)
    requires IsRun(run) && run[0].op.Idle? && k < |run| && run[k].op == Finished(Healthy)
    requires AllTell(run[k].log, Some(peers)) && peers != run[k].plan.sentinels && AllFind(run[k].log, sip)
    ensures !Confirmed(run[k].log, run[k].plan.size, sip)
    ensures exists sips :: Listed(run[k].log, sips) && sip in sips
  {
    hide IsRun;
    hide Confirmed;
    hide RunningSentinelIPs;
    var log, plan := run[k].log, run[k].plan;
    var sips, t := EverySentinelConfirmed(run, k);
    var l :| ListedAt(log, sips, l);
    assert log[l] in log;
    var j :| 0 <= j < |sips| && sips[j] == sip;
    var a :| t <= a < |log| && 0 <= a && log[a].cmd == SentinelInfo(sip);
    assert log[a] in log;
    assert Tells(log[a].cmd, log[a].reply, Some(peers));
    assert !AnsweredRightFrom(plan, log, t, sip);
  }

  /**
   * The failing case as a run: from rest, a clean pass that reports success, and a sentinel
   * that it listed and whose report of replicas does not stand at the end, because it told of a
   * peer too many and was reset for it.
   */
  lemma UnconfirmedAtTheEnd() returns (run: seq<Sys>, sip: Addr)
    ensures IsRun(run) && AtRest(run[0]) && run[0].op.Idle? && |run| > 1
    ensures Begins(run[1]) && CleanFrom(run, 1, |run| - 1)
    ensures var last := run[|run| - 1];
      && last.op == Finished(Healthy)
      && (exists sips :: Listed(last.log, sips) && sip in sips)
      && !Confirmed(last.log, last.plan.size, sip)
      && forall e :: e in last.log && e.cmd.SentinelInfo? ==> e.reply == InfoIs(true, Some(last.plan.sentinels + 1))
  {
    hide CleanFrom;
    hide Healed;
    hide IsRun;
    hide Fit;
    hide Confirmed;
    hide Listed;
    var w, m, id := HealedWithoutOptions();
    sip := w.sentinels[id].ip;
    var plan := Plan(1, 1, map[], "", [], true);
    var idle, first := Sys(w, plan, Idle, []), Sys(w, plan, RedisNumber, []);
    assert Fit(w, plan) by { HealedFits(w, plan, m); }
    var pass := GoodPassExists(first, Some(2));
    CleanPassIsRun(idle, pass);
    run := [idle] + pass;
    var n := |pass| - 1;
    assert run[n + 1] == pass[n];
    RunFinds(pass, n, id, sip);
    CleanKeepsPlan(pass, 0, n);
    WrongIsUnconfirmed(run, n + 1, sip, 2);
  }
}
