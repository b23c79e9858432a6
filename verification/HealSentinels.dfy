/**
 * Exactly what a clean pass that ends well leaves in the settings of the sentinels, as a
 * function of what each of them monitored and had set when the pass began.
 */
module HealSentinels {
  import opened Basics
  import opened Cluster
  import opened HealMachine
  import opened HealClean
  import opened HealStable
  import NodeConfig
  import Quorum

  type Options = map<string, string>

  // ---------------------------------------------------------------- what a pass makes of a sentinel's settings

  /** A fresh monitor with the first n of the settings that follow MONITOR. */
  ghost function OptionsAfter(plan: Plan, n: nat): Options
    requires n <= |MonitorOptions(plan)|
  {
    if n == 0 then map[]
    else
      var option := MonitorOptions(plan)[n - 1];
      OptionsAfter(plan, n - 1)[option.0 := option.1]
  }

  /** The first n custom settings, written over what is there. */
  ghost function CustomOver(plan: Plan, options: Options, n: nat): Options
    requires n <= |plan.customConfig|
  {
    if n == 0 then options
    else
      match GetConfigParameters(plan.customConfig[n - 1])
      case None => CustomOver(plan, options, n - 1)
      case Some(parts) => CustomOver(plan, options, n - 1)[parts.0 := parts.1]
  }

  /** A sentinel that monitored m keeps its settings; any other is given the settings of a fresh monitor. */
  ghost function Base(plan: Plan, m: Addr, s0: Sentinel): Options {
    if s0.monitored == Some(m) then s0.options else FreshOptions(plan.password)
  }

  /** All the settings of a fresh monitor. */
  ghost function FreshOptions(password: string): Options {
    if password == "" then
      map["down-after-milliseconds" := "5000", "failover-timeout" := "3000", "parallel-syncs" := "2"]
    else
      map["auth-pass" := password, "down-after-milliseconds" := "5000", "failover-timeout" := "3000", "parallel-syncs" := "2"]
  }

  lemma OptionsAreFresh(plan: Plan)
    ensures OptionsAfter(plan, |MonitorOptions(plan)|) == FreshOptions(plan.password)
  {
    var n := |MonitorOptions(plan)|;
    assert OptionsAfter(plan, n - 3) == if plan.password == "" then map[] else map["auth-pass" := plan.password];
    assert OptionsAfter(plan, n - 2) == OptionsAfter(plan, n - 3)["down-after-milliseconds" := "5000"];
    assert OptionsAfter(plan, n - 1) == OptionsAfter(plan, n - 2)["failover-timeout" := "3000"];
    assert OptionsAfter(plan, n) == OptionsAfter(plan, n - 1)["parallel-syncs" := "2"];
  }

  ghost function Final(plan: Plan, m: Addr, s0: Sentinel): Options {
    if plan.checkOnly then Base(plan, m, s0) else CustomOver(plan, Base(plan, m, s0), |plan.customConfig|)
  }

  // ---------------------------------------------------------------- where each sentinel is during the pass

  ghost predicate Unchanged(s0: Sentinel, s: Sentinel) {
    s.monitored == s0.monitored && s.options == s0.options
  }

  ghost predicate Watches(s: Sentinel, m: Addr, options: Options) {
    s.monitored == Some(m) && s.options == options
  }

  /** During the first loop: the sentinels before position i have been seen to. */
  ghost predicate Turned(plan: Plan, m: Addr, sips: seq<Addr>, i: nat, s0: Sentinel, s: Sentinel) {
    if Before(s0.ip, sips, i) then Watches(s, m, Base(plan, m, s0)) else Unchanged(s0, s)
  }

  ghost predicate Stage(plan: Plan, m: Addr, sips: seq<Addr>, i: nat, task: Task, s0: Sentinel, s: Sentinel)
    requires i < |sips| && ActiveTask(plan, task)
  {
    match task
    case CheckMonitor => Turned(plan, m, sips, i, s0, s)
    case Remove => if s0.ip == sips[i] then s0.monitored != Some(m) else Turned(plan, m, sips, i, s0, s)
    case Install => if s0.ip == sips[i] then s0.monitored != Some(m) else Turned(plan, m, sips, i, s0, s)
    case SetOption(j) =>
      if s0.ip == sips[i] then s0.monitored != Some(m) && Watches(s, m, OptionsAfter(plan, j))
      else Turned(plan, m, sips, i, s0, s)
    case SetCustom(j) => Customised(plan, m, sips, i, j, s0, s)
    case _ => Watches(s, m, Base(plan, m, s0))
  }

  ghost predicate Customised(plan: Plan, m: Addr, sips: seq<Addr>, i: nat, j: nat, s0: Sentinel, s: Sentinel)
    requires j <= |plan.customConfig|
  {
    Watches(s, m,
      if Before(s0.ip, sips, i) then CustomOver(plan, Base(plan, m, s0), |plan.customConfig|)
      else if i < |sips| && s0.ip == sips[i] then CustomOver(plan, Base(plan, m, s0), j)
      else Base(plan, m, s0))
  }

  ghost predicate AllStaged(w0: World, w: World, plan: Plan, m: Addr, sips: seq<Addr>, i: nat, task: Task)
    requires i < |sips| && ActiveTask(plan, task)
  {
    forall id :: SentinelRuns(w0, id) && SentinelRuns(w, id) ==> Stage(plan, m, sips, i, task, w0.sentinels[id], w.sentinels[id])
  }

  ghost predicate AllFinal(w0: World, w: World, plan: Plan, m: Addr) {
    forall id :: SentinelRuns(w0, id) && SentinelRuns(w, id) ==> Watches(w.sentinels[id], m, Final(plan, m, w0.sentinels[id]))
  }

  ghost predicate AllUnchanged(w0: World, w: World) {
    forall id :: SentinelRuns(w0, id) && SentinelRuns(w, id) ==> Unchanged(w0.sentinels[id], w.sentinels[id])
  }

  ghost predicate AllTurned(w0: World, w: World, plan: Plan, m: Addr, sips: seq<Addr>, i: nat) {
    forall id :: SentinelRuns(w0, id) && SentinelRuns(w, id) ==> Turned(plan, m, sips, i, w0.sentinels[id], w.sentinels[id])
  }

  ghost predicate AllBased(w0: World, w: World, plan: Plan, m: Addr) {
    forall id :: SentinelRuns(w0, id) && SentinelRuns(w, id) ==> Watches(w.sentinels[id], m, Base(plan, m, w0.sentinels[id]))
  }

  ghost predicate AllCustomised(w0: World, w: World, plan: Plan, m: Addr, sips: seq<Addr>, i: nat, j: nat)
    requires j <= |plan.customConfig|
  {
    forall id :: SentinelRuns(w0, id) && SentinelRuns(w, id) ==> Customised(plan, m, sips, i, j, w0.sentinels[id], w.sentinels[id])
  }

  ghost predicate SentinelStep(w0: World, w: World, plan: Plan, m: Addr, step: Step) {
    match step
    case AtSentinel(sips, i, task) =>
      && i < |sips| && Distinct(sips) && ActiveTask(plan, task) && (task.SetCustom? ==> !plan.checkOnly)
      && AllStaged(w0, w, plan, m, sips, i, task)
    case ReadyCheck(_) => AllFinal(w0, w, plan, m)
    case _ => AllUnchanged(w0, w)
  }

  ghost predicate SentinelCourse(w0: World, w: World, plan: Plan, m: Addr, course: Course) {
    match course
    case Go(step) => SentinelStep(w0, w, plan, m, step)
    case Stop(outcome) => outcome != Healthy
  }

  // ---------------------------------------------------------------- effects of single commands

  lemma ActElsewhere(w: World, sip: Addr, w': World, r: Reply, act: Sentinel -> (Sentinel, Reply))
    requires SentinelServes(w, sip, w', r, act)
    requires forall s :: act(s).0.ip == s.ip && act(s).0.running == s.running
    ensures SameSentinels(w, w')
    ensures forall id :: SentinelRuns(w, id) && w.sentinels[id].ip != sip ==> w'.sentinels[id] == w.sentinels[id]
    ensures (forall s :: Unchanged(s, act(s).0)) ==> AllUnchanged(w, w')
  {
  }

  /** The sentinels elsewhere do not notice, and questions and RESET leave monitors and settings as they are. */
  lemma ElsewhereStays(w: World, cmd: Command, w': World, r: Reply)
    requires Serves(w, cmd, w', r) && ToSentinel(cmd)
    ensures SameSentinels(w, w')
    ensures forall id :: SentinelRuns(w, id) && w.sentinels[id].ip != cmd.sip ==> w'.sentinels[id] == w.sentinels[id]
    ensures !ChangesMonitor(cmd) && !cmd.SentinelSet? ==> AllUnchanged(w, w')
  {
    hide SentinelServes;
    hide AllUnchanged;
    match cmd {
      case SentinelMaster(sip) => ActElsewhere(w, sip, w', r, (s: Sentinel) => (s, if s.monitored.Some? then MonitorIs(s.monitored.value) else Failed));
      case SentinelRemove(sip) => ActElsewhere(w, sip, w', r, (s: Sentinel) => (Removed(s), if s.monitored.Some? then Done else Failed));
      case SentinelMonitor(sip, host, quorum) =>
        ActElsewhere(w, sip, w', r, (s: Sentinel) => if s.monitored.Some? then (s, Failed) else (Monitoring(s, host), Done));
      case SentinelSet(sip, param, setting) =>
        if !(w' == w && r == Failed) {
          ActElsewhere(w, sip, w', r, (s: Sentinel) =>
            if s.monitored.Some? then (s.(options := s.options[param := setting]), Done) else (s, Failed));
        }
      case SentinelInfo(sip) => ActElsewhere(w, sip, w', r, (s: Sentinel) => (s, InfoIs(s.statusOk, s.peers)));
      case SentinelSlaves(sip) =>
        ActElsewhere(w, sip, w', r, (s: Sentinel) => (s, if s.monitored.Some? then BlobsAre(s.blobs) else Failed));
      case SentinelReset(sip) => ActElsewhere(w, sip, w', r, (s: Sentinel) => (Forgetful(s), Done));
    }
  }

  lemma SettingsStay(w: World, cmd: Command, w': World, r: Reply)
    requires Serves(w, cmd, w', r) && !ChangesMonitor(cmd) && !cmd.SentinelSet?
    ensures SameSentinels(w, w') && AllUnchanged(w, w')
  {
    hide Serves;
    if ToSentinel(cmd) {
      ElsewhereStays(w, cmd, w', r);
    } else {
      OtherEffect(w, cmd, w', r);
    }
  }

  lemma MonitorReached(w: World, sip: Addr, w': World, r: Reply, id: PodId)
    requires SentinelsAddressed(w) && SentinelRunsAt(w, id, sip) && Serves(w, SentinelMaster(sip), w', r)
    ensures r == if w.sentinels[id].monitored.Some? then MonitorIs(w.sentinels[id].monitored.value) else Failed
  {
    assert forall a :: SentinelRunsAt(w, a, sip) ==> SentinelRuns(w, a);
    assert SentinelRuns(w, id);
  }

  lemma Installed(w: World, sip: Addr, host: Addr, quorum: int, w': World, r: Reply)
    requires SentinelsAddressed(w) && Serves(w, SentinelMonitor(sip, host, quorum), w', r) && r.Done?
    ensures forall id :: SentinelRunsAt(w, id, sip) ==> w'.sentinels[id] == Monitoring(w.sentinels[id], host)
  {
    assert forall a, b :: SentinelRunsAt(w, a, sip) && SentinelRunsAt(w, b, sip) ==> SentinelRuns(w, a) && SentinelRuns(w, b) && a == b;
  }

  lemma OptionWritten(w: World, sip: Addr, param: string, setting: string, w': World, r: Reply)
    requires SentinelsAddressed(w) && Serves(w, SentinelSet(sip, param, setting), w', r) && r.Done?
    ensures forall id :: SentinelRunsAt(w, id, sip) ==>
      w'.sentinels[id] == w.sentinels[id].(options := w.sentinels[id].options[param := setting])
  {
    assert forall a, b :: SentinelRunsAt(w, a, sip) && SentinelRunsAt(w, b, sip) ==> SentinelRuns(w, a) && SentinelRuns(w, b) && a == b;
  }

  /** With addresses of their own no sentinel is listed twice. */
  lemma {:induction false} SentinelListingIsDistinct(items: seq<SentinelView>, w: World)
    requires SentinelsAddressed(w)
    requires forall k :: 0 <= k < |items| ==>
      items[k].id in w.sentinels && items[k] == SentinelViewOf(items[k].id, w.sentinels[items[k].id])
    requires forall j, k :: 0 <= j < k < |items| ==> items[j].id != items[k].id
    ensures Distinct(RunningSentinelIPs(items))
  {
    if items != [] {
      var n := |items| - 1;
      var front, last := items[..n], items[n];
      SentinelListingIsDistinct(front, w);
      if last.running {
        forall k | 0 <= k < n && front[k].running
          ensures front[k].ip != last.ip
        {
          assert SentinelRuns(w, front[k].id) && SentinelRuns(w, last.id);
        }
        RunningSentinelIPsMembers(front, last.ip);
      }
    }
  }

  // ---------------------------------------------------------------- loop heads

  lemma {:induction false} CustomHead(w0: World, w: World, plan: Plan, m: Addr, sips: seq<Addr>, i: nat, j: nat)
    requires i <= |sips| && j <= |plan.customConfig| && !plan.checkOnly
    requires SameSentinels(w0, w) && Distinct(sips) && CoversSentinels(w, sips) && AllCustomised(w0, w, plan, m, sips, i, j)
    ensures SentinelCourse(w0, w, plan, m, CustomFrom(plan, sips, i, j))
    decreases |sips| - i
  {
    hide GetConfigParameters;
    hide Base;
    hide CustomOver;
    hide Distinct;
    if i == |sips| {
      forall id | SentinelRuns(w0, id) && SentinelRuns(w, id)
        ensures Watches(w.sentinels[id], m, Final(plan, m, w0.sentinels[id]))
      {
        BeforeEnd(w0.sentinels[id].ip, sips);
      }
    } else if j == |plan.customConfig| {
      forall id | SentinelRuns(w0, id) && SentinelRuns(w, id)
        ensures Customised(plan, m, sips, i + 1, 0, w0.sentinels[id], w.sentinels[id])
      {
        NextIsBase(plan, m, sips, i, w0.sentinels[id], w.sentinels[id]);
      }
      CustomHead(w0, w, plan, m, sips, i + 1, 0);
    }
  }

  /** The turn of the next sentinel begins at what the loops before left. */
  lemma NextIsBase(plan: Plan, m: Addr, sips: seq<Addr>, i: nat, s0: Sentinel, s: Sentinel)
    requires i < |sips| && Customised(plan, m, sips, i, |plan.customConfig|, s0, s)
    ensures Customised(plan, m, sips, i + 1, 0, s0, s)
  {
    BeforeNext(s0.ip, sips, i);
  }

  lemma PeersHead(w0: World, w: World, plan: Plan, m: Addr, sips: seq<Addr>, i: nat)
    requires SameSentinels(w0, w) && Distinct(sips) && CoversSentinels(w, sips) && AllBased(w0, w, plan, m)
    ensures SentinelCourse(w0, w, plan, m, PeersFrom(plan, sips, i))
    ensures SentinelCourse(w0, w, plan, m, MemoryFrom(plan, sips, i))
  {
    hide Base;
    hide Distinct;
    if !plan.checkOnly {
      CustomHead(w0, w, plan, m, sips, 0, 0);
    }
  }

  lemma MonitorHead(w0: World, w: World, plan: Plan, m: Addr, sips: seq<Addr>, i: nat)
    requires i <= |sips| && SameSentinels(w0, w) && Distinct(sips) && CoversSentinels(w, sips)
    requires AllTurned(w0, w, plan, m, sips, i)
    ensures SentinelCourse(w0, w, plan, m, MonitorFrom(plan, sips, i))
  {
    hide Base;
    hide Distinct;
    hide MemoryFrom;
    if i == |sips| {
      forall id | SentinelRuns(w0, id) && SentinelRuns(w, id)
        ensures Watches(w.sentinels[id], m, Base(plan, m, w0.sentinels[id]))
      {
        BeforeEnd(w0.sentinels[id].ip, sips);
      }
      PeersHead(w0, w, plan, m, sips, 0);
    }
  }

  /** The sentinel at position i has the first j settings of its fresh monitor; the others are as the loop has left them. */
  ghost predicate AllSetting(w0: World, w: World, plan: Plan, m: Addr, sips: seq<Addr>, i: nat, j: nat)
    requires i < |sips| && j <= |MonitorOptions(plan)|
  {
    forall id :: SentinelRuns(w0, id) && SentinelRuns(w, id) ==>
      if w0.sentinels[id].ip == sips[i]
      then w0.sentinels[id].monitored != Some(m) && Watches(w.sentinels[id], m, OptionsAfter(plan, j))
      else Turned(plan, m, sips, i, w0.sentinels[id], w.sentinels[id])
  }

  lemma OptionHead(w0: World, w: World, plan: Plan, m: Addr, sips: seq<Addr>, i: nat, j: nat)
    requires i < |sips| && j <= |MonitorOptions(plan)| && SameSentinels(w0, w) && Distinct(sips) && CoversSentinels(w, sips)
    requires AllSetting(w0, w, plan, m, sips, i, j)
    ensures SentinelCourse(w0, w, plan, m, OptionFrom(plan, sips, i, j))
  {
    hide MonitorOptions;
    hide Distinct;
    hide MonitorFrom;
    if j == |MonitorOptions(plan)| {
      OptionsAreFresh(plan);
      forall id | SentinelRuns(w0, id) && SentinelRuns(w, id)
        ensures Turned(plan, m, sips, i + 1, w0.sentinels[id], w.sentinels[id])
      {
        BeforeNext(w0.sentinels[id].ip, sips, i);
      }
      MonitorHead(w0, w, plan, m, sips, i + 1);
    }
  }

  // ---------------------------------------------------------------- the loop that makes the sentinels watch m

  lemma CheckExact(w0: World, w: World, plan: Plan, m: Addr, sips: seq<Addr>, i: nat, r: Reply)
    requires i < |sips| && SentinelsAddressed(w) && SameSentinels(w0, w) && Distinct(sips) && CoversSentinels(w, sips)
    requires AllTurned(w0, w, plan, m, sips, i) && Serves(w, SentinelMaster(sips[i]), w, r)
    ensures SentinelCourse(w0, w, plan, m, AdvanceTask(plan, m, sips, i, CheckMonitor, r))
  {
    hide Serves;
    hide MonitorFrom;
    hide Before;
    forall id | SentinelRuns(w0, id) && SentinelRuns(w, id)
      ensures r == MonitorIs(m) ==> Turned(plan, m, sips, i + 1, w0.sentinels[id], w.sentinels[id])
      ensures r != MonitorIs(m) && w0.sentinels[id].ip == sips[i] ==> w0.sentinels[id].monitored != Some(m)
    {
      BeforeNext(w0.sentinels[id].ip, sips, i);
      if w0.sentinels[id].ip == sips[i] {
        OnlyOnce(sips[i], sips, i);
        MonitorReached(w, sips[i], w, r, id);
      }
    }
    if r == MonitorIs(m) {
      MonitorHead(w0, w, plan, m, sips, i + 1);
    }
  }

  lemma RemoveExact(w0: World, w: World, plan: Plan, m: Addr, sips: seq<Addr>, i: nat, w': World, r: Reply)
    requires i < |sips| && SameSentinels(w0, w) && Distinct(sips)
    requires AllStaged(w0, w, plan, m, sips, i, Remove) && Serves(w, SentinelRemove(sips[i]), w', r)
    ensures SameSentinels(w0, w') && SentinelStep(w0, w', plan, m, AtSentinel(sips, i, Install))
  {
    hide Serves;
    hide Before;
    hide Base;
    hide Distinct;
    ElsewhereStays(w, SentinelRemove(sips[i]), w', r);
  }

  lemma InstallExact(w0: World, w: World, plan: Plan, m: Addr, sips: seq<Addr>, i: nat, quorum: int, w': World)
    requires i < |sips| && SentinelsAddressed(w) && SameSentinels(w0, w) && Distinct(sips) && CoversSentinels(w, sips)
    requires AllStaged(w0, w, plan, m, sips, i, Install) && Serves(w, SentinelMonitor(sips[i], m, quorum), w', Done)
    ensures SameSentinels(w0, w') && SentinelCourse(w0, w', plan, m, OptionFrom(plan, sips, i, 0))
  {
    hide Serves;
    hide Before;
    hide Base;
    hide Distinct;
    hide OptionFrom;
    ElsewhereStays(w, SentinelMonitor(sips[i], m, quorum), w', Done);
    Installed(w, sips[i], m, quorum, w', Done);
    forall id | SentinelRuns(w0, id) && SentinelRuns(w', id) && w0.sentinels[id].ip == sips[i]
      ensures Watches(w'.sentinels[id], m, OptionsAfter(plan, 0))
    {
      assert SentinelRunsAt(w, id, sips[i]);
    }
    OptionHead(w0, w', plan, m, sips, i, 0);
  }

  lemma SettingExact(w0: World, w: World, plan: Plan, m: Addr, sips: seq<Addr>, i: nat, j: nat, w': World)
    requires i < |sips| && j < |MonitorOptions(plan)|
    requires SentinelsAddressed(w) && SameSentinels(w0, w) && Distinct(sips) && CoversSentinels(w, sips)
    requires AllStaged(w0, w, plan, m, sips, i, SetOption(j))
    requires Serves(w, SentinelSet(sips[i], MonitorOptions(plan)[j].0, MonitorOptions(plan)[j].1), w', Done)
    ensures SameSentinels(w0, w') && SentinelCourse(w0, w', plan, m, OptionFrom(plan, sips, i, j + 1))
  {
    hide Serves;
    hide Before;
    hide Base;
    hide Distinct;
    hide OptionFrom;
    hide MonitorOptions;
    var option := MonitorOptions(plan)[j];
    ElsewhereStays(w, SentinelSet(sips[i], option.0, option.1), w', Done);
    OptionWritten(w, sips[i], option.0, option.1, w', Done);
    forall id | SentinelRuns(w0, id) && SentinelRuns(w', id) && w0.sentinels[id].ip == sips[i]
      ensures Watches(w'.sentinels[id], m, OptionsAfter(plan, j + 1))
    {
      assert SentinelRunsAt(w, id, sips[i]);
    }
    OptionHead(w0, w', plan, m, sips, i, j + 1);
  }

  // ---------------------------------------------------------------- the later loops

  lemma CustomExact(w0: World, w: World, plan: Plan, m: Addr, sips: seq<Addr>, i: nat, j: nat, w': World)
    requires i < |sips| && ActiveTask(plan, SetCustom(j)) && !plan.checkOnly
    requires SentinelsAddressed(w) && SameSentinels(w0, w) && Distinct(sips) && CoversSentinels(w, sips)
    requires AllStaged(w0, w, plan, m, sips, i, SetCustom(j))
    requires var parts := GetConfigParameters(plan.customConfig[j]).value;
      Serves(w, SentinelSet(sips[i], parts.0, parts.1), w', Done)
    ensures SameSentinels(w0, w') && SentinelCourse(w0, w', plan, m, CustomFrom(plan, sips, i, j + 1))
  {
    hide Serves;
    hide Before;
    hide Base;
    hide CustomFrom;
    hide GetConfigParameters;
    var parts := GetConfigParameters(plan.customConfig[j]).value;
    ElsewhereStays(w, SentinelSet(sips[i], parts.0, parts.1), w', Done);
    OptionWritten(w, sips[i], parts.0, parts.1, w', Done);
    OnlyOnce(sips[i], sips, i);
    forall id | SentinelRuns(w0, id) && SentinelRuns(w', id)
      ensures Customised(plan, m, sips, i, j + 1, w0.sentinels[id], w'.sentinels[id])
    {
      if w0.sentinels[id].ip == sips[i] {
        assert SentinelRunsAt(w, id, sips[i]);
      }
    }
    CustomHead(w0, w', plan, m, sips, i, j + 1);
  }

  lemma UnchangedKeepsBased(w0: World, w: World, w': World, plan: Plan, m: Addr)
    requires SameSentinels(w0, w) && SameSentinels(w, w') && AllUnchanged(w, w') && AllBased(w0, w, plan, m)
    ensures SameSentinels(w0, w') && AllBased(w0, w', plan, m)
  {
    hide Base;
  }

  /** Tasks that ask, wait and reset. */
  predicate Asks(task: Task) {
    !(task.CheckMonitor? || task.Remove? || task.Install? || task.SetOption? || task.SetCustom?)
  }

  /** Such a task leads to another one at the same sentinel, to a later loop head, or to an error. */
  lemma AskLeads(plan: Plan, m: Addr, sips: seq<Addr>, i: nat, task: Task, r: Reply)
    requires i < |sips| && Asks(task)
    ensures var c := AdvanceTask(plan, m, sips, i, task, r);
      || c == MemoryFrom(plan, sips, i + 1) || c == PeersFrom(plan, sips, i + 1) || c == Stop(Broken)
      || (c.Go? && c.step.AtSentinel? && c.step.sips == sips && c.step.i == i && Asks(c.step.task))
  {
    hide MonitorFrom;
    hide OptionFrom;
    hide MemoryFrom;
    hide PeersFrom;
    hide CustomFrom;
  }

  lemma BasedIsStaged(w0: World, w: World, plan: Plan, m: Addr, sips: seq<Addr>, i: nat, task: Task)
    requires i < |sips| && Asks(task) && Distinct(sips) && AllBased(w0, w, plan, m)
    ensures SentinelStep(w0, w, plan, m, AtSentinel(sips, i, task))
  {
    hide Base;
    hide Distinct;
  }

  lemma AskExact(w0: World, w: World, plan: Plan, m: Addr, sips: seq<Addr>, i: nat, task: Task, w': World, r: Reply)
    requires i < |sips| && Asks(task) && ActiveTask(plan, task)
    requires SameSentinels(w0, w) && Distinct(sips) && CoversSentinels(w, sips) && AllBased(w0, w, plan, m)
    requires Serves(w, TaskCommand(plan, m, sips[i], task), w', r)
    ensures SameSentinels(w0, w') && SentinelCourse(w0, w', plan, m, AdvanceTask(plan, m, sips, i, task, r))
  {
    hide Serves;
    hide Distinct;
    hide AllBased;
    hide MemoryFrom;
    hide PeersFrom;
    hide AdvanceTask;
    hide SentinelStep;
    AskCommands(plan, m, sips[i], task);
    SettingsStay(w, TaskCommand(plan, m, sips[i], task), w', r);
    hide TaskCommand;
    UnchangedKeepsBased(w0, w, w', plan, m);
    PeersHead(w0, w', plan, m, sips, i + 1);
    AskLeads(plan, m, sips, i, task, r);
    var c := AdvanceTask(plan, m, sips, i, task, r);
    if c.Go? && c.step.AtSentinel? && Asks(c.step.task) && c.step.sips == sips && c.step.i == i {
      BasedIsStaged(w0, w', plan, m, sips, i, c.step.task);
    }
  }

  lemma AskCommands(plan: Plan, m: Addr, sip: Addr, task: Task)
    requires Asks(task) && ActiveTask(plan, task)
    ensures var cmd := TaskCommand(plan, m, sip, task); !ChangesMonitor(cmd) && !cmd.SentinelSet?
  {
  }

  lemma MasterIsOnlyRead(w: World, sip: Addr, w': World, r: Reply)
    requires Serves(w, SentinelMaster(sip), w', r)
    ensures w' == w
  {
  }

  lemma TaskExact(w0: World, w: World, plan: Plan, m: Addr, sips: seq<Addr>, i: nat, task: Task, w': World, r: Reply)
    requires i < |sips| && ActiveTask(plan, task) && SentinelsAddressed(w) && SameSentinels(w0, w) && CoversSentinels(w, sips)
    requires SentinelStep(w0, w, plan, m, AtSentinel(sips, i, task))
    requires Serves(w, TaskCommand(plan, m, sips[i], task), w', r)
    ensures SameSentinels(w0, w') && SentinelCourse(w0, w', plan, m, AdvanceTask(plan, m, sips, i, task, r))
  {
    hide Serves;
    hide Distinct;
    hide CoversSentinels;
    hide MonitorOptions;
    hide OptionFrom;
    hide CustomFrom;
    hide GetConfigParameters;
    hide SentinelStep;
    hide AllStaged;
    if Asks(task) {
      hide AdvanceTask;
      AskStage(w0, w, plan, m, sips, i, task);
      AskExact(w0, w, plan, m, sips, i, task, w', r);
    } else {
      StageOf(w0, w, plan, m, sips, i, task);
      ElsewhereStays(w, TaskCommand(plan, m, sips[i], task), w', r);
      match task {
        case CheckMonitor =>
          hide AdvanceTask;
          MasterIsOnlyRead(w, sips[i], w', r);
          CheckStage(w0, w, plan, m, sips, i);
          CheckExact(w0, w, plan, m, sips, i, r);
        case Remove => RemoveExact(w0, w, plan, m, sips, i, w', r);
        case Install =>
          if r.Done? {
            InstallExact(w0, w, plan, m, sips, i, Quorum.GetQuorum(plan.sentinels), w');
          }
        case SetOption(j) =>
          if r.Done? {
            SettingExact(w0, w, plan, m, sips, i, j, w');
          }
        case SetCustom(j) =>
          if r.Done? {
            CustomExact(w0, w, plan, m, sips, i, j, w');
          }
      }
    }
  }

  lemma StageOf(w0: World, w: World, plan: Plan, m: Addr, sips: seq<Addr>, i: nat, task: Task)
    requires SentinelStep(w0, w, plan, m, AtSentinel(sips, i, task))
    ensures i < |sips| && Distinct(sips) && ActiveTask(plan, task) && (task.SetCustom? ==> !plan.checkOnly)
    ensures AllStaged(w0, w, plan, m, sips, i, task)
  {
  }

  lemma AskStage(w0: World, w: World, plan: Plan, m: Addr, sips: seq<Addr>, i: nat, task: Task)
    requires SentinelStep(w0, w, plan, m, AtSentinel(sips, i, task)) && Asks(task)
    ensures Distinct(sips) && AllBased(w0, w, plan, m)
  {
    hide Base;
    forall id | SentinelRuns(w0, id) && SentinelRuns(w, id)
      ensures Watches(w.sentinels[id], m, Base(plan, m, w0.sentinels[id]))
    {
      assert Stage(plan, m, sips, i, task, w0.sentinels[id], w.sentinels[id]);
    }
  }

  lemma CheckStage(w0: World, w: World, plan: Plan, m: Addr, sips: seq<Addr>, i: nat)
    requires i < |sips| && AllStaged(w0, w, plan, m, sips, i, CheckMonitor)
    ensures AllTurned(w0, w, plan, m, sips, i)
  {
    hide Turned;
    forall id | SentinelRuns(w0, id) && SentinelRuns(w, id)
      ensures Turned(plan, m, sips, i, w0.sentinels[id], w.sentinels[id])
    {
      assert Stage(plan, m, sips, i, CheckMonitor, w0.sentinels[id], w.sentinels[id]);
    }
  }

  // ---------------------------------------------------------------- the whole pass

  ghost predicate SentinelsExact(w0: World, w: World, plan: Plan, op: Op) {
    && SameSentinels(w0, w)
    && match op
       case Settled(m, step) => SentinelStep(w0, w, plan, m, step)
       case Finished(outcome) => outcome == Healthy ==> exists m :: Healed(w, plan.config, m) && AllFinal(w0, w, plan, m)
       case _ => AllUnchanged(w0, w)
  }

  lemma UnchangedChain(w0: World, w: World, w': World)
    requires SameSentinels(w0, w) && SameSentinels(w, w') && AllUnchanged(w0, w) && AllUnchanged(w, w')
    ensures SameSentinels(w0, w') && AllUnchanged(w0, w')
  {
  }

  /** Steps over the pods. */
  predicate PodStep(step: Step) {
    !step.SentinelList? && !step.AtSentinel? && !step.ReadyCheck?
  }

  lemma PodStepLeads(plan: Plan, m: Addr, step: Step, r: Reply, op': Op)
    requires ActiveStep(plan, step) && PodStep(step) && Advances(plan, Settled(m, step), r, op')
    ensures op' == Finished(Broken) || (op'.Settled? && op'.m == m && (PodStep(op'.step) || op'.step.SentinelList?))
    ensures var cmd := StepCommand(plan, m, step); !ChangesMonitor(cmd) && !cmd.SentinelSet?
  {
    hide RunningIPs;
    hide NodeConfig.Matches;
  }

  lemma EarlierOpLeads(plan: Plan, op: Op, r: Reply, op': Op)
    requires Active(plan, op) && !op.Settled? && Advances(plan, op, r, op')
    ensures op'.Settled? ==> op'.step.SlavesList?
    ensures op' != Finished(Healthy) && !op.Finished?
    ensures var cmd := NextCommand(plan, op); !ChangesMonitor(cmd) && !cmd.SentinelSet?
  {
    hide RunningIPs;
    hide NodeConfig.Matches;
  }

  lemma ListingExact(w0: World, w: World, plan: Plan, m: Addr, r: Reply)
    requires SentinelsAddressed(w) && SameSentinels(w0, w) && AllUnchanged(w0, w)
    requires Serves(w, ListSentinels, w, r) && r.SentinelsAre?
    ensures SentinelCourse(w0, w, plan, m, MonitorFrom(plan, RunningSentinelIPs(r.sentinels), 0))
  {
    hide Base;
    hide RunningSentinelIPs;
    hide MonitorFrom;
    SentinelListingCovers(r.sentinels, w);
    SentinelListingIsDistinct(r.sentinels, w);
    MonitorHead(w0, w, plan, m, RunningSentinelIPs(r.sentinels), 0);
  }

  lemma SentinelListExact(w0: World, w: World, plan: Plan, m: Addr, w': World, r: Reply)
    requires SentinelsAddressed(w) && SameSentinels(w0, w) && AllUnchanged(w0, w) && Serves(w, ListSentinels, w', r)
    ensures SameSentinels(w0, w') && SentinelCourse(w0, w', plan, m, AdvanceStep(plan, m, SentinelList, r))
  {
    hide RunningSentinelIPs;
    hide MonitorFrom;
    if r.SentinelsAre? {
      ListingExact(w0, w, plan, m, r);
    }
  }

  lemma StepExact(w0: World, w: World, plan: Plan, m: Addr, step: Step, w': World, r: Reply)
    requires step.SentinelList? || step.AtSentinel?
    requires ActiveStep(plan, step) && SentinelsAddressed(w) && SameSentinels(w0, w)
    requires Achieved(w, plan.config, m, step) && SentinelStep(w0, w, plan, m, step)
    requires Serves(w, StepCommand(plan, m, step), w', r)
    ensures SameSentinels(w0, w') && SentinelCourse(w0, w', plan, m, AdvanceStep(plan, m, step, r))
  {
    hide Serves;
    hide AdvanceTask;
    hide SentinelCourse;
    hide AllConfigured;
    if step.SentinelList? {
      SentinelListExact(w0, w, plan, m, w', r);
    } else {
      hide SentinelStep;
      TaskExact(w0, w, plan, m, step.sips, step.i, step.task, w', r);
    }
  }

  lemma ReadyExact(w0: World, w: World, plan: Plan, m: Addr, sips: seq<Addr>, w': World, r: Reply)
    requires SameSentinels(w0, w) && AllFinal(w0, w, plan, m) && Serves(w, GetSentinelSet, w', r)
    requires MasterAt(w, m) && OnlyMasterAt(w, m) && Achieved(w, plan.config, m, ReadyCheck(sips))
    ensures SentinelsExact(w0, w', plan, Follow(m, AdvanceStep(plan, m, ReadyCheck(sips), r)))
  {
    hide AllFinal;
    hide AllConfigured;
    hide AllPointed;
    hide AllWatching;
    assert Healed(w', plan.config, m);
  }

  lemma SettledExact(w0: World, w: World, plan: Plan, m: Addr, step: Step, w': World, r: Reply, op': Op)
    requires ActiveStep(plan, step) && SentinelsAddressed(w) && CleanFacts(w, plan, Settled(m, step))
    requires SentinelsExact(w0, w, plan, Settled(m, step))
    requires Serves(w, StepCommand(plan, m, step), w', r) && Advances(plan, Settled(m, step), r, op')
    ensures SentinelsExact(w0, w', plan, op')
  {
    hide Serves;
    hide Achieved;
    hide AdvanceStep;
    if PodStep(step) {
      hide StepCommand;
      PodStepLeads(plan, m, step, r, op');
      hide Advances;
      SettingsStay(w, StepCommand(plan, m, step), w', r);
      UnchangedChain(w0, w, w');
    } else if step.ReadyCheck? {
      ReadyExact(w0, w, plan, m, step.sips, w', r);
    } else {
      hide StepCommand;
      hide SentinelStep;
      StepExact(w0, w, plan, m, step, w', r);
    }
  }

  lemma OpExact(w0: World, w: World, plan: Plan, op: Op, w': World, r: Reply, op': Op)
    requires Active(plan, op) && SentinelsAddressed(w) && CleanFacts(w, plan, op) && SentinelsExact(w0, w, plan, op)
    requires Serves(w, NextCommand(plan, op), w', r) && Advances(plan, op, r, op')
    ensures SentinelsExact(w0, w', plan, op')
  {
    hide Serves;
    hide Advances;
    hide CleanFacts;
    hide SentinelStep;
    if op.Settled? {
      hide SentinelsExact;
      SettledExact(w0, w, plan, op.m, op.step, w', r, op');
    } else {
      hide NextCommand;
      hide Active;
      EarlierOpLeads(plan, op, r, op');
      SettingsStay(w, NextCommand(plan, op), w', r);
      UnchangedChain(w0, w, w');
      if op'.Settled? {
        FirstStepExact(w0, w', plan, op'.m);
      }
    }
  }

  lemma FirstStepExact(w0: World, w: World, plan: Plan, m: Addr)
    requires AllUnchanged(w0, w)
    ensures SentinelStep(w0, w, plan, m, SlavesList)
  {
  }

  lemma QuietExact(w0: World, w: World, w': World, plan: Plan, op: Op)
    requires QuietStep(w, w') && SentinelsExact(w0, w, plan, op)
    ensures SentinelsExact(w0, w', plan, op)
  {
    hide Stage;
    hide Final;
    assert SameSentinels(w, w') && AllUnchanged(w, w') by {
      assert forall id :: id in w.sentinels ==> LearnsOnly(w.sentinels[id], w'.sentinels[id]);
    }
    hide QuietStep;
    if op.Settled? {
      QuietStepExact(w0, w, w', plan, op.m, op.step);
    } else if op == Finished(Healthy) {
      var m :| Healed(w, plan.config, m) && AllFinal(w0, w, plan, m);
      QuietIsSameView(w, w');
      HealedView(w, w', plan.config, m);
      assert AllFinal(w0, w', plan, m);
    } else if !op.Finished? {
      UnchangedChain(w0, w, w');
    }
  }

  lemma HealedView(w: World, w': World, config: NodeConfig.Config, m: Addr)
    requires SameView(w, w') && Healed(w, config, m)
    ensures Healed(w', config, m)
  {
    hide NodeConfig.Matches;
    assert forall id :: Runs(w', id) <==> Runs(w, id);
    var id :| IsMaster(w, id) && w.pods[id].ip == m;
    assert IsMaster(w', id);
  }

  /** Gossip does not move a sentinel to another stage. */
  lemma GossipKeepsStage(plan: Plan, m: Addr, sips: seq<Addr>, i: nat, task: Task, s0: Sentinel, s: Sentinel, s': Sentinel)
    requires i < |sips| && ActiveTask(plan, task) && Unchanged(s, s') && Stage(plan, m, sips, i, task, s0, s)
    ensures Stage(plan, m, sips, i, task, s0, s')
  {
    hide Base;
    hide Before;
  }

  lemma QuietStepExact(w0: World, w: World, w': World, plan: Plan, m: Addr, step: Step)
    requires SameSentinels(w0, w) && SameSentinels(w, w') && AllUnchanged(w, w') && SentinelStep(w0, w, plan, m, step)
    ensures SentinelStep(w0, w', plan, m, step)
  {
    hide Stage;
    hide Final;
    hide Distinct;
    if step.AtSentinel? {
      forall id | SentinelRuns(w0, id) && SentinelRuns(w', id)
        ensures Stage(plan, m, step.sips, step.i, step.task, w0.sentinels[id], w'.sentinels[id])
      {
        GossipKeepsStage(plan, m, step.sips, step.i, step.task, w0.sentinels[id], w.sentinels[id], w'.sentinels[id]);
      }
    }
  }

  lemma CleanExact(w0: World, s: Sys, s': Sys)
    requires CleanInv(s) && CleanNext(s, s') && SentinelsExact(w0, s.world, s.plan, s.op)
    ensures SentinelsExact(w0, s'.world, s'.plan, s'.op)
  {
    hide SentinelsExact;
    hide CleanFacts;
    hide Serves;
    hide Advances;
    hide NextCommand;
    hide QuietStep;
    if QuietStep(s.world, s'.world) && s' == s.(world := s'.world) {
      QuietExact(w0, s.world, s'.world, s.plan, s.op);
    } else {
      var r :| OpStep(s, Delivered, r, s');
      OpExact(w0, s.world, s.plan, s.op, s'.world, r, s'.op);
    }
  }

  lemma {:induction false} ExactHolds(run: seq<Sys>, j: nat, k: nat)
    requires j <= k < |run| && CleanFrom(run, j, k) && Begins(run[j])
    ensures SentinelsExact(run[j].world, run[k].world, run[k].plan, run[k].op)
  {
    hide CleanNext;
    if j < k {
      ExactHolds(run, j, k - 1);
      CleanHolds(run, j, k - 1);
      CleanExact(run[j].world, run[k - 1], run[k]);
    }
  }

  /**
   * Exactly what a clean pass that ends well does to the settings of the sentinels. With m the
   * one master it leaves: a sentinel that monitored m already keeps its settings, and any other
   * has exactly the settings of a fresh monitor; over a changed object the custom settings are
   * then written over either.
   */
  lemma SentinelSettingsExactly(run: seq<Sys>, j: nat, k: nat) returns (m: Addr)
    requires j <= k < |run| && CleanFrom(run, j, k) && Begins(run[j]) && run[k].op == Finished(Healthy)
    ensures Healed(run[k].world, run[k].plan.config, m)
    ensures SameSentinels(run[j].world, run[k].world) && AllFinal(run[j].world, run[k].world, run[k].plan, m)
  {
    hide CleanFrom;
    hide AllFinal;
    hide Healed;
    ExactHolds(run, j, k);
    m :| Healed(run[k].world, run[k].plan.config, m) && AllFinal(run[j].world, run[k].world, run[k].plan, m);
  }

  // ---------------------------------------------------------------- when the settings behind MONITOR are there

  /** The sentinel has every setting that follows MONITOR. */
  ghost predicate HasOptions(password: string, options: Options) {
    && (password != "" ==> "auth-pass" in options && options["auth-pass"] == password)
    && "down-after-milliseconds" in options && options["down-after-milliseconds"] == "5000"
    && "failover-timeout" in options && options["failover-timeout"] == "3000"
    && "parallel-syncs" in options && options["parallel-syncs"] == "2"
  }

  lemma FreshHasOptions(password: string)
    ensures HasOptions(password, FreshOptions(password))
  {
    assert "auth-pass"[0] == 'a' && "down-after-milliseconds"[0] == 'd' && "failover-timeout"[0] == 'f' && "parallel-syncs"[0] == 'p';
  }

  /**
   * When the settings behind MONITOR are all there after a clean pass over an unchanged object
   * that ends well: exactly when the sentinel did not monitor the master the pass leaves, or
   * had them all before. The condition is the guard of `CheckSentinelMonitor`.
   */
  lemma OptionsPresentIff(run: seq<Sys>, j: nat, k: nat) returns (m: Addr)
    requires j <= k < |run| && CleanFrom(run, j, k) && Begins(run[j]) && run[k].op == Finished(Healthy)
    requires run[j].plan.checkOnly
    ensures Healed(run[k].world, run[k].plan.config, m) && SameSentinels(run[j].world, run[k].world)
    ensures forall id :: SentinelRuns(run[j].world, id) ==>
      var s0, s, plan := run[j].world.sentinels[id], run[k].world.sentinels[id], run[k].plan;
      && s.options == (if s0.monitored == Some(m) then s0.options else FreshOptions(plan.password))
      && (HasOptions(plan.password, s.options) <==> s0.monitored != Some(m) || HasOptions(plan.password, s0.options))
  {
    hide CleanFrom;
    hide HasOptions;
    hide FreshOptions;
    m := SentinelSettingsExactly(run, j, k);
    CleanKeepsPlan(run, j, k);
    FreshHasOptions(run[k].plan.password);
  }
}
