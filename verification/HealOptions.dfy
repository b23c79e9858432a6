/**
 * The monitors that a pass installs: what MONITOR names and carries, and that a pass that ends
 * well has written every setting that follows it.
 */
module HealOptions {
  import opened Cluster
  import opened HealMachine
  import opened HealTrace
  import Quorum

  // ---------------------------------------------------------------- a monitor installed in this pass

  predicate Installs(e: Event) {
    e.cmd.SentinelMonitor? && e.reply == Done
  }

  /** The first n settings were set right after the monitor was installed at position k. */
  ghost predicate OptionsSet(plan: Plan, log: seq<Event>, k: nat, n: nat)
    requires k < |log| && log[k].cmd.SentinelMonitor?
  {
    && n <= |MonitorOptions(plan)| && k + 1 + n <= |log|
    && forall j :: 0 <= j < n ==>
         log[k + 1 + j] == Event(SentinelSet(log[k].cmd.sip, MonitorOptions(plan)[j].0, MonitorOptions(plan)[j].1), Done)
  }

  ghost predicate Complete(plan: Plan, log: seq<Event>, k: nat)
    requires k < |log| && log[k].cmd.SentinelMonitor?
  {
    OptionsSet(plan, log, k, |MonitorOptions(plan)|)
  }

  /** The settings are being written now. */
  ghost predicate UnderWay(plan: Plan, op: Op, log: seq<Event>, k: nat)
    requires k < |log| && log[k].cmd.SentinelMonitor?
  {
    && op.Settled? && op.step.AtSentinel? && op.step.task.SetOption?
    && op.step.i < |op.step.sips| && log[k].cmd.sip == op.step.sips[op.step.i]
    && k + 1 + op.step.task.j == |log| && OptionsSet(plan, log, k, op.step.task.j)
  }

  ghost predicate Tracked(plan: Plan, op: Op, log: seq<Event>) {
    op == Finished(Broken)
    || forall k :: 0 <= k < |log| && Installs(log[k]) ==> Complete(plan, log, k) || UnderWay(plan, op, log, k)
  }

  lemma CompleteStays(plan: Plan, log: seq<Event>, e: Event, k: nat)
    requires k < |log| && log[k].cmd.SentinelMonitor? && Complete(plan, log, k)
    ensures Complete(plan, log + [e], k)
  {
    hide MonitorOptions;
  }

  /** After the answer to a setting, the next one or the end of them. */
  lemma UnderWayGoesOn(plan: Plan, m: Addr, sips: seq<Addr>, i: nat, j: nat, log: seq<Event>, e: Event, k: nat)
    requires i < |sips| && j < |MonitorOptions(plan)| && k < |log| && log[k].cmd.SentinelMonitor?
    requires UnderWay(plan, Settled(m, AtSentinel(sips, i, SetOption(j))), log, k)
    requires e == Event(SentinelSet(sips[i], MonitorOptions(plan)[j].0, MonitorOptions(plan)[j].1), Done)
    ensures Complete(plan, log + [e], k) || UnderWay(plan, Follow(m, OptionFrom(plan, sips, i, j + 1)), log + [e], k)
  {
    hide MonitorOptions;
    hide MonitorFrom;
    assert OptionsSet(plan, log + [e], k, j + 1);
  }

  lemma InstallBegins(plan: Plan, m: Addr, sips: seq<Addr>, i: nat, log: seq<Event>, e: Event)
    requires i < |sips| && Installs(e) && e.cmd.sip == sips[i]
    ensures var log' := log + [e];
      Complete(plan, log', |log|) || UnderWay(plan, Follow(m, OptionFrom(plan, sips, i, 0)), log', |log|)
  {
    hide MonitorFrom;
    assert OptionsSet(plan, log + [e], |log|, 0);
  }

  lemma OpTracks(plan: Plan, op: Op, log: seq<Event>, r: Reply, op': Op)
    requires Active(plan, op) && Tracked(plan, op, log) && Advances(plan, op, r, op')
    ensures Tracked(plan, op', log + [Event(NextCommand(plan, op), r)])
  {
    hide MonitorOptions;
    hide Complete;
    hide UnderWay;
    hide Advances;
    var e := Event(NextCommand(plan, op), r);
    var log' := log + [e];
    if op' != Finished(Broken) {
      forall k | 0 <= k < |log'| && Installs(log'[k])
        ensures Complete(plan, log', k) || UnderWay(plan, op', log', k)
      {
        if k == |log| {
          Installing(plan, op, r, op');
          InstallBegins(plan, op.m, op.step.sips, op.step.i, log, e);
        } else if Complete(plan, log, k) {
          CompleteStays(plan, log, e, k);
        } else {
          Setting(plan, op, log, k, r, op');
          UnderWayGoesOn(plan, op.m, op.step.sips, op.step.i, op.step.task.j, log, e, k);
        }
      }
    }
  }

  /** Only one point installs monitors, and its success leads to the settings. */
  lemma Installing(plan: Plan, op: Op, r: Reply, op': Op)
    requires Active(plan, op) && Advances(plan, op, r, op') && Installs(Event(NextCommand(plan, op), r))
    ensures op.Settled? && op.step.AtSentinel? && op.step.task.Install? && op.step.i < |op.step.sips|
    ensures NextCommand(plan, op).sip == op.step.sips[op.step.i]
    ensures op' == Follow(op.m, OptionFrom(plan, op.step.sips, op.step.i, 0))
  {
    hide OptionFrom;
    hide MonitorFrom;
  }

  lemma Setting(plan: Plan, op: Op, log: seq<Event>, k: nat, r: Reply, op': Op)
    requires Active(plan, op) && Advances(plan, op, r, op') && op' != Finished(Broken)
    requires k < |log| && log[k].cmd.SentinelMonitor? && UnderWay(plan, op, log, k)
    ensures op.Settled? && op.step.AtSentinel? && op.step.task.SetOption? && op.step.i < |op.step.sips|
    ensures var j := op.step.task.j;
      && j < |MonitorOptions(plan)| && r == Done
      && NextCommand(plan, op) == SentinelSet(op.step.sips[op.step.i], MonitorOptions(plan)[j].0, MonitorOptions(plan)[j].1)
      && op' == Follow(op.m, OptionFrom(plan, op.step.sips, op.step.i, j + 1))
  {
    hide OptionFrom;
    hide MonitorFrom;
    hide MonitorOptions;
  }

  lemma {:induction false} TrackedHolds(run: seq<Sys>, k: nat)
    requires IsRun(run) && run[0].op.Idle? && run[0].log == [] && k < |run|
    ensures Tracked(run[k].plan, run[k].op, run[k].log)
  {
    hide OpStep;
    hide EnvStep;
    if k > 0 {
      TrackedHolds(run, k - 1);
      var s, s' := run[k - 1], run[k];
      if WorldStep(s, s') {
      } else if BeginPass(s, s') {
        assert s'.log == [];
      } else {
        var fate, r :| OpStep(s, fate, r, s');
        StepTracks(s, fate, r, s');
      }
    }
  }

  lemma StepTracks(s: Sys, fate: Fate, r: Reply, s': Sys)
    requires OpStep(s, fate, r, s') && Tracked(s.plan, s.op, s.log)
    ensures Tracked(s'.plan, s'.op, s'.log)
  {
    hide Happens;
    hide Advances;
    hide Tracked;
    OpTracks(s.plan, s.op, s.log, r, s'.op);
  }

  /** The setting was sent to the sentinel at position k, and taken. */
  ghost predicate SetAt(log: seq<Event>, k: int, sip: Addr, param: string, setting: string) {
    0 <= k < |log| && log[k] == Event(SentinelSet(sip, param, setting), Done)
  }

  /** Right after position p: the password, if there is one, and the three timings. */
  ghost predicate SettingsFollow(log: seq<Event>, p: int, sip: Addr, password: string) {
    if password == "" then
      && SetAt(log, p + 1, sip, "down-after-milliseconds", "5000")
      && SetAt(log, p + 2, sip, "failover-timeout", "3000")
      && SetAt(log, p + 3, sip, "parallel-syncs", "2")
    else
      && SetAt(log, p + 1, sip, "auth-pass", password)
      && SetAt(log, p + 2, sip, "down-after-milliseconds", "5000")
      && SetAt(log, p + 3, sip, "failover-timeout", "3000")
      && SetAt(log, p + 4, sip, "parallel-syncs", "2")
  }

  lemma OptionFollows(plan: Plan, log: seq<Event>, p: nat, j: nat)
    requires p < |log| && log[p].cmd.SentinelMonitor? && Complete(plan, log, p) && j < |MonitorOptions(plan)|
    ensures SetAt(log, p + 1 + j, log[p].cmd.sip, MonitorOptions(plan)[j].0, MonitorOptions(plan)[j].1)
  {
    hide MonitorOptions;
    assert log[p + 1 + j] == Event(SentinelSet(log[p].cmd.sip, MonitorOptions(plan)[j].0, MonitorOptions(plan)[j].1), Done);
  }

  lemma CompleteIsFollowed(plan: Plan, log: seq<Event>, p: nat)
    requires p < |log| && log[p].cmd.SentinelMonitor? && Complete(plan, log, p)
    ensures SettingsFollow(log, p, log[p].cmd.sip, plan.password)
  {
    hide Complete;
    hide SetAt;
    OptionFollows(plan, log, p, 0);
    OptionFollows(plan, log, p, 1);
    OptionFollows(plan, log, p, 2);
    if plan.password != "" {
      OptionFollows(plan, log, p, 3);
    }
  }

  /**
   * In any run: a pass that ends well has followed every monitor it installed, at once and with
   * success, with the password exactly if there is one, and with the three timings.
   */
  lemma InstalledMonitorsAreSet(run: seq<Sys>, k: nat, p: nat)
    requires IsRun(run) && run[0].op.Idle? && run[0].log == [] && k < |run|
    requires run[k].op == Finished(Healthy) && p < |run[k].log|
    requires run[k].log[p].cmd.SentinelMonitor? && run[k].log[p].reply == Done
    ensures SettingsFollow(run[k].log, p, run[k].log[p].cmd.sip, run[k].plan.password)
  {
    hide Next;
    hide Complete;
    hide SettingsFollow;
    TrackedHolds(run, k);
    CompleteIsFollowed(run[k].plan, run[k].log, p);
  }

  // ---------------------------------------------------------------- what is installed

  /** MONITOR comes right after REMOVE at the same sentinel, with the quorum of the specification. */
  ghost predicate ProperAt(plan: Plan, log: seq<Event>, k: nat)
    requires k < |log| && log[k].cmd.SentinelMonitor?
  {
    && k > 0 && log[k - 1].cmd == SentinelRemove(log[k].cmd.sip)
    && log[k].cmd.quorum == Quorum.GetQuorum(plan.sentinels)
  }

  ghost predicate Proper(plan: Plan, op: Op, log: seq<Event>) {
    && (forall k :: 0 <= k < |log| && log[k].cmd.SentinelMonitor? ==> ProperAt(plan, log, k))
    && (op.Settled? && op.step.AtSentinel? && op.step.task.Install? && op.step.i < |op.step.sips| ==>
         log != [] && log[|log| - 1].cmd == SentinelRemove(op.step.sips[op.step.i]))
  }

  lemma MonitorPoint(plan: Plan, op: Op, r: Reply, op': Op)
    requires Active(plan, op) && Advances(plan, op, r, op')
    ensures !op.Finished? && !op.Idle?
    ensures NextCommand(plan, op).SentinelMonitor? ==>
      && op.Settled? && op.step.AtSentinel? && op.step.task.Install? && op.step.i < |op.step.sips|
      && NextCommand(plan, op) == SentinelMonitor(op.step.sips[op.step.i], op.m, Quorum.GetQuorum(plan.sentinels))
  {
    hide Advances;
    hide Quorum.GetQuorum;
  }

  lemma TaskInstalls(plan: Plan, m: Addr, sips: seq<Addr>, i: nat, task: Task, r: Reply)
    requires i < |sips| && ActiveTask(plan, task)
    ensures var c := AdvanceTask(plan, m, sips, i, task, r);
      c.Go? && c.step.AtSentinel? && c.step.task.Install? ==> task.Remove? && c.step.sips == sips && c.step.i == i
  {
    hide CustomFrom;
  }

  /** The point that installs is reached from the point that removes, at the same sentinel. */
  lemma InstallFollowsRemove(plan: Plan, op: Op, r: Reply, op': Op)
    requires Active(plan, op) && Advances(plan, op, r, op')
    requires op'.Settled? && op'.step.AtSentinel? && op'.step.task.Install? && op'.step.i < |op'.step.sips|
    ensures NextCommand(plan, op) == SentinelRemove(op'.step.sips[op'.step.i])
  {
    hide AdvanceTask;
    hide RunningIPs;
    hide NodeConfig.Matches;
    if op.Settled? && op.step.AtSentinel? {
      TaskInstalls(plan, op.m, op.step.sips, op.step.i, op.step.task, r);
    }
  }

  lemma OpProper(plan: Plan, op: Op, log: seq<Event>, r: Reply, op': Op)
    requires Active(plan, op) && Proper(plan, op, log) && Advances(plan, op, r, op')
    ensures Proper(plan, op', log + [Event(NextCommand(plan, op), r)])
  {
    hide Advances;
    hide Active;
    hide NextCommand;
    hide Quorum.GetQuorum;
    var log' := log + [Event(NextCommand(plan, op), r)];
    MonitorPoint(plan, op, r, op');
    if op'.Settled? && op'.step.AtSentinel? && op'.step.task.Install? && op'.step.i < |op'.step.sips| {
      InstallFollowsRemove(plan, op, r, op');
    }
    forall k | 0 <= k < |log'| && log'[k].cmd.SentinelMonitor?
      ensures ProperAt(plan, log', k)
    {
      if k < |log| {
        assert log'[k] == log[k];
        assert ProperAt(plan, log, k);
      }
    }
  }

  lemma {:induction false} ProperHolds(run: seq<Sys>, k: nat)
    requires IsRun(run) && run[0].op.Idle? && run[0].log == [] && k < |run|
    ensures Proper(run[k].plan, run[k].op, run[k].log)
  {
    hide OpStep;
    hide EnvStep;
    if k > 0 {
      ProperHolds(run, k - 1);
      var s, s' := run[k - 1], run[k];
      if WorldStep(s, s') {
      } else if BeginPass(s, s') {
        assert s'.log == [] && s'.op == RedisNumber;
      } else {
        var fate, r :| OpStep(s, fate, r, s');
        StepProper(s, fate, r, s');
      }
    }
  }

  lemma StepProper(s: Sys, fate: Fate, r: Reply, s': Sys)
    requires OpStep(s, fate, r, s') && Proper(s.plan, s.op, s.log)
    ensures Proper(s'.plan, s'.op, s'.log)
  {
    hide Happens;
    hide Advances;
    hide Proper;
    OpProper(s.plan, s.op, s.log, r, s'.op);
  }

  /**
   * In any run, and however far a pass has come: every MONITOR it sent came right after a
   * REMOVE at the same sentinel, carried the quorum of the specification, and named the one
   * address that a full scan before it had found to be the only master.
   */
  lemma MonitorsAreProper(run: seq<Sys>, k: nat) returns (m: Addr)
    requires IsRun(run) && run[0].op.Idle? && run[0].log == [] && k < |run|
    requires run[k].op.Settled? || run[k].op.Finished?
    ensures forall q :: 0 <= q < |run[k].log| && run[k].log[q].cmd.SentinelMonitor? ==>
      ProperAt(run[k].plan, run[k].log, q) && run[k].log[q].cmd.host == m && Located(run[k].log, q, m)
  {
    hide Next;
    hide ProperAt;
    hide Located;
    var log := run[k].log;
    ProperHolds(run, k);
    var p;
    p, m := SettledPassNamesTheLocated(run, k);
    forall q | 0 <= q < |log| && log[q].cmd.SentinelMonitor?
      ensures log[q].cmd.host == m && Located(log, q, m)
    {
      assert ChangesMonitor(log[q].cmd);
      assert Names(log[q].cmd, m);
    }
  }
}
