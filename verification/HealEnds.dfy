/**
 * What a pass has seen when it reports success: the numbers it was asked to wait for, and the
 * custom settings it had to write.
 */
module HealEnds {
  import opened Basics
  import opened Cluster
  import opened HealMachine
  import opened HealAccounting
  import NodeConfig

  // ---------------------------------------------------------------- numbers

  ghost predicate RedisesSeen(plan: Plan, log: seq<Event>) {
    log != [] && log[0] == Event(GetRedisSet, SetIs(Counts(plan.size, plan.size)))
  }

  ghost predicate SentinelsSeen(plan: Plan, log: seq<Event>) {
    |log| > 1 && log[1].cmd == GetSentinelSet && log[1].reply.SetIs? && log[1].reply.counts.replicas == plan.sentinels
  }

  ghost predicate SentinelsReady(plan: Plan, log: seq<Event>) {
    && log != []
    && var e := log[|log| - 1];
      e.cmd == GetSentinelSet && e.reply.SetIs? && e.reply.counts.ready == plan.sentinels
  }

  ghost predicate Seen(plan: Plan, op: Op, log: seq<Event>) {
    match op
    case Idle => true
    case RedisNumber => log == []
    case SentinelNumber => |log| == 1 && RedisesSeen(plan, log)
    case Finished(outcome) =>
      && (outcome == Healthy ==> RedisesSeen(plan, log) && SentinelsSeen(plan, log) && SentinelsReady(plan, log))
      && (outcome == Skipped ==> RedisesSeen(plan, log) && |log| == 2 && !SentinelsSeen(plan, log))
    case _ => RedisesSeen(plan, log) && SentinelsSeen(plan, log)
  }

  /** Where outcomes come from. */
  lemma StepEnds(plan: Plan, m: Addr, step: Step, r: Reply)
    requires ActiveStep(plan, step)
    ensures var c := AdvanceStep(plan, m, step, r);
      c.Stop? && c.outcome != Broken ==>
        step.ReadyCheck? && r.SetIs? && c.outcome == if r.counts.ready == plan.sentinels then Healthy else Requeue
  {
    hide CustomFrom;
    hide RunningIPs;
    hide RunningSentinelIPs;
  }

  lemma OpEnds(plan: Plan, op: Op, r: Reply, op': Op)
    requires Active(plan, op) && Advances(plan, op, r, op')
    ensures op' == Finished(Healthy) ==>
      op.Settled? && op.step.ReadyCheck? && r.SetIs? && r.counts.ready == plan.sentinels
    ensures op' == Finished(Skipped) ==> op.SentinelNumber?
    ensures !op'.Idle? && !op'.RedisNumber?
    ensures op'.SentinelNumber? ==> op.RedisNumber?
  {
    hide AdvanceStep;
    hide RunningIPs;
    hide NodeConfig.Matches;
    if op.Settled? {
      StepEnds(plan, op.m, op.step, r);
    }
  }

  lemma OpSees(plan: Plan, op: Op, log: seq<Event>, r: Reply, op': Op)
    requires Active(plan, op) && Seen(plan, op, log) && Advances(plan, op, r, op')
    ensures Seen(plan, op', log + [Event(NextCommand(plan, op), r)])
  {
    hide RunningIPs;
    OpEnds(plan, op, r, op');
    if !op.RedisNumber? && !op.SentinelNumber? {
      hide Advances;
      var log' := log + [Event(NextCommand(plan, op), r)];
      assert log'[0] == log[0] && log'[1] == log[1];
    }
  }

  lemma StepSees(s: Sys, fate: Fate, r: Reply, s': Sys)
    requires OpStep(s, fate, r, s') && Seen(s.plan, s.op, s.log)
    ensures Seen(s'.plan, s'.op, s'.log)
  {
    hide Happens;
    hide Advances;
    hide Seen;
    OpSees(s.plan, s.op, s.log, r, s'.op);
  }

  lemma {:induction false} SeenHolds(run: seq<Sys>, k: nat)
    requires IsRun(run) && run[0].op.Idle? && k < |run|
    ensures Seen(run[k].plan, run[k].op, run[k].log)
  {
    hide OpStep;
    hide EnvStep;
    if k > 0 {
      SeenHolds(run, k - 1);
      var s, s' := run[k - 1], run[k];
      if !WorldStep(s, s') && !BeginPass(s, s') {
        var fate, r :| OpStep(s, fate, r, s');
        StepSees(s, fate, r, s');
      }
    }
  }

  /**
   * What the two nil returns stand for, in any run. Healthy: all specified redis pods were seen
   * ready at the start, the specified number of sentinels was seen, and at the very end all of
   * them ready. Skipped: the pass stopped after its second question, because of its answer.
   */
  lemma NilMeans(run: seq<Sys>, k: nat)
    requires IsRun(run) && run[0].op.Idle? && k < |run|
    ensures var s := run[k];
      s.op == Finished(Healthy) ==> RedisesSeen(s.plan, s.log) && SentinelsSeen(s.plan, s.log) && SentinelsReady(s.plan, s.log)
    ensures var s := run[k];
      s.op == Finished(Skipped) ==> RedisesSeen(s.plan, s.log) && |s.log| == 2 && !SentinelsSeen(s.plan, s.log)
  {
    hide Next;
    SeenHolds(run, k);
  }

  // ---------------------------------------------------------------- the outcome, read off the log

  /** The first question was answered otherwise than hoped for. */
  ghost predicate RedisesMissing(plan: Plan, log: seq<Event>) {
    |log| == 1 && log[0].cmd == GetRedisSet && log[0].reply != SetIs(Counts(plan.size, plan.size))
  }

  /** The second one was. */
  ghost predicate SentinelsMissing(plan: Plan, log: seq<Event>) {
    |log| == 2 && log[1].cmd == GetSentinelSet && !(log[1].reply.SetIs? && log[1].reply.counts.replicas == plan.sentinels)
  }

  /** The last question was asked, and answered. */
  ghost predicate ReadyAnswered(log: seq<Event>) {
    |log| > 2 && log[|log| - 1].cmd == GetSentinelSet && log[|log| - 1].reply.SetIs?
  }

  ghost predicate OutcomeIs(plan: Plan, log: seq<Event>, outcome: Outcome) {
    outcome ==
      if RedisesMissing(plan, log) then Requeue
      else if SentinelsMissing(plan, log) then Skipped
      else if ReadyAnswered(log) then
        (if log[|log| - 1].reply.counts.ready == plan.sentinels then Healthy else Requeue)
      else Broken
  }

  /** How far a pass has come shows in the length of its log. */
  ghost predicate Counted(plan: Plan, op: Op, log: seq<Event>) {
    match op
    case Idle => true
    case RedisNumber => log == []
    case SentinelNumber => |log| == 1
    case Finished(outcome) => OutcomeIs(plan, log, outcome)
    case _ => |log| >= 2
  }

  /** Which points ask for numbers, and what ends a pass. */
  lemma OpOutcome(plan: Plan, op: Op, r: Reply, op': Op)
    requires Active(plan, op) && Advances(plan, op, r, op')
    ensures NextCommand(plan, op) == GetRedisSet <==> op.RedisNumber?
    ensures NextCommand(plan, op) == GetSentinelSet <==> op.SentinelNumber? || (op.Settled? && op.step.ReadyCheck?)
    ensures op.RedisNumber? ==> op' == if r == SetIs(Counts(plan.size, plan.size)) then SentinelNumber else Finished(Requeue)
    ensures op.SentinelNumber? ==>
      op' == if r.SetIs? && r.counts.replicas == plan.sentinels then CountList else Finished(Skipped)
    ensures op.Settled? && op.step.ReadyCheck? ==>
      op' == Finished(if !r.SetIs? then Broken else if r.counts.ready == plan.sentinels then Healthy else Requeue)
    ensures op'.Finished? && !op.RedisNumber? && !op.SentinelNumber? && !(op.Settled? && op.step.ReadyCheck?) ==>
      op' == Finished(Broken)
    ensures !op'.Idle? && !op'.RedisNumber? && (op'.SentinelNumber? ==> op.RedisNumber?)
    ensures !op.Idle? && !op.Finished?
  {
    hide AdvanceStep;
    hide TaskCommand;
    hide RunningIPs;
    hide NodeConfig.Matches;
    if op.Settled? {
      StepEnds(plan, op.m, op.step, r);
      StepAsks(plan, op.m, op.step, r);
    }
  }

  lemma StepAsks(plan: Plan, m: Addr, step: Step, r: Reply)
    requires ActiveStep(plan, step)
    ensures StepCommand(plan, m, step) != GetRedisSet && (StepCommand(plan, m, step) == GetSentinelSet <==> step.ReadyCheck?)
    ensures step.ReadyCheck? ==>
      AdvanceStep(plan, m, step, r) == Stop(if !r.SetIs? then Broken else if r.counts.ready == plan.sentinels then Healthy else Requeue)
  {
    hide AdvanceTask;
    hide MonitorOptions;
    hide GetConfigParameters;
  }

  lemma OpCounts(plan: Plan, op: Op, log: seq<Event>, r: Reply, op': Op)
    requires Active(plan, op) && Counted(plan, op, log) && Advances(plan, op, r, op')
    ensures Counted(plan, op', log + [Event(NextCommand(plan, op), r)])
  {
    hide Advances;
    hide Active;
    hide NextCommand;
    OpOutcome(plan, op, r, op');
  }

  lemma StepCounts(s: Sys, fate: Fate, r: Reply, s': Sys)
    requires OpStep(s, fate, r, s') && Counted(s.plan, s.op, s.log)
    ensures Counted(s'.plan, s'.op, s'.log)
  {
    hide Happens;
    hide Advances;
    hide Counted;
    OpCounts(s.plan, s.op, s.log, r, s'.op);
  }

  lemma {:induction false} CountedHolds(run: seq<Sys>, k: nat)
    requires IsRun(run) && run[0].op.Idle? && k < |run|
    ensures Counted(run[k].plan, run[k].op, run[k].log)
  {
    hide OpStep;
    hide EnvStep;
    hide OutcomeIs;
    if k > 0 {
      CountedHolds(run, k - 1);
      var s, s' := run[k - 1], run[k];
      if !WorldStep(s, s') && !BeginPass(s, s') {
        var fate, r :| OpStep(s, fate, r, s');
        StepCounts(s, fate, r, s');
      }
    }
  }

  /**
   * The outcome of a pass, in any run, is a function of what it was answered: another pass is
   * asked for exactly when the first question or the last one about readiness was answered
   * otherwise than hoped for, it is skipped exactly for the second one, it ends well exactly
   * when at the very end all sentinels are ready, and everything else is an error.
   */
  lemma OutcomeFollowsAnswers(run: seq<Sys>, k: nat)
    requires IsRun(run) && run[0].op.Idle? && k < |run| && run[k].op.Finished?
    ensures OutcomeIs(run[k].plan, run[k].log, run[k].op.outcome)
  {
    hide Next;
    hide OutcomeIs;
    CountedHolds(run, k);
  }

  // ---------------------------------------------------------------- failures that end a pass

  /** A change that was not done, or sentinels that were not listed. */
  predicate Fatal(e: Event) {
    || ((e.cmd.SlaveOfNoOne? || e.cmd.SlaveOfHost? || e.cmd.ConfigSet? || e.cmd.SentinelMonitor? || e.cmd.SentinelSet?
         || e.cmd.SentinelReset?) && e.reply != Done)
    || (e.cmd.ListSentinels? && !e.reply.SentinelsAre?)
  }

  /** A number of pods or sentinels that could not be had. */
  predicate Unanswered(e: Event) {
    (e.cmd.GetRedisSet? || e.cmd.GetSentinelSet?) && !e.reply.SetIs?
  }

  ghost predicate FailsLast(op: Op, log: seq<Event>) {
    forall k :: 0 <= k < |log| ==>
      && (Fatal(log[k]) ==> k == |log| - 1 && op == Finished(Broken))
      && (Unanswered(log[k]) ==> k == |log| - 1 && op.Finished? && op != Finished(Healthy))
  }

  lemma TaskFails(plan: Plan, m: Addr, sips: seq<Addr>, i: nat, task: Task, r: Reply)
    requires i < |sips| && ActiveTask(plan, task) && Fatal(Event(TaskCommand(plan, m, sips[i], task), r))
    ensures AdvanceTask(plan, m, sips, i, task, r) == Stop(Broken)
  {
    hide MonitorOptions;
    hide GetConfigParameters;
    hide CustomFrom;
    hide OptionFrom;
    hide MonitorFrom;
    hide MemoryFrom;
    hide PeersFrom;
  }

  lemma StepFails(plan: Plan, m: Addr, step: Step, r: Reply)
    requires ActiveStep(plan, step) && Fatal(Event(StepCommand(plan, m, step), r))
    ensures AdvanceStep(plan, m, step, r) == Stop(Broken) && !step.ReadingConfig?
  {
    hide AdvanceTask;
    hide TaskCommand;
    hide RunningSentinelIPs;
    if step.AtSentinel? {
      TaskFails(plan, m, step.sips, step.i, step.task, r);
    }
  }

  lemma OpFails(plan: Plan, op: Op, r: Reply, op': Op)
    requires Active(plan, op) && Advances(plan, op, r, op')
    ensures Fatal(Event(NextCommand(plan, op), r)) ==> op' == Finished(Broken)
    ensures Unanswered(Event(NextCommand(plan, op), r)) ==> op'.Finished? && op' != Finished(Healthy)
    ensures !op.Finished?
  {
    hide AdvanceStep;
    hide StepCommand;
    hide RunningIPs;
    hide NodeConfig.Matches;
    var e := Event(NextCommand(plan, op), r);
    OpOutcome(plan, op, r, op');
    if op.Settled? && Fatal(e) {
      StepFails(plan, op.m, op.step, r);
    }
  }

  lemma StepFailsLast(s: Sys, fate: Fate, r: Reply, s': Sys)
    requires OpStep(s, fate, r, s') && FailsLast(s.op, s.log)
    ensures FailsLast(s'.op, s'.log)
  {
    hide Happens;
    hide Advances;
    hide NextCommand;
    hide Active;
    hide Fatal;
    hide Unanswered;
    OpFails(s.plan, s.op, r, s'.op);
    forall k | 0 <= k < |s.log|
      ensures !Fatal(s'.log[k]) && !Unanswered(s'.log[k])
    {
      assert s'.log[k] == s.log[k];
    }
  }

  lemma {:induction false} FailsLastHolds(run: seq<Sys>, k: nat)
    requires IsRun(run) && run[0].op.Idle? && run[0].log == [] && k < |run|
    ensures FailsLast(run[k].op, run[k].log)
  {
    hide OpStep;
    hide EnvStep;
    hide Fatal;
    hide Unanswered;
    if k > 0 {
      FailsLastHolds(run, k - 1);
      var s, s' := run[k - 1], run[k];
      if WorldStep(s, s') {
      } else if BeginPass(s, s') {
        assert s'.log == [];
      } else {
        var fate, r :| OpStep(s, fate, r, s');
        StepFailsLast(s, fate, r, s');
      }
    }
  }

  /** Questions whose failure is answered by a repair, and the REMOVE whose failure does not matter. */
  predicate MayFail(cmd: Command) {
    || cmd.ListPods? || cmd.InfoReplication? || cmd.ConfigGet?
    || cmd.SentinelMaster? || cmd.SentinelInfo? || cmd.SentinelSlaves? || cmd.SentinelRemove?
  }

  /**
   * In any run, with any losses: a role, a setting, a monitor or a RESET that was not done, and a
   * failed listing of the sentinels, ends the pass in an error there and then. So in a pass that
   * ends well every change was done, and nothing failed but questions and REMOVE. (The clock
   * and sleeping do not leave the process.)
   */
  lemma FailureEndsPass(run: seq<Sys>, k: nat)
    requires IsRun(run) && run[0].op.Idle? && run[0].log == [] && k < |run|
    ensures forall t :: 0 <= t < |run[k].log| && Fatal(run[k].log[t]) ==> t == |run[k].log| - 1 && run[k].op == Finished(Broken)
    ensures run[k].op == Finished(Healthy) ==> forall e :: e in run[k].log ==>
      && !Fatal(e)
      && (e.reply == Failed ==> MayFail(e.cmd) || e.cmd.ReadClock? || e.cmd.Sleep?)
  {
    hide Next;
    FailsLastHolds(run, k);
    if run[k].op == Finished(Healthy) {
      forall e | e in run[k].log
        ensures !Fatal(e) && !Unanswered(e)
      {
        var t :| 0 <= t < |run[k].log| && run[k].log[t] == e;
      }
    }
  }

  // ---------------------------------------------------------------- custom settings of the sentinels

  /** Some command of the pass has set custom setting j at the sentinel. */
  ghost predicate CustomSet(plan: Plan, log: seq<Event>, sip: Addr, j: nat) {
    && j < |plan.customConfig| && GetConfigParameters(plan.customConfig[j]).Some?
    && var parts := GetConfigParameters(plan.customConfig[j]).value;
      Event(SentinelSet(sip, parts.0, parts.1), Done) in log
  }

  /** All settings at the first i sentinels, and the first j at the next one. */
  ghost predicate CustomUpTo(plan: Plan, log: seq<Event>, sips: seq<Addr>, i: nat, j: nat) {
    && (forall a, b :: 0 <= a < i && a < |sips| && 0 <= b < |plan.customConfig| ==> CustomSet(plan, log, sips[a], b))
    && (i < |sips| ==> forall b :: 0 <= b < j && b < |plan.customConfig| ==> CustomSet(plan, log, sips[i], b))
  }

  ghost predicate AllCustomSet(plan: Plan, log: seq<Event>, sips: seq<Addr>) {
    forall a, b :: 0 <= a < |sips| && 0 <= b < |plan.customConfig| ==> CustomSet(plan, log, sips[a], b)
  }

  ghost predicate CustomStep(plan: Plan, log: seq<Event>, step: Step) {
    match step
    case AtSentinel(sips, i, task) =>
      && Listed(log, sips)
      && (task.SetCustom? ==> i < |sips| && CustomUpTo(plan, log, sips, i, task.j))
    case ReadyCheck(sips) => Listed(log, sips) && (!plan.checkOnly ==> AllCustomSet(plan, log, sips))
    case _ => true
  }

  ghost predicate CustomCourse(plan: Plan, log: seq<Event>, course: Course) {
    match course
    case Go(step) => CustomStep(plan, log, step)
    case Stop(outcome) => outcome == Healthy && !plan.checkOnly ==> exists sips :: Listed(log, sips) && AllCustomSet(plan, log, sips)
  }

  lemma CustomGrows(plan: Plan, log: seq<Event>, e: Event, sips: seq<Addr>, i: nat, j: nat)
    ensures CustomUpTo(plan, log, sips, i, j) ==> CustomUpTo(plan, log + [e], sips, i, j)
    ensures AllCustomSet(plan, log, sips) ==> AllCustomSet(plan, log + [e], sips)
    ensures Listed(log, sips) ==> Listed(log + [e], sips)
  {
    hide GetConfigParameters;
    hide RunningSentinelIPs;
    forall sip, b: nat | CustomSet(plan, log, sip, b)
      ensures CustomSet(plan, log + [e], sip, b)
    {
    }
    hide CustomSet;
    if Listed(log, sips) {
      ListedGrows(log, e, sips);
    }
  }

  lemma {:induction false} SettingHead(plan: Plan, log: seq<Event>, sips: seq<Addr>, i: nat, j: nat)
    requires Listed(log, sips) && i <= |sips| && CustomUpTo(plan, log, sips, i, j)
    ensures CustomCourse(plan, log, CustomFrom(plan, sips, i, j))
    decreases |sips| - i
  {
    hide Listed;
    hide CustomSet;
    if i < |sips| && j >= |plan.customConfig| {
      SettingHead(plan, log, sips, i + 1, 0);
    }
  }

  lemma LoopHeads(plan: Plan, log: seq<Event>, sips: seq<Addr>, i: nat)
    requires Listed(log, sips)
    ensures CustomCourse(plan, log, PeersFrom(plan, sips, i))
    ensures CustomCourse(plan, log, MemoryFrom(plan, sips, i))
    ensures CustomCourse(plan, log, MonitorFrom(plan, sips, i))
  {
    hide Listed;
    hide CustomSet;
    SettingHead(plan, log, sips, 0, 0);
  }

  lemma TaskCustom(plan: Plan, m: Addr, sips: seq<Addr>, i: nat, task: Task, log: seq<Event>, r: Reply)
    requires i < |sips| && ActiveTask(plan, task) && CustomStep(plan, log, AtSentinel(sips, i, task))
    ensures CustomCourse(plan, log + [Event(TaskCommand(plan, m, sips[i], task), r)], AdvanceTask(plan, m, sips, i, task, r))
  {
    hide Listed;
    hide CustomFrom;
    hide PeersFrom;
    hide MemoryFrom;
    hide MonitorFrom;
    hide CustomUpTo;
    hide AllCustomSet;
    hide GetConfigParameters;
    var e := Event(TaskCommand(plan, m, sips[i], task), r);
    CustomGrows(plan, log, e, sips, i, if task.SetCustom? then task.j else 0);
    LoopHeads(plan, log + [e], sips, i + 1);
    if task.SetCustom? && r.Done? {
      OneMoreSet(plan, log, sips, i, task.j, e);
      SettingHead(plan, log + [e], sips, i, task.j + 1);
    }
  }

  lemma OneMoreSet(plan: Plan, log: seq<Event>, sips: seq<Addr>, i: nat, j: nat, e: Event)
    requires i < |sips| && CustomUpTo(plan, log, sips, i, j) && ActiveTask(plan, SetCustom(j))
    requires var parts := GetConfigParameters(plan.customConfig[j]).value; e == Event(SentinelSet(sips[i], parts.0, parts.1), Done)
    ensures CustomUpTo(plan, log + [e], sips, i, j + 1)
  {
    hide GetConfigParameters;
    CustomGrows(plan, log, e, sips, i, j);
    assert e in log + [e];
    assert CustomSet(plan, log + [e], sips[i], j);
  }

  lemma StepCustom(plan: Plan, m: Addr, step: Step, log: seq<Event>, r: Reply)
    requires ActiveStep(plan, step) && CustomStep(plan, log, step)
    ensures CustomCourse(plan, log + [Event(StepCommand(plan, m, step), r)], AdvanceStep(plan, m, step, r))
  {
    hide AdvanceTask;
    hide TaskCommand;
    hide MonitorFrom;
    hide CustomSet;
    hide RunningIPs;
    hide RunningSentinelIPs;
    var e := Event(StepCommand(plan, m, step), r);
    match step {
      case AtSentinel(sips, i, task) => TaskCustom(plan, m, sips, i, task, log, r);
      case SentinelList =>
        if r.SentinelsAre? {
          var sips := RunningSentinelIPs(r.sentinels);
          assert ListedAt(log + [e], sips, |log|);
          LoopHeads(plan, log + [e], sips, 0);
        }
      case ReadyCheck(sips) => CustomGrows(plan, log, e, sips, 0, 0);
      case _ =>
    }
  }

  ghost predicate CustomAt(plan: Plan, op: Op, log: seq<Event>) {
    && (op.Settled? ==> CustomStep(plan, log, op.step))
    && (op.Finished? ==> CustomCourse(plan, log, Stop(op.outcome)))
  }

  lemma OpCustom(plan: Plan, op: Op, log: seq<Event>, r: Reply, op': Op)
    requires Active(plan, op) && CustomAt(plan, op, log) && Advances(plan, op, r, op')
    ensures CustomAt(plan, op', log + [Event(NextCommand(plan, op), r)])
  {
    hide AdvanceStep;
    hide RunningIPs;
    hide NodeConfig.Matches;
    hide Listed;
    hide AllCustomSet;
    hide CustomUpTo;
    if op.Settled? {
      hide StepCommand;
      StepCustom(plan, op.m, op.step, log, r);
    }
  }

  lemma SysCustom(s: Sys, fate: Fate, r: Reply, s': Sys)
    requires OpStep(s, fate, r, s') && CustomAt(s.plan, s.op, s.log)
    ensures CustomAt(s'.plan, s'.op, s'.log)
  {
    hide Happens;
    hide Advances;
    hide CustomAt;
    OpCustom(s.plan, s.op, s.log, r, s'.op);
  }

  lemma {:induction false} CustomHolds(run: seq<Sys>, k: nat)
    requires IsRun(run) && run[0].op.Idle? && k < |run|
    ensures CustomAt(run[k].plan, run[k].op, run[k].log)
  {
    hide OpStep;
    hide EnvStep;
    hide CustomStep;
    hide CustomCourse;
    if k > 0 {
      CustomHolds(run, k - 1);
      var s, s' := run[k - 1], run[k];
      if !WorldStep(s, s') && !BeginPass(s, s') {
        var fate, r :| OpStep(s, fate, r, s');
        SysCustom(s, fate, r, s');
      }
    }
  }

  /**
   * In any run: a pass over a changed object that ends well has set every custom setting at
   * every sentinel it listed, each with success; none of them was malformed, unless there was
   * no sentinel to set it at.
   */
  lemma CustomSettingsApplied(run: seq<Sys>, k: nat) returns (sips: seq<Addr>)
    requires IsRun(run) && run[0].op.Idle? && k < |run|
    requires run[k].op == Finished(Healthy) && !run[k].plan.checkOnly
    ensures Listed(run[k].log, sips) && AllCustomSet(run[k].plan, run[k].log, sips)
  {
    hide Next;
    hide Listed;
    hide AllCustomSet;
    CustomHolds(run, k);
    sips :| Listed(run[k].log, sips) && AllCustomSet(run[k].plan, run[k].log, sips);
  }
}
