/**
 * Sentinels and their replicas over a pass: how long a restored sentinel is waited for, and
 * which sentinels have confirmed the number of replicas by the time a pass ends well.
 */
module HealAccounting {
  import opened Basics
  import opened Cluster
  import opened HealMachine
  import NodeConfig

  // ---------------------------------------------------------------- read off the log

  /** Commands after which a sentinel's memory of its replicas starts afresh. */
  predicate Forgets(cmd: Command, sip: Addr) {
    cmd == SentinelReset(sip) || cmd == SentinelRemove(sip) || (cmd.SentinelMonitor? && cmd.sip == sip)
  }

  ghost predicate ConfirmedAt(log: seq<Event>, size: int, sip: Addr, k: int) {
    && 0 <= k < |log|
    && log[k].cmd == SentinelSlaves(sip) && CountOf(log[k].reply) == Some(size - 1)
    && forall j :: k < j < |log| ==> !Forgets(log[j].cmd, sip)
  }

  /** The sentinel has reported size - 1 eligible replicas, and was made to forget nothing since. */
  ghost predicate Confirmed(log: seq<Event>, size: int, sip: Addr) {
    exists k :: ConfirmedAt(log, size, sip, k)
  }

  /** The checks made since a sentinel was last reset. */
  function ChecksSince(log: seq<Event>): nat {
    if log == [] then 0
    else
      var last := log[|log| - 1].cmd;
      if last.SentinelReset? then 0
      else ChecksSince(log[..|log| - 1]) + if last.SentinelInfo? then 1 else 0
  }

  ghost predicate ListedAt(log: seq<Event>, sips: seq<Addr>, l: int) {
    && 0 <= l < |log| && log[l].cmd == ListSentinels && log[l].reply.SentinelsAre?
    && sips == RunningSentinelIPs(log[l].reply.sentinels)
  }

  /** The pass works on this list of running sentinels. */
  ghost predicate Listed(log: seq<Event>, sips: seq<Addr>) {
    exists l :: ListedAt(log, sips, l)
  }

  /** Commands of the last loops: peers are asked for, sentinels reset or configured, none is waited for. */
  predicate Closing(cmd: Command) {
    cmd.SentinelInfo? || cmd.SentinelReset? || cmd.SentinelSet? || cmd.GetSentinelSet?
  }

  /** The guard of the last reset: a ready sentinel that knows the specified number of sentinels. */
  predicate KnowsPeers(plan: Plan, r: Reply) {
    r.InfoIs? && r.statusOk && r.peers == Some(plan.sentinels)
  }

  predicate Miscounts(plan: Plan, e: Event) {
    e.cmd.SentinelInfo? && !KnowsPeers(plan, e.reply)
  }

  /**
   * Position k of the last loops: a RESET follows a wrong answer of the same sentinel, and a
   * wrong answer is followed by one; `pending` is the sentinel whose reset is the next command.
   */
  ghost predicate ClosesAt(plan: Plan, log: seq<Event>, t: int, k: int, pending: Option<Addr>)
    requires 0 <= t <= k < |log|
  {
    && Closing(log[k].cmd)
    && (log[k].cmd.SentinelReset? ==> k > t && Miscounts(plan, log[k - 1]) && log[k - 1].cmd.sip == log[k].cmd.sip)
    && (Miscounts(plan, log[k]) ==>
         if k + 1 < |log| then log[k + 1].cmd == SentinelReset(log[k].cmd.sip) else pending == Some(log[k].cmd.sip))
  }

  /** By position t every listed sentinel had confirmed; t is where the last loops begin, right after the last report of replicas. */
  ghost predicate ConfirmedBy(plan: Plan, log: seq<Event>, sips: seq<Addr>, t: int, pending: Option<Addr>) {
    && 0 <= t <= |log|
    && (forall j :: 0 <= j < |sips| ==> Confirmed(log[..t], plan.size, sips[j]))
    && (sips != [] ==> t > 0 && log[t - 1].cmd.SentinelSlaves?)
    && (forall k :: t <= k < |log| ==> ClosesAt(plan, log, t, k, pending))
    && (pending.Some? ==> t < |log| && Miscounts(plan, log[|log| - 1]) && log[|log| - 1].cmd.sip == pending.value)
  }

  /** From position t on the sentinel was asked for its peers. */
  ghost predicate AskedFrom(log: seq<Event>, t: int, sip: Addr) {
    exists k :: t <= k < |log| && 0 <= k && log[k].cmd == SentinelInfo(sip)
  }

  ghost predicate FirstAsked(log: seq<Event>, t: int, sips: seq<Addr>, i: nat) {
    forall j :: 0 <= j < i && j < |sips| ==> AskedFrom(log, t, sips[j])
  }

  /** The last loops are on: the first i sentinels have been asked for their peers. */
  ghost predicate ClosingOn(plan: Plan, log: seq<Event>, sips: seq<Addr>, i: nat, pending: Option<Addr>) {
    exists t :: ConfirmedBy(plan, log, sips, t, pending) && FirstAsked(log, t, sips, i)
  }

  // ---------------------------------------------------------------- logs only grow

  lemma ConfirmedGrows(log: seq<Event>, e: Event, size: int, sip: Addr)
    requires Confirmed(log, size, sip) && !Forgets(e.cmd, sip)
    ensures Confirmed(log + [e], size, sip)
  {
    var k :| ConfirmedAt(log, size, sip, k);
    assert ConfirmedAt(log + [e], size, sip, k);
  }

  lemma ConfirmedNow(log: seq<Event>, e: Event, size: int, sip: Addr)
    requires e.cmd == SentinelSlaves(sip) && CountOf(e.reply) == Some(size - 1)
    ensures Confirmed(log + [e], size, sip)
  {
    assert ConfirmedAt(log + [e], size, sip, |log|);
  }

  lemma ListedGrows(log: seq<Event>, e: Event, sips: seq<Addr>)
    requires Listed(log, sips)
    ensures Listed(log + [e], sips)
  {
    var l :| ListedAt(log, sips, l);
    assert ListedAt(log + [e], sips, l);
  }

  lemma AskedGrows(log: seq<Event>, e: Event, t: int, sips: seq<Addr>, i: nat)
    requires FirstAsked(log, t, sips, i)
    ensures FirstAsked(log + [e], t, sips, i)
  {
    forall j | 0 <= j < i && j < |sips|
      ensures AskedFrom(log + [e], t, sips[j])
    {
      var k :| t <= k < |log| && 0 <= k && log[k].cmd == SentinelInfo(sips[j]);
      assert (log + [e])[k] == log[k];
    }
  }

  /** One more command of the last loops: a question, the reset that a wrong answer calls for, or a setting. */
  lemma ClosingGrowsAt(plan: Plan, log: seq<Event>, e: Event, sips: seq<Addr>, t: int, pending: Option<Addr>)
    requires ConfirmedBy(plan, log, sips, t, pending) && Closing(e.cmd)
    requires match pending case None => !e.cmd.SentinelReset? case Some(sip) => e.cmd == SentinelReset(sip)
    ensures ConfirmedBy(plan, log + [e], sips, t, if Miscounts(plan, e) then Some(e.cmd.sip) else None)
  {
    hide KnowsPeers;
    hide Confirmed;
    var log', pending' := log + [e], if Miscounts(plan, e) then Some(e.cmd.sip) else None;
    assert log'[..t] == log[..t];
    forall k | t <= k < |log'|
      ensures ClosesAt(plan, log', t, k, pending')
    {
      if k < |log| {
        assert ClosesAt(plan, log, t, k, pending);
        assert log'[k] == log[k];
      }
    }
  }

  lemma ClosingGrows(plan: Plan, log: seq<Event>, e: Event, sips: seq<Addr>, i: nat, pending: Option<Addr>)
    requires ClosingOn(plan, log, sips, i, pending) && Closing(e.cmd)
    requires match pending case None => !e.cmd.SentinelReset? case Some(sip) => e.cmd == SentinelReset(sip)
    ensures ClosingOn(plan, log + [e], sips, i, if Miscounts(plan, e) then Some(e.cmd.sip) else None)
  {
    hide ConfirmedBy;
    hide FirstAsked;
    var t :| ConfirmedBy(plan, log, sips, t, pending) && FirstAsked(log, t, sips, i);
    ClosingGrowsAt(plan, log, e, sips, t, pending);
    AskedGrows(log, e, t, sips, i);
  }

  /** The question for the peers counts the sentinel among those asked. */
  lemma AskingGrows(plan: Plan, log: seq<Event>, e: Event, sips: seq<Addr>, i: nat)
    requires i < |sips| && ClosingOn(plan, log, sips, i, None) && e.cmd == SentinelInfo(sips[i])
    ensures ClosingOn(plan, log + [e], sips, i + 1, if Miscounts(plan, e) then Some(sips[i]) else None)
  {
    hide ConfirmedBy;
    var log' := log + [e];
    var t :| ConfirmedBy(plan, log, sips, t, None) && FirstAsked(log, t, sips, i);
    ClosingGrowsAt(plan, log, e, sips, t, None);
    AskedGrows(log, e, t, sips, i);
    assert log'[|log|] == e;
    assert t <= |log| by { ConfirmedIsIn(plan, log, sips, t); }
    assert AskedFrom(log', t, sips[i]);
    assert FirstAsked(log', t, sips, i + 1);
  }

  lemma ConfirmedIsIn(plan: Plan, log: seq<Event>, sips: seq<Addr>, t: int)
    requires ConfirmedBy(plan, log, sips, t, None)
    ensures 0 <= t <= |log|
  {
  }

  lemma AllConfirmedNow(plan: Plan, log: seq<Event>, sips: seq<Addr>)
    requires FirstConfirmed(log, plan.size, sips, |sips|)
    requires sips != [] ==> log != [] && log[|log| - 1].cmd.SentinelSlaves?
    ensures ClosingOn(plan, log, sips, 0, None)
  {
    assert log[..|log|] == log;
    assert ConfirmedBy(plan, log, sips, |log|, None) && FirstAsked(log, |log|, sips, 0);
  }

  // ---------------------------------------------------------------- the invariant

  ghost predicate FirstConfirmed(log: seq<Event>, size: int, sips: seq<Addr>, i: nat) {
    forall j :: 0 <= j < i && j < |sips| ==> Confirmed(log, size, sips[j])
  }

  /** As above, but for the sentinel at position i, which may be listed earlier as well. */
  ghost predicate OthersConfirmed(log: seq<Event>, size: int, sips: seq<Addr>, i: nat)
    requires i < |sips|
  {
    forall j :: 0 <= j < i && sips[j] != sips[i] ==> Confirmed(log, size, sips[j])
  }

  ghost predicate Accounted(plan: Plan, log: seq<Event>, course: Course) {
    match course
    case Stop(outcome) => outcome == Healthy ==> exists sips :: Listed(log, sips) && ClosingOn(plan, log, sips, |sips|, None)
    case Go(step) =>
      match step
      case AtSentinel(sips, i, task) =>
        i < |sips| && Listed(log, sips) && TaskAccounted(plan, log, sips, i, task)
      case ReadyCheck(sips) => Listed(log, sips) && ClosingOn(plan, log, sips, |sips|, None)
      case _ => true
  }

  ghost predicate TaskAccounted(plan: Plan, log: seq<Event>, sips: seq<Addr>, i: nat, task: Task)
    requires i < |sips|
  {
    match task
    case CheckMonitor => true
    case Remove => true
    case Install => true
    case SetOption(_) => true
    case AskInfo => FirstConfirmed(log, plan.size, sips, i)
    case AskBlobs => FirstConfirmed(log, plan.size, sips, i)
    case AskPeers => ClosingOn(plan, log, sips, i, None)
    case ResetPeers => ClosingOn(plan, log, sips, i + 1, Some(sips[i]))
    case SetCustom(_) => ClosingOn(plan, log, sips, |sips|, None)
    case _ => OthersConfirmed(log, plan.size, sips, i)
  }

  lemma PeersHead(plan: Plan, log: seq<Event>, sips: seq<Addr>, i: nat)
    requires i <= |sips| && Listed(log, sips) && ClosingOn(plan, log, sips, i, None)
    ensures Accounted(plan, log, PeersFrom(plan, sips, i))
  {
  }

  lemma MemoryHead(plan: Plan, log: seq<Event>, sips: seq<Addr>, i: nat)
    requires i <= |sips| && Listed(log, sips) && FirstConfirmed(log, plan.size, sips, i)
    requires i == |sips| && sips != [] ==> log != [] && log[|log| - 1].cmd.SentinelSlaves?
    ensures Accounted(plan, log, MemoryFrom(plan, sips, i))
  {
    if i == |sips| {
      AllConfirmedNow(plan, log, sips);
      PeersHead(plan, log, sips, 0);
    }
  }

  lemma MonitorHead(plan: Plan, log: seq<Event>, sips: seq<Addr>, i: nat)
    requires Listed(log, sips)
    ensures Accounted(plan, log, MonitorFrom(plan, sips, i))
  {
    MemoryHead(plan, log, sips, 0);
  }

  lemma OthersGrow(log: seq<Event>, e: Event, size: int, sips: seq<Addr>, i: nat)
    requires i < |sips| && OthersConfirmed(log, size, sips, i)
    requires forall sip :: sip != sips[i] ==> !Forgets(e.cmd, sip)
    ensures OthersConfirmed(log + [e], size, sips, i)
  {
    forall j | 0 <= j < i && sips[j] != sips[i]
      ensures Confirmed(log + [e], size, sips[j])
    {
      ConfirmedGrows(log, e, size, sips[j]);
    }
  }

  lemma FirstGrow(log: seq<Event>, e: Event, size: int, sips: seq<Addr>, i: nat)
    requires FirstConfirmed(log, size, sips, i)
    requires forall sip :: !Forgets(e.cmd, sip)
    ensures FirstConfirmed(log + [e], size, sips, i)
  {
    forall j | 0 <= j < i && j < |sips|
      ensures Confirmed(log + [e], size, sips[j])
    {
      ConfirmedGrows(log, e, size, sips[j]);
    }
  }

  /** A confirming answer moves the loop on. */
  lemma ConfirmsNext(plan: Plan, log: seq<Event>, e: Event, sips: seq<Addr>, i: nat)
    requires i < |sips| && Listed(log, sips) && OthersConfirmed(log, plan.size, sips, i)
    requires e.cmd == SentinelSlaves(sips[i]) && CountOf(e.reply) == Some(plan.size - 1)
    ensures Accounted(plan, log + [e], MemoryFrom(plan, sips, i + 1))
  {
    var log' := log + [e];
    ListedGrows(log, e, sips);
    OthersGrow(log, e, plan.size, sips, i);
    ConfirmedNow(log, e, plan.size, sips[i]);
    assert FirstConfirmed(log', plan.size, sips, i + 1);
    MemoryHead(plan, log', sips, i + 1);
  }

  /** Tasks that make a sentinel watch the master. */
  predicate Watching(task: Task) {
    task.CheckMonitor? || task.Remove? || task.Install? || task.SetOption?
  }

  predicate ClosingTask(task: Task) {
    task.AskPeers? || task.ResetPeers? || task.SetCustom?
  }

  lemma WatchingKeeps(plan: Plan, m: Addr, sips: seq<Addr>, i: nat, task: Task, log: seq<Event>, r: Reply)
    requires i < |sips| && ActiveTask(plan, task) && Watching(task) && Listed(log, sips)
    ensures Accounted(plan, log, AdvanceTask(plan, m, sips, i, task, r))
  {
    hide Confirmed;
    hide ClosingOn;
    hide Listed;
    hide CustomFrom;
    hide MonitorFrom;
    hide PeersFrom;
    hide MemoryFrom;
    hide MonitorOptions;
    MonitorHead(plan, log, sips, i + 1);
  }

  lemma ClosingKeeps(plan: Plan, m: Addr, sips: seq<Addr>, i: nat, task: Task, log: seq<Event>, e: Event)
    requires i < |sips| && ActiveTask(plan, task) && ClosingTask(task) && Listed(log, sips)
    requires TaskAccounted(plan, log, sips, i, task)
    requires e.cmd == TaskCommand(plan, m, sips[i], task)
    ensures Accounted(plan, log + [e], AdvanceTask(plan, m, sips, i, task, e.reply))
  {
    hide Confirmed;
    hide ClosingOn;
    hide Listed;
    hide CustomFrom;
    hide MonitorFrom;
    hide PeersFrom;
    hide MemoryFrom;
    hide GetConfigParameters;
    var log' := log + [e];
    ListedGrows(log, e, sips);
    match task {
      case AskPeers =>
        AskingGrows(plan, log, e, sips, i);
        if KnowsPeers(plan, e.reply) {
          PeersHead(plan, log', sips, i + 1);
        }
      case ResetPeers =>
        ClosingGrows(plan, log, e, sips, i + 1, Some(sips[i]));
        PeersHead(plan, log', sips, i + 1);
      case SetCustom(j) =>
        ClosingGrows(plan, log, e, sips, |sips|, None);
    }
  }

  lemma TaskKeeps(plan: Plan, m: Addr, sips: seq<Addr>, i: nat, task: Task, log: seq<Event>, e: Event)
    requires i < |sips| && ActiveTask(plan, task) && Listed(log, sips)
    requires TaskAccounted(plan, log, sips, i, task)
    requires e.cmd == TaskCommand(plan, m, sips[i], task)
    ensures Accounted(plan, log + [e], AdvanceTask(plan, m, sips, i, task, e.reply))
  {
    hide Confirmed;
    hide ClosingOn;
    hide Listed;
    hide CustomFrom;
    hide MonitorFrom;
    hide PeersFrom;
    hide MemoryFrom;
    ListedGrows(log, e, sips);
    if Watching(task) {
      hide AdvanceTask;
      hide Accounted;
      WatchingKeeps(plan, m, sips, i, task, log + [e], e.reply);
    } else if ClosingTask(task) {
      hide AdvanceTask;
      hide Accounted;
      hide TaskAccounted;
      ClosingKeeps(plan, m, sips, i, task, log, e);
    } else {
      match task {
        case AskInfo => FirstGrow(log, e, plan.size, sips, i);
        case AskBlobs =>
          FirstGrow(log, e, plan.size, sips, i);
          if CountOf(e.reply) == Some(plan.size - 1) {
            ConfirmsNext(plan, log, e, sips, i);
          }
        case WaitBlobs(_, _) =>
          OthersGrow(log, e, plan.size, sips, i);
          if CountOf(e.reply) == Some(plan.size - 1) {
            ConfirmsNext(plan, log, e, sips, i);
          }
        case _ => OthersGrow(log, e, plan.size, sips, i);
      }
    }
  }

  lemma StepKeeps(plan: Plan, m: Addr, step: Step, log: seq<Event>, e: Event)
    requires ActiveStep(plan, step) && Accounted(plan, log, Go(step))
    requires e.cmd == StepCommand(plan, m, step)
    ensures Accounted(plan, log + [e], AdvanceStep(plan, m, step, e.reply))
  {
    hide AdvanceTask;
    hide MonitorFrom;
    hide ClosingOn;
    match step {
      case SentinelList =>
        if e.reply.SentinelsAre? {
          var sips := RunningSentinelIPs(e.reply.sentinels);
          assert ListedAt(log + [e], sips, |log|);
          MonitorHead(plan, log + [e], sips, 0);
        }
      case AtSentinel(sips, i, task) => TaskKeeps(plan, m, sips, i, task, log, e);
      case ReadyCheck(sips) =>
        ListedGrows(log, e, sips);
        ClosingGrows(plan, log, e, sips, |sips|, None);
      case _ =>
    }
  }

  ghost predicate AccountedAt(plan: Plan, op: Op, log: seq<Event>) {
    && (op.Settled? ==> Accounted(plan, log, Go(op.step)))
    && (op.Finished? ==> Accounted(plan, log, Stop(op.outcome)))
  }

  lemma OpAccounts(s: Sys, fate: Fate, r: Reply, s': Sys)
    requires AccountedAt(s.plan, s.op, s.log) && OpStep(s, fate, r, s')
    ensures AccountedAt(s'.plan, s'.op, s'.log)
  {
    hide ClosingOn;
    hide Listed;
    hide TaskAccounted;
    hide RunningIPs;
    hide StepCommand;
    hide NodeConfig.Matches;
    hide Happens;
    hide AdvanceStep;
    if s.op.Settled? {
      StepKeeps(s.plan, s.op.m, s.op.step, s.log, Event(NextCommand(s.plan, s.op), r));
    }
  }

  lemma {:induction false} AccountsHold(run: seq<Sys>, k: nat)
    requires IsRun(run) && run[0].op.Idle? && k < |run|
    ensures AccountedAt(run[k].plan, run[k].op, run[k].log)
  {
    hide OpStep;
    hide EnvStep;
    if k > 0 {
      AccountsHold(run, k - 1);
      var s, s' := run[k - 1], run[k];
      if !WorldStep(s, s') && !BeginPass(s, s') {
        var fate, r :| OpStep(s, fate, r, s');
        OpAccounts(s, fate, r, s');
      }
    }
  }

  /** Every answer the sentinel gave to the question for its peers, from position t on, was right. */
  ghost predicate AnsweredRightFrom(plan: Plan, log: seq<Event>, t: nat, sip: Addr) {
    forall k :: t <= k < |log| && log[k].cmd == SentinelInfo(sip) ==> KnowsPeers(plan, log[k].reply)
  }

  /**
   * Whatever was lost or restarted on the way: when a pass ends well, every sentinel it listed
   * had reported size - 1 eligible replicas by the start t of its last loops, since it was last
   * told to forget. There each is asked for its peers, and reset without being waited for when
   * it miscounts them: so its report still stands at the end exactly when it answered rightly.
   */
  lemma EverySentinelConfirmed(run: seq<Sys>, k: nat) returns (sips: seq<Addr>, t: nat)
    requires IsRun(run) && run[0].op.Idle? && k < |run| && run[k].op == Finished(Healthy)
    ensures var log := run[k].log;
      && Listed(log, sips) && ConfirmedBy(run[k].plan, log, sips, t, None)
      && (sips != [] ==> 0 < t <= |log| && log[t - 1].cmd.SentinelSlaves?)
      && forall j :: 0 <= j < |sips| ==>
           && AskedFrom(log, t, sips[j])
           && (Confirmed(log, run[k].plan.size, sips[j]) <==> AnsweredRightFrom(run[k].plan, log, t, sips[j]))
  {
    hide Next;
    hide Confirmed;
    hide Listed;
    hide AnsweredRightFrom;
    AccountsHold(run, k);
    var log, plan := run[k].log, run[k].plan;
    sips :| Listed(log, sips) && ClosingOn(plan, log, sips, |sips|, None);
    t :| ConfirmedBy(plan, log, sips, t, None) && FirstAsked(log, t, sips, |sips|);
    hide ClosesAt;
    forall j | 0 <= j < |sips|
      ensures AskedFrom(log, t, sips[j])
      ensures Confirmed(log, plan.size, sips[j]) <==> AnsweredRightFrom(plan, log, t, sips[j])
    {
      ConfirmedIffRight(plan, log, sips, t, j);
    }
  }

  lemma ConfirmedIffRight(plan: Plan, log: seq<Event>, sips: seq<Addr>, t: nat, j: nat)
    requires j < |sips| && ConfirmedBy(plan, log, sips, t, None)
    ensures Confirmed(log, plan.size, sips[j]) <==> AnsweredRightFrom(plan, log, t, sips[j])
  {
    hide Confirmed;
    hide KnowsPeers;
    var sip := sips[j];
    if AnsweredRightFrom(plan, log, t, sip) {
      forall k | t <= k < |log|
        ensures !Forgets(log[k].cmd, sip)
      {
        assert ClosesAt(plan, log, t, k, None);
        if k > t {
          assert ClosesAt(plan, log, t, k - 1, None);
        }
      }
      StillConfirmed(log, plan.size, sip, t);
    } else {
      var k :| t <= k < |log| && log[k].cmd == SentinelInfo(sip) && !KnowsPeers(plan, log[k].reply);
      assert ClosesAt(plan, log, t, k, None);
      assert log[k + 1].cmd == SentinelReset(sip);
      NoLongerConfirmed(plan, log, sips, sip, t, k + 1);
    }
  }

  lemma StillConfirmed(log: seq<Event>, size: int, sip: Addr, t: nat)
    requires t <= |log| && Confirmed(log[..t], size, sip)
    requires forall k :: t <= k < |log| ==> !Forgets(log[k].cmd, sip)
    ensures Confirmed(log, size, sip)
  {
    var k :| ConfirmedAt(log[..t], size, sip, k);
    forall j | k < j < |log|
      ensures !Forgets(log[j].cmd, sip)
    {
      assert j < t ==> log[j] == log[..t][j];
    }
    assert ConfirmedAt(log, size, sip, k);
  }

  lemma NoLongerConfirmed(plan: Plan, log: seq<Event>, sips: seq<Addr>, sip: Addr, t: nat, k: nat)
    requires ConfirmedBy(plan, log, sips, t, None) && t <= k < |log| && log[k].cmd == SentinelReset(sip)
    ensures !Confirmed(log, plan.size, sip)
  {
    forall j | 0 <= j < |log|
      ensures !ConfirmedAt(log, plan.size, sip, j)
    {
      if j >= t {
        assert ClosesAt(plan, log, t, j, None);
      }
    }
  }

  // ---------------------------------------------------------------- waiting

  const MAX_CHECKS: nat := 7

  /** What the clock says about the number of checks made so far. */
  ghost predicate Timed(now: int, task: Task, log: seq<Event>) {
    match task
    case ArmTimer => ChecksSince(log) == 0
    case Poll(deadline, checks) =>
      && checks <= MAX_CHECKS && ChecksSince(log) == checks
      && now >= deadline - TIME_OUT + CHECK_INTERVAL * checks
    case WaitInfo(deadline, checks) =>
      && 1 <= checks <= MAX_CHECKS && ChecksSince(log) == checks - 1
      && now >= deadline - TIME_OUT + CHECK_INTERVAL * (checks - 1)
    case WaitBlobs(deadline, checks) =>
      && 1 <= checks <= MAX_CHECKS && ChecksSince(log) == checks
      && now >= deadline - TIME_OUT + CHECK_INTERVAL * (checks - 1)
    case Pause(deadline, checks) =>
      && 1 <= checks <= MAX_CHECKS && ChecksSince(log) == checks
      && now >= deadline - TIME_OUT + CHECK_INTERVAL * (checks - 1)
    case _ => true
  }

  ghost predicate TimedAt(w: World, op: Op, log: seq<Event>) {
    op.Settled? && op.step.AtSentinel? ==> Timed(w.now, op.step.task, log)
  }

  predicate Waits(task: Task) {
    task.ArmTimer? || task.Poll? || task.WaitInfo? || task.WaitBlobs? || task.Pause?
  }

  lemma ChecksGrow(log: seq<Event>, e: Event)
    ensures ChecksSince(log + [e]) ==
      if e.cmd.SentinelReset? then 0 else ChecksSince(log) + if e.cmd.SentinelInfo? then 1 else 0
  {
    assert (log + [e])[..|log|] == log;
  }

  lemma ClockEffect(w: World, cmd: Command, fate: Fate, w': World, r: Reply)
    requires Happens(w, cmd, fate, w', r)
    ensures w'.now >= w.now
    ensures cmd.Sleep? ==> w'.now == w.now + cmd.span
    ensures cmd.ReadClock? ==> r == TimeIs(w.now) && w' == w
  {
    hide ListsPods;
    hide ListsSentinels;
    hide Reachable;
    hide NodeConfig.Set;
    if fate != RequestLost {
      var r0 :| Serves(w, cmd, w', r0);
    }
  }

  /** Whatever is not part of the wait leads out of it, or to the arming of the timer. */
  lemma OthersDoNotWait(plan: Plan, m: Addr, sips: seq<Addr>, i: nat, task: Task, r: Reply)
    requires i < |sips| && ActiveTask(plan, task) && (!Waits(task) || task.WaitBlobs?)
    ensures var c := AdvanceTask(plan, m, sips, i, task, r);
      c.Go? && c.step.AtSentinel? && Waits(c.step.task) ==>
        (task.Restore? && c.step.task.ArmTimer?) || (task.WaitBlobs? && c.step.task == Pause(task.deadline, task.checks))
  {
    hide CustomFrom;
  }

  lemma TaskTimes(plan: Plan, m: Addr, sips: seq<Addr>, i: nat, task: Task, log: seq<Event>, w: World, fate: Fate, w': World, e: Event)
    requires i < |sips| && ActiveTask(plan, task) && Timed(w.now, task, log)
    requires e.cmd == TaskCommand(plan, m, sips[i], task)
    requires Happens(w, e.cmd, fate, w', e.reply)
    ensures TimedAt(w', Follow(m, AdvanceTask(plan, m, sips, i, task, e.reply)), log + [e])
  {
    hide Happens;
    hide ChecksSince;
    hide CustomFrom;
    ClockEffect(w, e.cmd, fate, w', e.reply);
    ChecksGrow(log, e);
    if !Waits(task) || task.WaitBlobs? {
      hide AdvanceTask;
      OthersDoNotWait(plan, m, sips, i, task, e.reply);
    }
  }

  lemma OpTimes(s: Sys, fate: Fate, r: Reply, s': Sys)
    requires TimedAt(s.world, s.op, s.log) && OpStep(s, fate, r, s')
    ensures TimedAt(s'.world, s'.op, s'.log)
  {
    hide Happens;
    hide ChecksSince;
    hide AdvanceTask;
    hide CustomFrom;
    if s.op.Settled? && s.op.step.AtSentinel? {
      TaskTimes(s.plan, s.op.m, s.op.step.sips, s.op.step.i, s.op.step.task, s.log, s.world, fate, s'.world,
                Event(NextCommand(s.plan, s.op), r));
    }
  }

  lemma {:induction false} TimesHold(run: seq<Sys>, k: nat)
    requires IsRun(run) && run[0].op.Idle? && k < |run|
    ensures TimedAt(run[k].world, run[k].op, run[k].log)
  {
    hide OpStep;
    if k > 0 {
      TimesHold(run, k - 1);
      var s, s' := run[k - 1], run[k];
      if !WorldStep(s, s') && !BeginPass(s, s') {
        var fate, r :| OpStep(s, fate, r, s');
        OpTimes(s, fate, r, s');
      }
    }
  }

  /** A restored sentinel is checked at most seven times before the pass goes on or gives up. */
  lemma WaitIsBounded(run: seq<Sys>, k: nat)
    requires IsRun(run) && run[0].op.Idle? && k < |run|
    requires run[k].op.Settled? && run[k].op.step.AtSentinel? && Waits(run[k].op.step.task)
    ensures ChecksSince(run[k].log) <= MAX_CHECKS
  {
    TimesHold(run, k);
  }

  // ---------------------------------------------------------------- giving up

  /** At position a, right after a reset that was done and the last one since, the clock showed this time. */
  ghost predicate ArmedAt(log: seq<Event>, a: int, start: nat) {
    && 0 < a < |log|
    && log[a - 1].cmd.SentinelReset? && log[a - 1].reply == Done && log[a] == Event(ReadClock, TimeIs(start))
    && forall b :: a < b < |log| ==> !log[b].cmd.SentinelReset?
  }

  ghost predicate ArmedFor(log: seq<Event>, deadline: int) {
    exists a: int, start: nat :: ArmedAt(log, a, start) && deadline == start + 30
  }

  /** A sentinel that was reset was given up: the clock showed more than thirty seconds past the start. */
  ghost predicate GivenUp(log: seq<Event>) {
    exists a: int, start: nat, end: nat ::
      ArmedAt(log, a, start) && a < |log| - 1 && log[|log| - 1] == Event(ReadClock, TimeIs(end)) && end > start + 30
  }

  ghost predicate Waited(op: Op, log: seq<Event>) {
    && (op.Settled? && op.step.AtSentinel? ==>
         match op.step.task
         case ArmTimer => log != [] && log[|log| - 1].cmd.SentinelReset? && log[|log| - 1].reply == Done
         case Poll(deadline, _) => ArmedFor(log, deadline)
         case WaitInfo(deadline, _) => ArmedFor(log, deadline)
         case WaitBlobs(deadline, _) => ArmedFor(log, deadline)
         case Pause(deadline, _) => ArmedFor(log, deadline)
         case _ => true)
    && (op == Finished(Broken) && log != [] && log[|log| - 1].cmd == ReadClock ==> GivenUp(log))
  }

  lemma ArmedGrows(log: seq<Event>, e: Event, deadline: int)
    requires ArmedFor(log, deadline) && !e.cmd.SentinelReset?
    ensures ArmedFor(log + [e], deadline)
  {
    var a: int, start: nat :| ArmedAt(log, a, start) && deadline == start + 30;
    assert ArmedAt(log + [e], a, start);
  }

  lemma ArmedNow(log: seq<Event>, now: nat)
    requires log != [] && log[|log| - 1].cmd.SentinelReset? && log[|log| - 1].reply == Done
    ensures ArmedFor(log + [Event(ReadClock, TimeIs(now))], now + 30)
  {
    assert ArmedAt(log + [Event(ReadClock, TimeIs(now))], |log|, now);
  }

  lemma GivenUpNow(log: seq<Event>, deadline: int, now: nat)
    requires ArmedFor(log, deadline) && now > deadline
    ensures GivenUp(log + [Event(ReadClock, TimeIs(now))])
  {
    var a: int, start: nat :| ArmedAt(log, a, start) && deadline == start + 30;
    assert ArmedAt(log + [Event(ReadClock, TimeIs(now))], a, start);
  }

  /** Only its own loop leads to a point of the wait, but for the reset that arms it. */
  lemma TaskWaits(plan: Plan, m: Addr, sips: seq<Addr>, i: nat, task: Task, log: seq<Event>, e: Event)
    requires i < |sips| && ActiveTask(plan, task) && Waited(Settled(m, AtSentinel(sips, i, task)), log)
    requires e.cmd == TaskCommand(plan, m, sips[i], task) && (e.cmd == ReadClock ==> e.reply.TimeIs?)
    ensures Waited(Follow(m, AdvanceTask(plan, m, sips, i, task, e.reply)), log + [e])
  {
    hide ArmedFor;
    hide GivenUp;
    hide CustomFrom;
    hide MonitorOptions;
    hide GetConfigParameters;
    match task {
      case ArmTimer => ArmedNow(log, e.reply.now);
      case Poll(deadline, _) =>
        if e.reply.now > deadline {
          GivenUpNow(log, deadline, e.reply.now);
        } else {
          ArmedGrows(log, e, deadline);
        }
      case WaitInfo(deadline, _) => ArmedGrows(log, e, deadline);
      case WaitBlobs(deadline, _) => ArmedGrows(log, e, deadline);
      case Pause(deadline, _) => ArmedGrows(log, e, deadline);
      case _ =>
    }
  }

  /** Everything but a task at a sentinel asks something else than the time. */
  lemma OthersAskNoTime(plan: Plan, op: Op, r: Reply, op': Op)
    requires Active(plan, op) && Advances(plan, op, r, op') && !(op.Settled? && op.step.AtSentinel?)
    ensures NextCommand(plan, op) != ReadClock
    ensures op'.Settled? && op'.step.AtSentinel? ==> !Waits(op'.step.task)
  {
    hide RunningIPs;
    hide RunningSentinelIPs;
    hide NodeConfig.Matches;
    hide CustomFrom;
  }

  lemma OpWaits(s: Sys, fate: Fate, r: Reply, s': Sys)
    requires OpStep(s, fate, r, s') && Waited(s.op, s.log)
    ensures Waited(s'.op, s'.log)
  {
    hide Happens;
    hide AdvanceTask;
    hide TaskCommand;
    hide ArmedFor;
    hide GivenUp;
    var e := Event(NextCommand(s.plan, s.op), r);
    ClockEffect(s.world, e.cmd, fate, s'.world, r);
    if s.op.Settled? && s.op.step.AtSentinel? {
      TaskWaits(s.plan, s.op.m, s.op.step.sips, s.op.step.i, s.op.step.task, s.log, e);
    } else {
      OthersAskNoTime(s.plan, s.op, r, s'.op);
    }
  }

  lemma {:induction false} WaitedHolds(run: seq<Sys>, k: nat)
    requires IsRun(run) && run[0].op.Idle? && k < |run|
    ensures Waited(run[k].op, run[k].log)
  {
    hide OpStep;
    hide EnvStep;
    hide GivenUp;
    hide ArmedFor;
    if k > 0 {
      WaitedHolds(run, k - 1);
      var s, s' := run[k - 1], run[k];
      if !WorldStep(s, s') && !BeginPass(s, s') {
        var fate, r :| OpStep(s, fate, r, s');
        OpWaits(s, fate, r, s');
      }
    }
  }

  /**
   * In any run: a pass that ends in an error on a look at the clock has given up a sentinel, and
   * then more than thirty seconds had gone by since the timer was armed right after its reset.
   */
  lemma GivenUpAfterThirtySeconds(run: seq<Sys>, k: nat)
    requires IsRun(run) && run[0].op.Idle? && k < |run| && run[k].op == Finished(Broken)
    requires run[k].log != [] && run[k].log[|run[k].log| - 1].cmd == ReadClock
    ensures GivenUp(run[k].log)
  {
    hide Next;
    hide GivenUp;
    WaitedHolds(run, k);
  }
}
