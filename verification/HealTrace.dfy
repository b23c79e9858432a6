/**
 * The discipline of a pass's command log: what has to have been seen before a command that
 * changes a role or a monitor is sent, and whom such a command may name.
 */
module HealTrace {
  import opened Basics
  import opened Cluster
  import opened HealMachine
  import opened HealSafety
  import NodeConfig
  import Sorting

  // ---------------------------------------------------------------- scans, read off the log alone

  predicate Changes(cmd: Command) {
    ChangesRole(cmd) || ChangesMonitor(cmd)
  }

  /** The addresses that answered `role:master`, in the order they were asked. */
  function MasterIPs(events: seq<Event>): seq<Addr> {
    if events == [] then []
    else
      var last := events[|events| - 1];
      MasterIPs(events[..|events| - 1])
      + if last.cmd.InfoReplication? && last.reply == RoleIs(Master) then [last.cmd.ip] else []
  }

  /** From position a: a listing of the pods, then the answered questions to the first i running ones. */
  ghost predicate ScanAt(log: seq<Event>, a: int, ips: seq<Addr>, i: nat) {
    && 0 <= a && a + 1 + i <= |log| && i <= |ips|
    && log[a].cmd == ListPods && log[a].reply.PodsAre? && ips == RunningIPs(log[a].reply.pods)
    && forall k :: 0 <= k < i ==> AnsweredAt(log, a, ips, k)
  }

  ghost predicate AnsweredAt(log: seq<Event>, a: int, ips: seq<Addr>, k: nat) {
    && k < |ips| && 0 <= a + 1 + k < |log|
    && log[a + 1 + k].cmd == InfoReplication(ips[k]) && log[a + 1 + k].reply.RoleIs?
  }

  ghost function FirstIPs(log: seq<Event>): seq<Addr> {
    if |log| > 2 && log[2].reply.PodsAre? then RunningIPs(log[2].reply.pods) else []
  }

  /** The number of masters that the pass's first full scan counted, if it got that far. */
  ghost function Scanned(log: seq<Event>): Option<nat> {
    var ips := FirstIPs(log);
    if ScanAt(log, 2, ips, |ips|) then Some(|MasterIPs(log[3..3 + |ips|])|) else None
  }

  /** Before position k some scan of all running pods found exactly one master, at m. */
  ghost predicate Located(log: seq<Event>, k: int, m: Addr) {
    exists a, ips :: LocatedAt(log, k, m, a, ips)
  }

  ghost predicate LocatedAt(log: seq<Event>, k: int, m: Addr, a: int, ips: seq<Addr>) {
    && ScanAt(log, a, ips, |ips|) && a + 1 + |ips| <= k <= |log|
    && MasterIPs(log[a + 1..a + 1 + |ips|]) == [m]
  }

  /** Every command that changes a role or a monitor comes after a full scan that counted at most one master. */
  ghost predicate Disciplined(log: seq<Event>) {
    forall k :: 0 <= k < |log| && Changes(log[k].cmd) ==>
      Scanned(log[..k]).Some? && Scanned(log[..k]).value <= 1
  }

  /** Nothing was changed. */
  ghost predicate Harmless(log: seq<Event>) {
    forall k :: 0 <= k < |log| ==> !Changes(log[k].cmd)
  }

  /** Promotions go to m only, and only after m was located. */
  ghost predicate PromotesOnly(log: seq<Event>, m: Addr) {
    forall k :: 0 <= k < |log| && log[k].cmd.SlaveOfNoOne? ==> log[k].cmd.ip == m && Located(log, k, m)
  }

  ghost predicate PromotesNone(log: seq<Event>) {
    forall k :: 0 <= k < |log| ==> !log[k].cmd.SlaveOfNoOne?
  }

  // ---------------------------------------------------------------- logs only grow

  lemma ScanGrows(log: seq<Event>, e: Event, a: int, ips: seq<Addr>, i: nat)
    requires ScanAt(log, a, ips, i)
    ensures ScanAt(log + [e], a, ips, i)
    ensures (log + [e])[a + 1..a + 1 + i] == log[a + 1..a + 1 + i]
  {
    hide RunningIPs;
    assert (log + [e])[a] == log[a];
    forall k | 0 <= k < i
      ensures AnsweredAt(log + [e], a, ips, k)
    {
      assert AnsweredAt(log, a, ips, k);
    }
  }

  lemma ScanExtends(log: seq<Event>, e: Event, a: int, ips: seq<Addr>, i: nat)
    requires ScanAt(log, a, ips, i) && |log| == a + 1 + i && i < |ips|
    requires e.cmd == InfoReplication(ips[i]) && e.reply.RoleIs?
    ensures ScanAt(log + [e], a, ips, i + 1)
  {
    hide RunningIPs;
    ScanGrows(log, e, a, ips, i);
  }

  lemma ScannedGrows(log: seq<Event>, e: Event)
    requires Scanned(log).Some?
    ensures Scanned(log + [e]) == Scanned(log)
  {
    var ips := FirstIPs(log);
    ScanGrows(log, e, 2, ips, |ips|);
  }

  lemma LocatedGrows(log: seq<Event>, e: Event, k: int, m: Addr)
    requires Located(log, k, m)
    ensures Located(log + [e], k, m)
  {
    var a, ips :| LocatedAt(log, k, m, a, ips);
    ScanGrows(log, e, a, ips, |ips|);
    assert LocatedAt(log + [e], k, m, a, ips);
  }

  lemma DisciplineGrows(log: seq<Event>, e: Event)
    requires Disciplined(log)
    requires Changes(e.cmd) ==> Scanned(log).Some? && Scanned(log).value <= 1
    ensures Disciplined(log + [e])
  {
    var log' := log + [e];
    forall k | 0 <= k < |log'| && Changes(log'[k].cmd)
      ensures Scanned(log'[..k]).Some? && Scanned(log'[..k]).value <= 1
    {
      assert log'[..k] == if k < |log| then log[..k] else log;
      assert k == |log| ==> log[..k] == log;
    }
  }

  lemma PromotesGrows(log: seq<Event>, e: Event, m: Addr)
    requires PromotesOnly(log, m)
    requires e.cmd.SlaveOfNoOne? ==> e.cmd.ip == m && Located(log, |log|, m)
    ensures PromotesOnly(log + [e], m)
  {
    var log' := log + [e];
    forall k | 0 <= k < |log'| && log'[k].cmd.SlaveOfNoOne?
      ensures log'[k].cmd.ip == m && Located(log', k, m)
    {
      LocatedGrows(log, e, k, m);
    }
  }

  lemma LocatedLater(log: seq<Event>, e: Event, m: Addr)
    requires Located(log, |log|, m)
    ensures Located(log + [e], |log| + 1, m)
  {
    var a, ips :| LocatedAt(log, |log|, m, a, ips);
    ScanGrows(log, e, a, ips, |ips|);
    assert LocatedAt(log + [e], |log| + 1, m, a, ips);
  }

  lemma MasterIPsStep(events: seq<Event>, e: Event)
    ensures MasterIPs(events + [e]) ==
      MasterIPs(events) + if e.cmd.InfoReplication? && e.reply == RoleIs(Master) then [e.cmd.ip] else []
  {
    assert (events + [e])[..|events|] == events;
  }

  // ---------------------------------------------------------------- the invariant

  /** Points of the first scan and before. */
  predicate Early(op: Op) {
    op.RedisNumber? || op.SentinelNumber? || op.CountList? || op.Counting?
  }

  ghost predicate EarlyLog(op: Op, log: seq<Event>)
    requires Early(op)
  {
    && Harmless(log)
    && match op
       case RedisNumber => log == []
       case SentinelNumber => |log| == 1
       case CountList => |log| == 2
       case Counting(ips, i, n) => i < |ips| && CountingLog(log, ips, i, n)
  }

  ghost predicate CountingLog(log: seq<Event>, ips: seq<Addr>, i: nat, n: nat) {
    && ScanAt(log, 2, ips, i) && |log| == 3 + i
    && n == |MasterIPs(log[3..3 + i])|
  }

  /** Between a count of zero and the second scan. */
  predicate Promotes(op: Op) {
    FoundNoMaster(op) || op.Promoting?
  }

  /** The master a pass has settled on. */
  function Target(op: Op): Option<Addr> {
    if op.Settled? then Some(op.m) else None
  }

  ghost predicate Late(log: seq<Event>, zero: bool, target: Option<Addr>) {
    && Scanned(log).Some? && Scanned(log).value <= 1
    && (zero ==> Scanned(log) == Some(0))
    && match target
       case None => Scanned(log) == Some(1) ==> PromotesNone(log)
       case Some(m) => Located(log, |log|, m) && (Scanned(log) == Some(1) ==> PromotesOnly(log, m))
  }

  /** The second scan so far is the end of the log. */
  ghost predicate LocatingLog(log: seq<Event>, ips: seq<Addr>, i: nat, found: seq<Addr>) {
    && |log| >= i + 1 && ScanAt(log, |log| - 1 - i, ips, i)
    && found == MasterIPs(log[|log| - i..])
  }

  /** What a finished pass leaves behind. */
  ghost predicate Final(outcome: Outcome, log: seq<Event>) {
    && (Scanned(log).None? || Scanned(log).value >= 2 ==> Harmless(log))
    && (Scanned(log).Some? && Scanned(log).value >= 2 ==> outcome == Broken && |log| == 3 + |FirstIPs(log)|)
    && (Scanned(log) == Some(1) ==> exists m :: PromotesOnly(log, m))
    && (outcome == Healthy ==> Scanned(log).Some? && Scanned(log).value <= 1)
    && (outcome == Skipped ==> Harmless(log))
  }

  ghost predicate Logged(op: Op, log: seq<Event>) {
    op.Idle? || (
      && Disciplined(log)
      && if Early(op) then EarlyLog(op, log)
         else if op.Finished? then Final(op.outcome, log)
         else Late(log, Promotes(op), Target(op)) && (op.Locating? ==> LocatingLog(log, op.ips, op.i, op.found)))
  }

  lemma NoneGrows(log: seq<Event>, e: Event)
    requires PromotesNone(log) && !e.cmd.SlaveOfNoOne?
    ensures PromotesNone(log + [e])
  {
  }

  lemma LateGrows(log: seq<Event>, e: Event, zero: bool, target: Option<Addr>)
    requires Late(log, zero, target) && Disciplined(log)
    requires e.cmd.SlaveOfNoOne? && Scanned(log) == Some(1) ==> target == Some(e.cmd.ip)
    ensures Late(log + [e], zero, target) && Disciplined(log + [e])
  {
    hide Scanned;
    hide Disciplined;
    hide Located;
    hide PromotesOnly;
    hide PromotesNone;
    ScannedGrows(log, e);
    DisciplineGrows(log, e);
    assert |log + [e]| == |log| + 1;
    match target
    case None =>
      if Scanned(log) == Some(1) {
        NoneGrows(log, e);
      }
    case Some(m) =>
      LocatedLater(log, e, m);
      if Scanned(log) == Some(1) {
        PromotesGrows(log, e, m);
      }
  }

  lemma NoneIsAny(log: seq<Event>, m: Addr)
    requires PromotesNone(log)
    ensures PromotesOnly(log, m)
  {
  }

  lemma LateEnds(log: seq<Event>, zero: bool, target: Option<Addr>, outcome: Outcome)
    requires Late(log, zero, target) && outcome != Skipped
    ensures Final(outcome, log)
  {
    if Scanned(log) == Some(1) && target.None? {
      NoneIsAny(log, "");
    }
  }

  /** The first full scan is over. */
  lemma CountIsScan(log: seq<Event>, ips: seq<Addr>, n: nat)
    requires CountingLog(log, ips, |ips|, n) && Harmless(log) && Disciplined(log)
    ensures Logged(CountFrom(ips, |ips|, n), log)
  {
    assert FirstIPs(log) == ips;
    assert Scanned(log) == Some(n);
  }

  lemma CountingGrows(log: seq<Event>, ips: seq<Addr>, i: nat, n: nat, e: Event)
    requires CountingLog(log, ips, i, n) && i < |ips|
    requires e.cmd == InfoReplication(ips[i]) && e.reply.RoleIs?
    ensures CountingLog(log + [e], ips, i + 1, if e.reply.role == Master then n + 1 else n)
  {
    hide RunningIPs;
    hide MasterIPs;
    var log' := log + [e];
    ScanExtends(log, e, 2, ips, i);
    assert log'[3..3 + (i + 1)] == log[3..3 + i] + [e];
    MasterIPsStep(log[3..3 + i], e);
  }

  lemma CountingFails(log: seq<Event>, ips: seq<Addr>, i: nat, n: nat, e: Event)
    requires CountingLog(log, ips, i, n) && i < |ips| && !e.reply.RoleIs?
    ensures Scanned(log + [e]).None?
  {
    var log' := log + [e];
    ScanGrows(log, e, 2, ips, i);
    assert FirstIPs(log') == ips;
    assert !AnsweredAt(log', 2, ips, i);
  }

  lemma LateRelaxes(log: seq<Event>)
    requires Late(log, true, None)
    ensures Late(log, false, None) && Scanned(log) == Some(0)
  {
  }

  lemma CountingLogged(plan: Plan, log: seq<Event>, ips: seq<Addr>, i: nat, n: nat, e: Event)
    requires Logged(Counting(ips, i, n), log) && i < |ips| && e.cmd == InfoReplication(ips[i])
    ensures Logged(Advance(plan, Counting(ips, i, n), e.reply), log + [e])
  {
    DisciplineGrows(log, e);
    if e.reply.RoleIs? {
      CountingGrows(log, ips, i, n, e);
      if i + 1 == |ips| {
        CountIsScan(log + [e], ips, if e.reply.role == Master then n + 1 else n);
      }
    } else {
      CountingFails(log, ips, i, n, e);
    }
  }

  lemma ShortLogIsUnscanned(log: seq<Event>)
    requires |log| <= 2 || !log[2].reply.PodsAre?
    ensures Scanned(log).None?
  {
  }

  lemma BeforeCounting(plan: Plan, op: Op, log: seq<Event>, e: Event)
    requires Logged(op, log) && Early(op) && !op.Counting? && e.cmd == NextCommand(plan, op)
    ensures Logged(Advance(plan, op, e.reply), log + [e])
  {
    var log' := log + [e];
    DisciplineGrows(log, e);
    if op.CountList? && e.reply.PodsAre? {
      var ips := RunningIPs(e.reply.pods);
      assert log'[3..3] == [];
      assert CountingLog(log', ips, 0, 0);
      if ips == [] {
        CountIsScan(log', ips, 0);
      }
    } else {
      ShortLogIsUnscanned(log');
    }
  }

  /** The second scan is over. */
  lemma LocateIsScan(log: seq<Event>, ips: seq<Addr>, found: seq<Addr>)
    requires LocatingLog(log, ips, |ips|, found) && Late(log, false, None) && Disciplined(log)
    ensures Logged(LocateFrom(ips, |ips|, found), log)
  {
    hide Scanned;
    hide Disciplined;
    LateEnds(log, false, None, Broken);
    if |found| == 1 {
      var a, m := |log| - 1 - |ips|, found[0];
      assert log[a + 1..a + 1 + |ips|] == log[|log| - |ips|..];
      assert LocatedAt(log, |log|, m, a, ips);
      if Scanned(log) == Some(1) {
        NoneIsAny(log, m);
      }
    }
  }

  lemma LocatingGrows(log: seq<Event>, ips: seq<Addr>, i: nat, found: seq<Addr>, e: Event)
    requires LocatingLog(log, ips, i, found) && i < |ips|
    requires e.cmd == InfoReplication(ips[i]) && e.reply.RoleIs?
    ensures LocatingLog(log + [e], ips, i + 1, if e.reply.role == Master then found + [ips[i]] else found)
  {
    hide RunningIPs;
    hide MasterIPs;
    var a, log' := |log| - 1 - i, log + [e];
    ScanExtends(log, e, a, ips, i);
    assert log'[a + 1..] == log[a + 1..] + [e];
    assert a + 1 == |log'| - (i + 1);
    MasterIPsStep(log[a + 1..], e);
  }

  lemma LocatingLogged(plan: Plan, log: seq<Event>, ips: seq<Addr>, i: nat, found: seq<Addr>, e: Event)
    requires Logged(Locating(ips, i, found), log) && i < |ips| && e.cmd == InfoReplication(ips[i])
    ensures Logged(Advance(plan, Locating(ips, i, found), e.reply), log + [e])
  {
    hide Late;
    hide Disciplined;
    hide LocatingLog;
    hide Final;
    LateGrows(log, e, false, None);
    if e.reply.RoleIs? {
      var found' := if e.reply.role == Master then found + [ips[i]] else found;
      LocatingGrows(log, ips, i, found, e);
      if i + 1 == |ips| {
        LocateIsScan(log + [e], ips, found');
      }
    } else {
      LateEnds(log + [e], false, None, Broken);
    }
  }

  lemma ListingLogged(plan: Plan, log: seq<Event>, e: Event)
    requires Logged(MasterList, log) && e.cmd == ListPods
    ensures Logged(Advance(plan, MasterList, e.reply), log + [e])
  {
    hide Late;
    hide Disciplined;
    hide Final;
    hide RunningIPs;
    var log' := log + [e];
    LateGrows(log, e, false, None);
    if e.reply.PodsAre? {
      var ips := RunningIPs(e.reply.pods);
      assert log'[|log'|..] == [];
      assert LocatingLog(log', ips, 0, []);
      if ips == [] {
        LocateIsScan(log', ips, []);
      }
    } else {
      LateEnds(log', false, None, Broken);
    }
  }

  lemma PromotingLeads(plan: Plan, op: Op, r: Reply, op': Op)
    requires Promotes(op) && Active(plan, op) && Advances(plan, op, r, op')
    ensures Promotes(op') || op'.MasterList? || op' == Finished(Broken)
  {
    hide RunningIPs;
    hide Sorting.IsSorting;
    hide Sorting.Sort;
  }

  lemma PromotingLogged(plan: Plan, op: Op, log: seq<Event>, e: Event, op': Op)
    requires Logged(op, log) && Promotes(op) && Active(plan, op)
    requires e.cmd == NextCommand(plan, op) && Advances(plan, op, e.reply, op')
    ensures Logged(op', log + [e])
  {
    hide Late;
    hide Disciplined;
    hide Final;
    hide EarlyLog;
    hide LocatingLog;
    hide Advances;
    hide NextCommand;
    hide Active;
    hide Scanned;
    PromotingLeads(plan, op, e.reply, op');
    LateRelaxes(log);
    LateGrows(log, e, true, None);
    LateRelaxes(log + [e]);
    LateEnds(log + [e], true, None, Broken);
  }

  /** Past the number checks a pass is never skipped. */
  lemma SettledDoesNotSkip(plan: Plan, m: Addr, step: Step, r: Reply)
    requires ActiveStep(plan, step)
    ensures AdvanceStep(plan, m, step, r) != Stop(Skipped)
  {
    hide CustomFrom;
    hide RunningIPs;
    hide RunningSentinelIPs;
  }

  lemma SettledLogged(plan: Plan, m: Addr, step: Step, log: seq<Event>, e: Event, op': Op)
    requires Logged(Settled(m, step), log) && ActiveStep(plan, step)
    requires e.cmd == StepCommand(plan, m, step) && Advances(plan, Settled(m, step), e.reply, op')
    ensures Logged(op', log + [e])
  {
    hide Late;
    hide Disciplined;
    hide Final;
    hide AdvanceStep;
    hide StepCommand;
    SettledCommands(plan, m, step);
    LateGrows(log, e, false, Some(m));
    SettledDoesNotSkip(plan, m, step, e.reply);
    if op'.Finished? {
      LateEnds(log + [e], false, Some(m), op'.outcome);
    }
  }

  lemma OpLogged(s: Sys, fate: Fate, r: Reply, s': Sys)
    requires Logged(s.op, s.log) && OpStep(s, fate, r, s')
    ensures Logged(s'.op, s'.log)
  {
    hide Logged;
    hide Happens;
    var e := Event(NextCommand(s.plan, s.op), r);
    match s.op
    case Counting(ips, i, n) => CountingLogged(s.plan, s.log, ips, i, n, e);
    case MasterList => ListingLogged(s.plan, s.log, e);
    case Locating(ips, i, found) => LocatingLogged(s.plan, s.log, ips, i, found, e);
    case Settled(m, step) => SettledLogged(s.plan, m, step, s.log, e, s'.op);
    case _ =>
      if Early(s.op) {
        BeforeCounting(s.plan, s.op, s.log, e);
      } else {
        PromotingLogged(s.plan, s.op, s.log, e, s'.op);
      }
  }

  lemma {:induction false} LoggedHolds(run: seq<Sys>, k: nat)
    requires IsRun(run) && run[0].op.Idle? && k < |run|
    ensures Logged(run[k].op, run[k].log)
  {
    hide OpStep;
    hide EnvStep;
    if k > 0 {
      LoggedHolds(run, k - 1);
      var s, s' := run[k - 1], run[k];
      if !WorldStep(s, s') && !BeginPass(s, s') {
        var fate, r :| OpStep(s, fate, r, s');
        OpLogged(s, fate, r, s');
      }
    }
  }

  /** What a log says, wherever the pass is. */
  lemma LoggedMeans(op: Op, log: seq<Event>)
    requires Logged(op, log) && !op.Idle?
    ensures Disciplined(log)
    ensures Scanned(log).Some? && Scanned(log).value >= 2 ==>
      op == Finished(Broken) && Harmless(log) && |log| == 3 + |FirstIPs(log)|
    ensures Scanned(log) == Some(1) ==> exists m :: PromotesOnly(log, m)
    ensures op == Finished(Skipped) ==> Harmless(log)
  {
    if op.Counting? {
      assert FirstIPs(log) == op.ips;
      assert Scanned(log).None?;
    } else if Early(op) {
      ShortLogIsUnscanned(log);
    } else if !op.Finished? {
      LateEnds(log, Promotes(op), Target(op), Broken);
    }
  }

  /**
   * Trace discipline, for runs from any number of masters. Every change of a role or of a
   * monitor is preceded in its pass by a full scan that counted at most one master. After a
   * scan that counted more, the pass is over: it ends in an error right there and has changed
   * nothing. After a scan that counted one, every promotion of the pass goes to one address,
   * which a full scan before that promotion found to be the only master. A pass that was
   * skipped for the number of sentinels, and so reports no error, has changed nothing either.
   */
  lemma TraceDiscipline(run: seq<Sys>, k: nat)
    requires IsRun(run) && run[0].op.Idle? && k < |run| && !run[k].op.Idle?
    ensures Disciplined(run[k].log)
    ensures Scanned(run[k].log).Some? && Scanned(run[k].log).value >= 2 ==>
      run[k].op == Finished(Broken) && Harmless(run[k].log) && |run[k].log| == 3 + |FirstIPs(run[k].log)|
    ensures Scanned(run[k].log) == Some(1) ==> exists m :: PromotesOnly(run[k].log, m)
    ensures run[k].op == Finished(Skipped) ==> Harmless(run[k].log)
  {
    LoggedHolds(run, k);
    LoggedMeans(run[k].op, run[k].log);
  }

  // ---------------------------------------------------------------- whom a settled pass names

  /** Promotions go to m, and every other role or monitor is pointed to m. */
  predicate Names(cmd: Command, m: Addr) {
    && (cmd.SlaveOfNoOne? ==> cmd.ip == m)
    && (cmd.SlaveOfHost? ==> cmd.ip != m && cmd.host == m)
    && (cmd.SentinelMonitor? ==> cmd.host == m)
  }

  /** By position p a full scan had found m to be the only master; from there on m is what is named, and no monitor was changed before. */
  ghost predicate Steered(log: seq<Event>, p: nat, m: Addr) {
    && p <= |log| && Located(log, p, m)
    && (forall k :: p <= k < |log| ==> Names(log[k].cmd, m))
    && (forall k :: 0 <= k < p ==> !ChangesMonitor(log[k].cmd))
  }

  ghost predicate MonitorsUntouched(log: seq<Event>) {
    forall k :: 0 <= k < |log| ==> !ChangesMonitor(log[k].cmd)
  }

  ghost predicate SteeredAt(op: Op, log: seq<Event>) {
    match op
    case Idle => true
    case Settled(m, _) => exists p :: Steered(log, p, m)
    case Finished(_) => MonitorsUntouched(log) || exists p, m :: Steered(log, p, m)
    case _ => MonitorsUntouched(log)
  }

  lemma SteeredGrows(log: seq<Event>, e: Event, p: nat, m: Addr)
    requires Steered(log, p, m) && Names(e.cmd, m)
    ensures Steered(log + [e], p, m)
  {
    hide Located;
    LocatedGrows(log, e, p, m);
  }

  lemma SettlingSteers(op': Op, log: seq<Event>)
    requires Logged(op', log) && MonitorsUntouched(log) && op'.Settled?
    ensures SteeredAt(op', log)
  {
    hide Located;
    hide Scanned;
    assert Steered(log, |log|, op'.m);
  }

  /** Only a settled pass changes monitors, and it stays settled on the same address. */
  lemma SettledOrUntouched(plan: Plan, op: Op, r: Reply, op': Op)
    requires Active(plan, op) && Advances(plan, op, r, op')
    ensures !op.Settled? ==> !ChangesMonitor(NextCommand(plan, op))
    ensures op.Settled? ==> Names(NextCommand(plan, op), op.m) && (op'.Finished? || (op'.Settled? && op'.m == op.m))
    ensures !op'.Idle?
  {
    hide AdvanceStep;
    hide RunningIPs;
    hide NodeConfig.Matches;
    if op.Settled? {
      hide StepCommand;
      SettledCommands(plan, op.m, op.step);
    }
  }

  lemma OpSteers(plan: Plan, op: Op, log: seq<Event>, r: Reply, op': Op)
    requires Active(plan, op) && Advances(plan, op, r, op') && SteeredAt(op, log)
    requires !op.Idle? && !op.Finished? && Logged(op', log + [Event(NextCommand(plan, op), r)])
    ensures SteeredAt(op', log + [Event(NextCommand(plan, op), r)])
  {
    hide Advances;
    hide Active;
    hide NextCommand;
    hide Logged;
    hide Steered;
    hide Names;
    var e := Event(NextCommand(plan, op), r);
    SettledOrUntouched(plan, op, r, op');
    if op.Settled? {
      var p :| Steered(log, p, op.m);
      SteeredGrows(log, e, p, op.m);
    } else if op'.Settled? {
      SettlingSteers(op', log + [e]);
    }
  }

  lemma StepSteers(s: Sys, fate: Fate, r: Reply, s': Sys)
    requires Logged(s.op, s.log) && SteeredAt(s.op, s.log) && OpStep(s, fate, r, s')
    ensures SteeredAt(s'.op, s'.log)
  {
    hide Happens;
    hide Advances;
    hide SteeredAt;
    hide Logged;
    hide NextCommand;
    OpLogged(s, fate, r, s');
    OpSteers(s.plan, s.op, s.log, r, s'.op);
  }

  lemma {:induction false} SteeredHolds(run: seq<Sys>, k: nat)
    requires IsRun(run) && run[0].op.Idle? && k < |run|
    ensures SteeredAt(run[k].op, run[k].log)
  {
    hide OpStep;
    hide EnvStep;
    hide Steered;
    if k > 0 {
      SteeredHolds(run, k - 1);
      LoggedHolds(run, k - 1);
      var s, s' := run[k - 1], run[k];
      if !WorldStep(s, s') && !BeginPass(s, s') {
        var fate, r :| OpStep(s, fate, r, s');
        StepSteers(s, fate, r, s');
      }
    }
  }

  /** A later position still comes after the scan. */
  lemma LocatedFrom(log: seq<Event>, p: int, q: int, m: Addr)
    requires Located(log, p, m) && p <= q <= |log|
    ensures Located(log, q, m)
  {
    var a, ips :| LocatedAt(log, p, m, a, ips);
    assert LocatedAt(log, q, m, a, ips);
  }

  /**
   * In any run, from any number of masters: every MONITOR of a pass, and from the scan that
   * settled it on every promotion and every SLAVEOF, names one address, which a full scan before
   * that command found to be the only master.
   */
  lemma SettledPassNamesTheLocated(run: seq<Sys>, k: nat) returns (p: nat, m: Addr)
    requires IsRun(run) && run[0].op.Idle? && k < |run| && (run[k].op.Settled? || run[k].op.Finished?)
    ensures var log := run[k].log;
      MonitorsUntouched(log) || (Steered(log, p, m) && forall q :: p <= q <= |log| ==> Located(log, q, m))
    ensures run[k].op.Settled? ==> Steered(run[k].log, p, m) && m == run[k].op.m
  {
    hide Next;
    hide Steered;
    SteeredHolds(run, k);
    var log := run[k].log;
    p, m := 0, "";
    if run[k].op.Settled? {
      m := run[k].op.m;
      p :| Steered(log, p, m);
      SteeredLocates(log, p, m);
    } else if !MonitorsUntouched(log) {
      p, m :| Steered(log, p, m);
      SteeredLocates(log, p, m);
    }
  }

  lemma SteeredLocates(log: seq<Event>, p: nat, m: Addr)
    requires Steered(log, p, m)
    ensures forall q :: p <= q <= |log| ==> Located(log, q, m)
  {
    hide LocatedAt;
    forall q | p <= q <= |log|
      ensures Located(log, q, m)
    {
      LocatedFrom(log, p, q, m);
    }
  }
}
