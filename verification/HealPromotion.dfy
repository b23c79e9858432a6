/**
 * Promotion of the oldest: what a pass that found no master has sent by the time it looks for
 * the master it made.
 */
module HealPromotion {
  import opened Basics
  import opened Cluster
  import opened HealMachine
  import opened HealSafety
  import opened HealTrace
  import NodeConfig
  import Sorting

  /** The t-th command of a promotion of items. */
  function PromotionCommand(items: seq<PodView>, t: nat): Command
    requires t < |items|
  {
    if t == 0 then SlaveOfNoOne(items[0].ip) else SlaveOfHost(items[t].ip, items[0].ip)
  }

  /** It was carried out, in its place after the listing at a. */
  ghost predicate CarriedOut(log: seq<Event>, a: int, items: seq<PodView>, t: nat) {
    && t < |items| && 0 <= a + 1 + t < |log|
    && log[a + 1 + t] == Event(PromotionCommand(items, t), Done)
  }

  /** The pods were listed, and not exactly one of them was running. */
  ghost predicate NotAlone(e: Event) {
    e.cmd == ListPods && e.reply.PodsAre? && |RunningIPs(e.reply.pods)| != 1
  }

  /** Before position a no single running pod was found, and the ages were asked for. */
  ghost predicate SeveralSeen(log: seq<Event>, a: int) {
    2 <= a <= |log| && NotAlone(log[a - 2]) && log[a - 1].cmd == ListPods && log[a - 1].reply.PodsAre?
  }

  /**
   * The first i commands of a promotion stand after position a, where the pods were listed, not
   * exactly one having been found running before; no role changed before.
   */
  ghost predicate PromotedFrom(log: seq<Event>, a: int, items: seq<PodView>, i: nat) {
    && 0 <= a && a + 1 + i <= |log| && i <= |items| && items != []
    && log[a].cmd == ListPods && log[a].reply.PodsAre? && Sorting.IsSorting(log[a].reply.pods, items, Created)
    && SeveralSeen(log, a)
    && (forall k :: 0 <= k <= a ==> !ChangesRole(log[k].cmd))
    && (forall t :: 0 <= t < i ==> CarriedOut(log, a, items, t))
    && (i > 0 ==> items[0].ip != "")
  }

  ghost predicate OldestPromoted(log: seq<Event>) {
    exists a, items :: PromotedFrom(log, a, items, |items|)
  }

  /** The listing showed a single running pod, which was promoted. */
  ghost predicate SolePromotedAt(log: seq<Event>, a: int) {
    && 0 <= a && a + 1 < |log|
    && log[a].cmd == ListPods && log[a].reply.PodsAre? && |RunningIPs(log[a].reply.pods)| == 1
    && log[a + 1] == Event(SlaveOfNoOne(RunningIPs(log[a].reply.pods)[0]), Done)
    && forall k :: 0 <= k <= a ==> !ChangesRole(log[k].cmd)
  }

  ghost predicate SolePromoted(log: seq<Event>) {
    exists a :: SolePromotedAt(log, a)
  }

  ghost predicate RolesUntouched(log: seq<Event>) {
    forall k :: 0 <= k < |log| ==> !ChangesRole(log[k].cmd)
  }

  /** Once a pass has counted no master and promoted, the promotion is on record. */
  ghost predicate OnRecord(log: seq<Event>) {
    Scanned(log) == Some(0) ==> SolePromoted(log) || OldestPromoted(log)
  }

  ghost predicate Recorded(op: Op, log: seq<Event>) {
    match op
    case Idle => true
    case RedisNumber => RolesUntouched(log)
    case SentinelNumber => RolesUntouched(log)
    case CountList => RolesUntouched(log)
    case Counting(_, _, _) => RolesUntouched(log)
    case SoleList => RolesUntouched(log)
    case PromoteSole(ip) =>
      && RolesUntouched(log) && log != []
      && var e := log[|log| - 1];
        e.cmd == ListPods && e.reply.PodsAre? && |RunningIPs(e.reply.pods)| == 1 && RunningIPs(e.reply.pods)[0] == ip
    case AgeList => RolesUntouched(log) && log != [] && NotAlone(log[|log| - 1])
    case OldestList => RolesUntouched(log) && SeveralSeen(log, |log|)
    case Promoting(items, i, leader) =>
      && i < |items| && PromotedFrom(log, |log| - 1 - i, items, i)
      && leader == if i == 0 then "" else items[0].ip
    case MasterList => OnRecord(log)
    case Locating(_, _, _) => OnRecord(log)
    case Settled(_, _) => OnRecord(log)
    case Finished(outcome) => outcome == Healthy ==> OnRecord(log)
  }

  // ---------------------------------------------------------------- logs only grow

  lemma UntouchedGrows(log: seq<Event>, e: Event)
    requires RolesUntouched(log) && !ChangesRole(e.cmd)
    ensures RolesUntouched(log + [e])
  {
  }

  lemma PromotedGrows(log: seq<Event>, e: Event, a: int, items: seq<PodView>, i: nat)
    requires PromotedFrom(log, a, items, i)
    ensures PromotedFrom(log + [e], a, items, i)
  {
    hide Sorting.IsSorting;
    forall t | 0 <= t < i
      ensures CarriedOut(log + [e], a, items, t)
    {
      assert CarriedOut(log, a, items, t);
    }
  }

  lemma RecordGrows(log: seq<Event>, e: Event)
    requires OnRecord(log) && Scanned(log).Some?
    ensures OnRecord(log + [e]) && Scanned(log + [e]).Some?
  {
    hide Scanned;
    hide RunningIPs;
    ScannedGrows(log, e);
    if Scanned(log) == Some(0) {
      if SolePromoted(log) {
        var a :| SolePromotedAt(log, a);
        assert SolePromotedAt(log + [e], a);
      } else {
        var a, items :| PromotedFrom(log, a, items, |items|);
        PromotedGrows(log, e, a, items, |items|);
      }
    }
  }

  lemma PromotingRecorded(w: World, plan: Plan, items: seq<PodView>, i: nat, leader: Addr, log: seq<Event>, fate: Fate, w': World, e: Event)
    requires WellAddressed(w) && Recorded(Promoting(items, i, leader), log) && i < |items|
    requires e.cmd == NextCommand(plan, Promoting(items, i, leader)) && Happens(w, e.cmd, fate, w', e.reply)
    ensures Recorded(Advance(plan, Promoting(items, i, leader), e.reply), log + [e])
  {
    hide Happens;
    hide Scanned;
    hide Sorting.IsSorting;
    hide SolePromoted;
    hide SeveralSeen;
    hide RunningIPs;
    if e.reply.Done? {
      var a, log' := |log| - 1 - i, log + [e];
      PromotedGrows(log, e, a, items, i);
      assert log'[a + 1 + i] == e;
      if i == 0 {
        DoneWasReachable(w, items[0].ip, fate, w', e.reply);
      }
      assert CarriedOut(log', a, items, i);
      assert PromotedFrom(log', a, items, i + 1);
      assert a == |log'| - 1 - (i + 1);
      if i + 1 == |items| {
        assert PromotedFrom(log', a, items, |items|);
        assert OldestPromoted(log');
      } else {
        assert Advance(plan, Promoting(items, i, leader), e.reply) == Promoting(items, i + 1, items[0].ip);
      }
    }
  }

  lemma SoleRecorded(plan: Plan, ip: Addr, log: seq<Event>, e: Event)
    requires Recorded(PromoteSole(ip), log) && e.cmd == SlaveOfNoOne(ip)
    ensures Recorded(Advance(plan, PromoteSole(ip), e.reply), log + [e])
  {
    hide Scanned;
    hide RunningIPs;
    hide OldestPromoted;
    if e.reply.Done? {
      assert SolePromotedAt(log + [e], |log| - 1);
    }
  }

  lemma OldestRecorded(plan: Plan, log: seq<Event>, e: Event, op': Op)
    requires RolesUntouched(log) && SeveralSeen(log, |log|) && e.cmd == ListPods && Advances(plan, OldestList, e.reply, op')
    ensures Recorded(op', log + [e])
  {
    hide Scanned;
    hide RunningIPs;
    if e.reply.PodsAre? && e.reply.pods != [] {
      assert multiset(op'.items) == multiset(e.reply.pods) && |multiset(op'.items)| == |op'.items|
        && |multiset(e.reply.pods)| == |e.reply.pods|;
      assert PromotedFrom(log + [e], |log|, op'.items, 0);
    }
  }

  lemma CountIsOnRecord(log: seq<Event>, ips: seq<Addr>, n: nat)
    requires CountingLog(log, ips, |ips|, n) && n != 0
    ensures OnRecord(log)
  {
    assert FirstIPs(log) == ips;
    assert Scanned(log) == Some(n);
  }

  /** The first scan leads to a promotion, or is on record as having found a master. */
  lemma CountingRecorded(plan: Plan, ips: seq<Addr>, i: nat, n: nat, log: seq<Event>, e: Event)
    requires i < |ips| && CountingLog(log, ips, i, n) && RolesUntouched(log) && e.cmd == InfoReplication(ips[i])
    ensures Recorded(Advance(plan, Counting(ips, i, n), e.reply), log + [e])
  {
    hide Scanned;
    hide RunningIPs;
    UntouchedGrows(log, e);
    if e.reply.RoleIs? {
      var n' := if e.reply.role == Master then n + 1 else n;
      CountingGrows(log, ips, i, n, e);
      if i + 1 == |ips| && n' == 1 {
        CountIsOnRecord(log + [e], ips, n');
      }
    }
  }

  /** Points that read, before anything has been promoted. */
  predicate Looks(op: Op) {
    op.RedisNumber? || op.SentinelNumber? || op.CountList? || op.SoleList? || op.AgeList?
  }

  lemma LooksRecorded(plan: Plan, op: Op, log: seq<Event>, e: Event)
    requires Looks(op) && Recorded(op, log) && e.cmd == NextCommand(plan, op)
    ensures Recorded(Advance(plan, op, e.reply), log + [e])
  {
    hide Scanned;
    hide RunningIPs;
    UntouchedGrows(log, e);
  }

  /** From the search for the master on, the record stands. */
  lemma LaterRecorded(plan: Plan, op: Op, log: seq<Event>, e: Event, op': Op)
    requires (op.MasterList? || op.Locating? || op.Settled?) && Active(plan, op)
    requires Recorded(op, log) && Scanned(log).Some? && Advances(plan, op, e.reply, op')
    ensures Recorded(op', log + [e])
  {
    hide Scanned;
    hide RunningIPs;
    hide OnRecord;
    hide AdvanceStep;
    hide NodeConfig.Matches;
    RecordGrows(log, e);
  }

  lemma OpRecorded(s: Sys, fate: Fate, r: Reply, s': Sys)
    requires Inv(s) && Logged(s.op, s.log) && Recorded(s.op, s.log) && OpStep(s, fate, r, s')
    ensures Recorded(s'.op, s'.log)
  {
    hide Happens;
    hide Recorded;
    hide Scanned;
    hide RunningIPs;
    hide Disciplined;
    hide Final;
    hide NodeConfig.Matches;
    hide AdvanceStep;
    hide StepCommand;
    var e := Event(NextCommand(s.plan, s.op), r);
    match s.op {
      case Counting(ips, i, n) =>
        RecordedLooks(s.op, s.log);
        CountingRecorded(s.plan, ips, i, n, s.log, e);
      case PromoteSole(ip) => SoleRecorded(s.plan, ip, s.log, e);
      case OldestList =>
        RecordedLooks(s.op, s.log);
        OldestRecorded(s.plan, s.log, e, s'.op);
      case Promoting(items, i, leader) =>
        PromotingRecorded(s.world, s.plan, items, i, leader, s.log, fate, s'.world, e);
      case _ =>
        if Looks(s.op) {
          LooksRecorded(s.plan, s.op, s.log, e);
        } else {
          LaterRecorded(s.plan, s.op, s.log, e, s'.op);
        }
    }
  }

  lemma RecordedLooks(op: Op, log: seq<Event>)
    requires (op.Counting? || op.OldestList?) && Recorded(op, log)
    ensures RolesUntouched(log)
    ensures op.OldestList? ==> SeveralSeen(log, |log|)
  {
  }

  lemma {:induction false} RecordHolds(run: seq<Sys>, k: nat)
    requires IsRun(run) && AtRest(run[0]) && run[0].op.Idle? && k < |run|
    ensures Recorded(run[k].op, run[k].log)
  {
    hide OpStep;
    hide EnvStep;
    hide Inv;
    if k > 0 {
      RecordHolds(run, k - 1);
      InvHolds(run, k - 1);
      LoggedHolds(run, k - 1);
      var s, s' := run[k - 1], run[k];
      if WorldStep(s, s') {
      } else if BeginPass(s, s') {
        assert s'.log == [] && s'.op == RedisNumber;
      } else {
        var fate, r :| OpStep(s, fate, r, s');
        OpRecorded(s, fate, r, s');
      }
    }
  }

  // ---------------------------------------------------------------- the oldest is promoted

  /** Exactly one position from a to b carries a command, to this address, and it is cmd. */
  ghost predicate SentOnce(log: seq<Event>, a: int, b: int, ip: Addr, cmd: Command) {
    exists t :: SentAt(log, a, b, t, cmd)
      && forall u :: a <= u < b && 0 <= u < |log| && ChangesRole(log[u].cmd) && log[u].cmd.ip == ip ==> u == t
  }

  ghost predicate SentAt(log: seq<Event>, a: int, b: int, t: int, cmd: Command) {
    a <= t < b && 0 <= t < |log| && log[t] == Event(cmd, Done)
  }

  lemma PromotionSendsOnce(log: seq<Event>, a: int, items: seq<PodView>, k: nat)
    requires PromotedFrom(log, a, items, |items|) && k < |items|
    requires forall j, k :: 0 <= j < k < |items| ==> items[j].ip != items[k].ip
    ensures SentOnce(log, 0, a + 1 + |items|, items[k].ip, PromotionCommand(items, k))
  {
    hide RunningIPs;
    hide Sorting.IsSorting;
    var b := a + 1 + |items|;
    assert CarriedOut(log, a, items, k);
    assert SentAt(log, 0, b, a + 1 + k, PromotionCommand(items, k));
    forall u | 0 <= u < b && ChangesRole(log[u].cmd) && log[u].cmd.ip == items[k].ip
      ensures u == a + 1 + k
    {
      assert u > a;
      assert CarriedOut(log, a, items, u - a - 1);
    }
  }

  lemma OneIsPromoted(log: seq<Event>, a: int, items: seq<PodView>, t: nat)
    requires PromotedFrom(log, a, items, |items|) && t < a + 1 + |items| && log[t].cmd.SlaveOfNoOne?
    ensures log[t].cmd.ip == items[0].ip
  {
    hide RunningIPs;
    hide Sorting.IsSorting;
    assert t > a;
    assert CarriedOut(log, a, items, t - a - 1);
  }

  /**
   * What a recorded promotion is: with addresses of their own, a pod created no later than any
   * other was promoted, once and as the only one, and each other pod was pointed to it once.
   */
  lemma OldestIsPromoted(log: seq<Event>, a: int, items: seq<PodView>) returns (oldest: PodView)
    requires PromotedFrom(log, a, items, |items|)
    requires forall j, k :: 0 <= j < k < |items| ==> items[j].ip != items[k].ip
    ensures oldest in log[a].reply.pods && oldest.ip != ""
    ensures forall v :: v in log[a].reply.pods ==> oldest.created <= v.created
    ensures SentOnce(log, 0, a + 1 + |items|, oldest.ip, SlaveOfNoOne(oldest.ip))
    ensures forall t :: 0 <= t < a + 1 + |items| && log[t].cmd.SlaveOfNoOne? ==> log[t].cmd.ip == oldest.ip
    ensures forall v :: v in log[a].reply.pods && v != oldest ==>
      SentOnce(log, 0, a + 1 + |items|, v.ip, SlaveOfHost(v.ip, oldest.ip))
  {
    hide RunningIPs;
    hide CarriedOut;
    hide SentOnce;
    Sorting.PermutationFacts(log[a].reply.pods, items);
    oldest := items[0];
    PromotionSendsOnce(log, a, items, 0);
    forall t: nat | t < a + 1 + |items| && log[t].cmd.SlaveOfNoOne?
      ensures log[t].cmd.ip == oldest.ip
    {
      OneIsPromoted(log, a, items, t);
    }
    forall v | v in log[a].reply.pods
      ensures oldest.created <= v.created
      ensures v != oldest ==> SentOnce(log, 0, a + 1 + |items|, v.ip, SlaveOfHost(v.ip, oldest.ip))
    {
      var k :| 0 <= k < |items| && items[k] == v;
      assert Created(items[0]) <= Created(items[k]);
      PromotionSendsOnce(log, a, items, k);
    }
  }

  /**
   * In any run, with any losses and restarts: a pass that counted no master and goes on to look
   * for the one it made has either promoted the single running pod, or carried out the whole
   * promotion of the oldest.
   */
  lemma PromotionIsComplete(run: seq<Sys>, k: nat)
    requires IsRun(run) && AtRest(run[0]) && run[0].op.Idle? && k < |run|
    requires var op := run[k].op; op.MasterList? || op.Locating? || op.Settled? || op == Finished(Healthy)
    requires Scanned(run[k].log) == Some(0)
    ensures SolePromoted(run[k].log) || OldestPromoted(run[k].log)
  {
    hide Next;
    hide Scanned;
    hide SolePromoted;
    hide OldestPromoted;
    RecordHolds(run, k);
  }
}
