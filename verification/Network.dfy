/**
 * The cluster as the operator meets it: commands are carried out, lost on the way out or lost
 * on the way back, and the world moves by itself between two commands.
 */
module Network {
  import opened Basics
  import opened Cluster
  import opened HealMachine
  import NodeConfig

  method ServePodList(w: World) returns (items: seq<PodView>)
    ensures ListsPods(items, w)
  {
    var order := Range(w.pods.Keys);
    items := [];
    for k := 0 to |order|
      invariant |items| == k
      invariant forall j :: 0 <= j < k ==> items[j].id == order[j] && items[j] == ViewOf(order[j], w.pods[order[j]])
    {
      items := items + [ViewOf(order[k], w.pods[order[k]])];
    }
    forall id | id in w.pods
      ensures ViewOf(id, w.pods[id]) in items
    {
      assert id in order;
      var k :| 0 <= k < |order| && order[k] == id;
      assert items[k] == ViewOf(id, w.pods[id]);
    }
  }

  method ServeSentinelList(w: World) returns (items: seq<SentinelView>)
    ensures ListsSentinels(items, w)
  {
    var order := Range(w.sentinels.Keys);
    items := [];
    for k := 0 to |order|
      invariant |items| == k
      invariant forall j :: 0 <= j < k ==>
        items[j].id == order[j] && items[j] == SentinelViewOf(order[j], w.sentinels[order[j]])
    {
      items := items + [SentinelViewOf(order[k], w.sentinels[order[k]])];
    }
    forall id | id in w.sentinels
      ensures SentinelViewOf(id, w.sentinels[id]) in items
    {
      assert id in order;
      var k :| 0 <= k < |order| && order[k] == id;
      assert items[k] == SentinelViewOf(id, w.sentinels[id]);
    }
  }

  method ServeRead(w: World, cmd: Command) returns (r: Reply)
    requires cmd.InfoReplication? || cmd.ConfigGet?
    ensures Serves(w, cmd, w, r)
  {
    if id :| id in w.pods && Answers(w.pods[id], cmd.ip) {
      assert RunsAt(w, id, cmd.ip);
      r := if cmd.InfoReplication? then RoleIs(w.pods[id].role) else ConfigIs(w.pods[id].config);
    } else {
      r := Failed;
    }
  }

  method ServeSetting(w: World, ip: Addr, key: string, value: string) returns (w': World, r: Reply)
    ensures Serves(w, ConfigSet(ip, key, value), w', r)
  {
    hide NodeConfig.Set;
    w', r := w, Failed;
    if id :| id in w.pods && Answers(w.pods[id], ip) {
      assert RunsAt(w, id, ip);
      match NodeConfig.Set(w.pods[id].config, key, value) {
        case Some(conf) => w', r := WithConfig(w, id, conf), Done;
        case None =>
      }
    }
  }

  method ServeSentinel(w: World, sip: Addr, act: Sentinel -> (Sentinel, Reply)) returns (w': World, r: Reply)
    ensures SentinelServes(w, sip, w', r, act)
  {
    if id :| id in w.sentinels && SentinelAnswers(w.sentinels[id], sip) {
      assert SentinelRunsAt(w, id, sip);
      var (s, answer) := act(w.sentinels[id]);
      w', r := WithSentinel(w, id, s), answer;
    } else {
      w', r := w, Failed;
    }
  }

  /** Asking a sentinel leaves the world as it is. */
  lemma AskingServes(w: World, sip: Addr, w': World, r: Reply, act: Sentinel -> (Sentinel, Reply))
    requires SentinelServes(w, sip, w', r, act) && forall s :: act(s).0 == s
    ensures w' == w
  {
    if exists id :: SentinelRunsAt(w, id, sip) {
      var id :| SentinelRunsAt(w, id, sip) && w' == WithSentinel(w, id, act(w.sentinels[id]).0);
      assert w'.sentinels == w.sentinels;
    }
  }

  method ServeSentinelCommand(w: World, cmd: Command) returns (w': World, r: Reply)
    requires cmd.SentinelMaster? || cmd.SentinelRemove? || cmd.SentinelMonitor? || cmd.SentinelSet?
      || cmd.SentinelInfo? || cmd.SentinelSlaves? || cmd.SentinelReset?
    ensures Serves(w, cmd, w', r)
  {
    hide SentinelServes;
    match cmd
    case SentinelMaster(sip) =>
      var act := (s: Sentinel) => (s, if s.monitored.Some? then MonitorIs(s.monitored.value) else Failed);
      w', r := ServeSentinel(w, sip, act);
      AskingServes(w, sip, w', r, act);
    case SentinelRemove(sip) =>
      w', r := ServeSentinel(w, sip, (s: Sentinel) => (Removed(s), if s.monitored.Some? then Done else Failed));
    case SentinelMonitor(sip, host, _) =>
      w', r := ServeSentinel(w, sip, (s: Sentinel) => if s.monitored.Some? then (s, Failed) else (Monitoring(s, host), Done));
    case SentinelSet(sip, param, setting) =>
      w', r := ServeSentinel(w, sip, (s: Sentinel) =>
        if s.monitored.Some? then (s.(options := s.options[param := setting]), Done) else (s, Failed));
    case SentinelInfo(sip) =>
      w', r := ServeSentinel(w, sip, (s: Sentinel) => (s, InfoIs(s.statusOk, s.peers)));
    case SentinelSlaves(sip) =>
      w', r := ServeSentinel(w, sip, (s: Sentinel) => (s, if s.monitored.Some? then BlobsAre(s.blobs) else Failed));
    case SentinelReset(sip) =>
      w', r := ServeSentinel(w, sip, (s: Sentinel) => (Forgetful(s), Done));
  }

  /** Carries out a command that arrives. */
  method Serve(w: World, cmd: Command) returns (w': World, r: Reply)
    ensures Serves(w, cmd, w', r)
  {
    w' := w;
    match cmd
    case GetRedisSet => r := SetIs(w.redisSet);
    case GetSentinelSet => r := SetIs(w.sentinelSet);
    case ListPods =>
      var items := ServePodList(w);
      r := PodsAre(items);
    case ListSentinels =>
      var items := ServeSentinelList(w);
      r := SentinelsAre(items);
    case InfoReplication(_) => r := ServeRead(w, cmd);
    case ConfigGet(_) => r := ServeRead(w, cmd);
    case SlaveOfNoOne(ip) =>
      if Reachable(w, ip) {
        w', r := WithRole(w, ip, Master), Done;
      } else {
        r := Failed;
      }
    case SlaveOfHost(ip, host) =>
      if Reachable(w, ip) {
        w', r := WithRole(w, ip, SlaveOf(host)), Done;
      } else {
        r := Failed;
      }
    case ConfigSet(ip, key, value) => w', r := ServeSetting(w, ip, key, value);
    case ReadClock => r := TimeIs(w.now);
    case Sleep(span) => w', r := w.(now := w.now + span), Done;
    case _ => w', r := ServeSentinelCommand(w, cmd);
  }

  /** A command on its way: it arrives, or it or its reply is lost. */
  method Send(w: World, cmd: Command) returns (w': World, r: Reply, fate: Fate)
    ensures Happens(w, cmd, fate, w', r)
  {
    hide Serves;
    fate := *;
    if !Remote(cmd) {
      fate := Delivered;
    }
    match fate
    case Delivered => w', r := Serve(w, cmd);
    case RequestLost => w', r := w, Failed;
    case ReplyLost =>
      var answer;
      w', answer := Serve(w, cmd);
      r := Failed;
  }

  // ---------------------------------------------------------------- the world by itself

  predicate Continues(p: Pod, q: Pod) {
    p.running && q == p.(config := q.config)
  }

  predicate CanBecome(w: World, w': World) {
    && w.now <= w'.now
    && forall id | id in w'.pods && w'.pods[id].running ::
         && w'.pods[id].ip != ""
         && (w'.pods[id].role == SlaveOf(LOCALHOST) || (id in w.pods && Continues(w.pods[id], w'.pods[id])))
         && forall other | other in w'.pods && w'.pods[other].running ::
              w'.pods[other].ip == w'.pods[id].ip ==> other == id
  }

  lemma CanBecomeIsEnvStep(w: World, w': World)
    ensures CanBecome(w, w') <==> EnvStep(w, w')
  {
    if EnvStep(w, w') {
      forall id | id in w'.pods && w'.pods[id].running
        ensures w'.pods[id].ip != ""
        ensures w'.pods[id].role == SlaveOf(LOCALHOST) || (id in w.pods && Continues(w.pods[id], w'.pods[id]))
        ensures forall other | other in w'.pods && w'.pods[other].running ::
          w'.pods[other].ip == w'.pods[id].ip ==> other == id
      {
        assert Runs(w', id);
        forall other | other in w'.pods && w'.pods[other].running && w'.pods[other].ip == w'.pods[id].ip
          ensures other == id
        {
          assert Runs(w', other);
        }
      }
    }
    if CanBecome(w, w') {
      assert forall id :: Runs(w', id) ==> id in w'.pods && w'.pods[id].running;
    }
  }

  /** Any step the environment can take, and no other. */
  method Disturb(w: World) returns (w': World)
    requires WellAddressed(w)
    ensures EnvStep(w, w')
  {
    w' := *;
    CanBecomeIsEnvStep(w, w');
    if !CanBecome(w, w') {
      w' := w;
      assert forall id :: Runs(w, id) ==> Survives(w.pods[id], w.pods[id]);
    }
  }
}
