/**
 * Two RedisSentinels in one namespace: when the objects they ask for have different names, and
 * that their runs then do not notice each other.
 */
module EnsureApart {
  import opened EnsureStore
  import Labels

  // ---------------------------------------------------------------- what a job touches

  /** Whether one item may write what the other reads or writes. */
  predicate Clash(a: Job, x: Item, b: Job, y: Item) {
    match x
    case CreateIfAbsent(key, _) => !y.Reconcile? && y.key == key
    case Require(key) => y.CreateIfAbsent? && y.key == key
    case Reconcile(wanted) => y.Reconcile? && SetName(b, y.wanted) == SetName(a, wanted)
  }

  ghost predicate Disjoint(a: Job, b: Job) {
    forall x, y :: x in Items(a) && y in Items(b) ==> !Clash(a, x, b, y)
  }

  /** The keys a job may create, by kind. */
  predicate Makes(job: Job, key: Key) {
    match key.kind
    case Service =>
      || key.name == RedisName(job) || key.name == SentinelName(job) || key.name == HeadlessName(job)
      || (job.spec.exporter.enabled && key.name == RedisName(job) + "-monitor")
    case ConfigMap =>
      || key.name == SentinelName(job) || key.name == ReadinessName(job)
      || (job.spec.shutdownConfigMap == "" && key.name == GenerateName("r-s", job.name))
    case DisruptionBudget =>
      key.name == GenerateName("-cluster", job.name) || key.name == GenerateName("-sentinel", job.name)
  }

  predicate Needs(job: Job, key: Key) {
    job.spec.shutdownConfigMap != "" && key == Key(ConfigMap, job.spec.shutdownConfigMap)
  }

  lemma MakesItems(job: Job, item: Item)
    requires item in Items(job)
    ensures item.CreateIfAbsent? ==> Makes(job, item.key)
    ensures item.Require? ==> Needs(job, item.key)
  {
    hide LabelsFor;
    hide RedisName;
    hide SentinelName;
    hide HeadlessName;
    hide ReadinessName;
    hide GenerateName;
  }

  lemma MadeByItem(job: Job, key: Key) returns (item: Item)
    requires Makes(job, key)
    ensures item in Items(job) && item.CreateIfAbsent? && item.key == key
  {
    hide LabelsFor;
    hide RedisName;
    hide SentinelName;
    hide HeadlessName;
    hide ReadinessName;
    hide GenerateName;
    item := match key.kind
      case Service =>
        if key.name == RedisName(job) then RedisServiceItem(job)
        else if key.name == SentinelName(job) then SentinelServiceItem(job)
        else if key.name == HeadlessName(job) then HeadlessServiceItem(job)
        else MonitorServiceItem(job)
      case ConfigMap =>
        if key.name == SentinelName(job) then SentinelConfigItem(job)
        else if key.name == ReadinessName(job) then ProbeItem(job)
        else ShutdownItem(job)
      case DisruptionBudget =>
        if key.name == GenerateName("-cluster", job.name) then BudgetItem(job, "-cluster", Labels.REDIS_ROLE)
        else BudgetItem(job, "-sentinel", Labels.SENTINEL_ROLE);
  }

  // ---------------------------------------------------------------- when names coincide

  /** What a's name or ConfigMap takes from b. */
  predicate Shadows(a: Job, b: Job) {
    || a.name == "headless-" + b.name
    || a.name == "readiness-" + b.name
    || (b.spec.exporter.enabled && a.name == b.name + "-monitor")
    || (a.spec.shutdownConfigMap != "" && Makes(b, Key(ConfigMap, a.spec.shutdownConfigMap)))
  }

  predicate Apart(a: Job, b: Job) {
    a.name != b.name && !Shadows(a, b) && !Shadows(b, a)
  }

  lemma SameTail(p: string, x: string, y: string)
    ensures p + x == p + y <==> x == y
  {
    assert (p + x)[|p|..] == x && (p + y)[|p|..] == y;
  }

  /** The names of b, spelt from the left. */
  lemma Spelt(job: Job)
    ensures RedisName(job) == "redis-worker-" + job.name
    ensures SentinelName(job) == "redis-sentinel-" + job.name
    ensures HeadlessName(job) == "redis-sentinel-" + ("headless-" + job.name)
    ensures ReadinessName(job) == "redis-sentinel-" + ("readiness-" + job.name)
    ensures RedisName(job) + "-monitor" == "redis-worker-" + (job.name + "-monitor")
    ensures GenerateName("-cluster", job.name) == "redis-cluster-" + job.name
    ensures GenerateName("-sentinel", job.name) == "redis-sentinel-" + job.name
    ensures GenerateName("r-s", job.name) == "redisr-s-" + job.name
  {
  }

  /** Names with different beginnings differ. */
  lemma KindsOfNames(x: string, y: string)
    ensures "redis-worker-" + x != "redis-sentinel-" + y
    ensures "redis-cluster-" + x != "redis-sentinel-" + y
    ensures "redisr-s-" + x != "redis-sentinel-" + y
  {
    assert ("redis-worker-" + x)[6] == 'w' && ("redis-sentinel-" + y)[6] == 's';
    assert ("redis-cluster-" + x)[6] == 'c' && ("redisr-s-" + x)[5] == 'r' && ("redis-sentinel-" + y)[5] == '-';
  }

  lemma SameEnd(x: string, y: string, p: string)
    ensures x + p == y + p <==> x == y
  {
    if x + p == y + p {
      assert x == (x + p)[..|x|] && y == (y + p)[..|y|];
    }
  }

  datatype Family = Worker | OfSentinel | Cluster | Shutdown

  function Beginning(f: Family): string {
    match f
    case Worker => "redis-worker-"
    case OfSentinel => "redis-sentinel-"
    case Cluster => "redis-cluster-"
    case Shutdown => "redisr-s-"
  }

  /** What follows the beginning in the names of one family and kind. */
  predicate Tail(job: Job, kind: Kind, f: Family, tail: string) {
    match (kind, f)
    case (Service, Worker) => tail == job.name || (job.spec.exporter.enabled && tail == job.name + "-monitor")
    case (Service, OfSentinel) => tail == job.name || tail == "headless-" + job.name
    case (ConfigMap, OfSentinel) => tail == job.name || tail == "readiness-" + job.name
    case (ConfigMap, Shutdown) => job.spec.shutdownConfigMap == "" && tail == job.name
    case (DisruptionBudget, Cluster) => tail == job.name
    case (DisruptionBudget, OfSentinel) => tail == job.name
    case _ => false
  }

  lemma NameOfFamily(job: Job, key: Key) returns (f: Family, tail: string)
    requires Makes(job, key)
    ensures key.name == Beginning(f) + tail && Tail(job, key.kind, f, tail)
  {
    Spelt(job);
    hide RedisName;
    hide SentinelName;
    hide HeadlessName;
    hide ReadinessName;
    hide GenerateName;
    match key.kind
    case Service =>
      if key.name == RedisName(job) {
        f, tail := Worker, job.name;
      } else if key.name == SentinelName(job) {
        f, tail := OfSentinel, job.name;
      } else if key.name == HeadlessName(job) {
        f, tail := OfSentinel, "headless-" + job.name;
      } else {
        f, tail := Worker, job.name + "-monitor";
      }
    case ConfigMap =>
      if key.name == SentinelName(job) {
        f, tail := OfSentinel, job.name;
      } else if key.name == ReadinessName(job) {
        f, tail := OfSentinel, "readiness-" + job.name;
      } else {
        f, tail := Shutdown, job.name;
      }
    case DisruptionBudget =>
      if key.name == GenerateName("-cluster", job.name) {
        f, tail := Cluster, job.name;
      } else {
        f, tail := OfSentinel, job.name;
      }
  }

  lemma FamiliesDiffer(f: Family, x: string, g: Family, y: string)
    requires Beginning(f) + x == Beginning(g) + y
    requires f.OfSentinel? || g.OfSentinel? || f == g
    ensures f == g && x == y
  {
    KindsOfNames(x, y);
    KindsOfNames(y, x);
    SameTail(Beginning(f), x, y);
  }

  lemma TailsShared(a: Job, b: Job, kind: Kind, f: Family, tail: string)
    requires Tail(a, kind, f, tail) && Tail(b, kind, f, tail)
    ensures a.name == b.name || Shadows(a, b) || Shadows(b, a)
  {
    hide Makes;
    SameTail("headless-", a.name, b.name);
    SameTail("readiness-", a.name, b.name);
    SameEnd(a.name, b.name, "-monitor");
  }

  /** Two jobs of different names make no key in common unless one shadows the other. */
  lemma SharedKeys(a: Job, b: Job, key: Key)
    requires Makes(a, key) && Makes(b, key)
    ensures a.name == b.name || Shadows(a, b) || Shadows(b, a)
  {
    hide Makes;
    hide Shadows;
    var f, x := NameOfFamily(a, key);
    var g, y := NameOfFamily(b, key);
    FamiliesDiffer(f, x, g, y);
    TailsShared(a, b, key.kind, f, x);
  }

  lemma SetNamesApart(a: Job, x: Wanted, b: Job, y: Wanted)
    ensures SetName(a, x) == SetName(b, y) <==> x == y && a.name == b.name
  {
    Spelt(a);
    Spelt(b);
    KindsOfNames(a.name, b.name);
    KindsOfNames(b.name, a.name);
    SameTail("redis-worker-", a.name, b.name);
    SameTail("redis-sentinel-", a.name, b.name);
  }

  lemma ApartDoNotClash(a: Job, x: Item, b: Job, y: Item)
    requires Apart(a, b) && x in Items(a) && y in Items(b)
    ensures !Clash(a, x, b, y)
  {
    hide Items;
    hide Makes;
    MakesItems(a, x);
    MakesItems(b, y);
    if x.Reconcile? {
      if y.Reconcile? {
        SetNamesApart(a, x.wanted, b, y.wanted);
      }
    } else if !y.Reconcile? && x.key == y.key && x.CreateIfAbsent? && y.CreateIfAbsent? {
      SharedKeys(a, b, x.key);
    }
  }

  lemma CommonKeyClashes(a: Job, b: Job, key: Key)
    requires Makes(a, key) && Makes(b, key)
    ensures !Disjoint(a, b)
  {
    hide Items;
    hide Makes;
    var x := MadeByItem(a, key);
    var y := MadeByItem(b, key);
    assert Clash(a, x, b, y);
  }

  lemma NeededKeyClashes(a: Job, b: Job)
    requires a.spec.shutdownConfigMap != "" && Makes(b, Key(ConfigMap, a.spec.shutdownConfigMap))
    ensures !Disjoint(a, b) && !Disjoint(b, a)
  {
    hide Items;
    hide Makes;
    var x := ShutdownItem(a);
    ItemPositions(a);
    var y := MadeByItem(b, x.key);
    assert Clash(a, x, b, y) && Clash(b, y, a, x);
  }

  lemma ShadowsShare(a: Job, b: Job)
    requires Shadows(a, b)
    ensures !Disjoint(a, b) && !Disjoint(b, a)
  {
    hide Items;
    hide Disjoint;
    Spelt(a);
    Spelt(b);
    if a.spec.shutdownConfigMap != "" && Makes(b, Key(ConfigMap, a.spec.shutdownConfigMap)) {
      NeededKeyClashes(a, b);
    } else {
      var key :=
        if a.name == "headless-" + b.name then Key(Service, SentinelName(a))
        else if a.name == "readiness-" + b.name then Key(ConfigMap, SentinelName(a))
        else Key(Service, RedisName(a));
      CommonKeyClashes(a, b, key);
      CommonKeyClashes(b, a, key);
    }
  }

  /**
   * The items of two jobs touch nothing in common exactly when the names differ, neither is
   * the other's with `headless-` or `readiness-` in front or, with an exporter, `-monitor`
   * behind, and neither names a shutdown ConfigMap that the other makes.
   */
  lemma ApartIffDisjoint(a: Job, b: Job)
    ensures Disjoint(a, b) <==> Apart(a, b)
  {
    hide Items;
    hide Clash;
    hide Makes;
    hide Shadows;
    if Apart(a, b) {
      forall x, y | x in Items(a) && y in Items(b)
        ensures !Clash(a, x, b, y)
      {
        ApartDoNotClash(a, x, b, y);
      }
    } else if a.name == b.name {
      SameNameClashes(a, b);
    } else if Shadows(a, b) {
      ShadowsShare(a, b);
    } else {
      ShadowsShare(b, a);
    }
  }

  lemma SameNameClashes(a: Job, b: Job)
    requires a.name == b.name
    ensures !Disjoint(a, b)
  {
    CommonKeyClashes(a, b, Key(Service, RedisName(a)));
  }

  // ---------------------------------------------------------------- runs that do not notice each other

  ghost predicate Commute(a: Job, x: Item, b: Job, y: Item, store: Store) {
    && Apply(a, Apply(b, store, y).store, x).ok == Apply(a, store, x).ok
    && Apply(b, Apply(a, store, x).store, y).ok == Apply(b, store, y).ok
    && Apply(a, Apply(b, store, y).store, x).store == Apply(b, Apply(a, store, x).store, y).store
  }

  lemma ObjectsCommute(a: Job, x: Item, b: Job, y: Item, store: Store)
    requires !x.Reconcile? && !y.Reconcile? && (x.key != y.key || (x.Require? && y.Require?))
    ensures Commute(a, x, b, y, store)
  {
    if x.CreateIfAbsent? && y.CreateIfAbsent? {
      assert store.objects[x.key := x.made][y.key := y.made] == store.objects[y.key := y.made][x.key := x.made];
    }
  }

  lemma MixedCommute(a: Job, x: Item, b: Job, y: Item, store: Store)
    requires x.Reconcile? && !y.Reconcile?
    ensures Commute(a, x, b, y, store) && Commute(b, y, a, x, store)
  {
    hide Differs;
    hide Generated;
    hide SetName;
  }

  lemma SetsCommute(a: Job, x: Item, b: Job, y: Item, store: Store)
    requires x.Reconcile? && y.Reconcile? && SetName(a, x.wanted) != SetName(b, y.wanted)
    ensures Commute(a, x, b, y, store)
  {
    hide Differs;
    hide Generated;
    var (k, l) := (SetName(a, x.wanted), SetName(b, y.wanted));
    var (v, u) := (Generated(a, x.wanted), Generated(b, y.wanted));
    hide SetName;
    assert store.sets[k := v][l := u] == store.sets[l := u][k := v];
  }

  lemma ItemsCommute(a: Job, x: Item, b: Job, y: Item, store: Store)
    requires !Clash(a, x, b, y)
    ensures Commute(a, x, b, y, store)
  {
    hide Commute;
    hide SetName;
    if !x.Reconcile? && !y.Reconcile? {
      ObjectsCommute(a, x, b, y, store);
    } else if x.Reconcile? && y.Reconcile? {
      SetsCommute(a, x, b, y, store);
    } else if x.Reconcile? {
      MixedCommute(a, x, b, y, store);
    } else {
      MixedCommute(b, y, a, x, store);
    }
  }

  lemma {:induction false} RunPastItem(a: Job, items: seq<Item>, b: Job, y: Item, store: Store)
    requires forall x :: x in items ==> !Clash(a, x, b, y)
    ensures Run(a, Apply(b, store, y).store, items) ==
      Outcome(Apply(b, Run(a, store, items).store, y).store, Run(a, store, items).ok)
    ensures Apply(b, Run(a, store, items).store, y).ok == Apply(b, store, y).ok
  {
    hide Apply;
    hide Clash;
    if items != [] {
      var n := |items| - 1;
      RunPastItem(a, items[..n], b, y, store);
      ItemsCommute(a, items[n], b, y, Run(a, store, items[..n]).store);
    }
  }

  lemma {:induction false} RunsCommuteBy(a: Job, xs: seq<Item>, b: Job, ys: seq<Item>, store: Store)
    requires forall x, y :: x in xs && y in ys ==> !Clash(a, x, b, y)
    ensures Run(b, Run(a, store, xs).store, ys) ==
      Outcome(Run(a, Run(b, store, ys).store, xs).store, Run(b, store, ys).ok)
    ensures Run(a, Run(b, store, ys).store, xs).ok == Run(a, store, xs).ok
  {
    hide Apply;
    hide Clash;
    if ys != [] {
      var n := |ys| - 1;
      RunsCommuteBy(a, xs, b, ys[..n], store);
      var before := Run(b, store, ys[..n]);
      if before.ok {
        assert ys[n] in ys;
        RunPastItem(a, xs, b, ys[n], before.store);
      }
    }
  }

  /**
   * Jobs that are apart do not notice each other: however far either run gets, in whichever
   * order they run, the store ends the same and each run succeeds as it would have alone.
   */
  lemma RunsCommute(a: Job, n: nat, b: Job, m: nat, store: Store)
    requires Apart(a, b) && n <= |Items(a)| && m <= |Items(b)|
    ensures var xs, ys := Items(a)[..n], Items(b)[..m];
      && Run(b, Run(a, store, xs).store, ys).store == Run(a, Run(b, store, ys).store, xs).store
      && Run(b, Run(a, store, xs).store, ys).ok == Run(b, store, ys).ok
      && Run(a, Run(b, store, ys).store, xs).ok == Run(a, store, xs).ok
  {
    hide Items;
    hide Run;
    hide Clash;
    hide Apart;
    ApartIffDisjoint(a, b);
    RunsCommuteBy(a, Items(a)[..n], b, Items(b)[..m], store);
  }
}
