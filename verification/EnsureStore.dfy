/**
 * `Ensure`: the objects a RedisSentinel needs, created when they are missing; the two
 * StatefulSets are also rewritten when they differ in what is compared. Every call may fail.
 */
module EnsureStore {
  import opened RedisSpec
  import Labels

  // ---------------------------------------------------------------- the store of one namespace

  datatype Kind = Service | ConfigMap | DisruptionBudget

  datatype Key = Key(kind: Kind, name: string)

  /** Scripts and configuration texts stand for themselves by name, with the password they embed. */
  datatype Content =
    | Ports(port: int, headless: bool, selector: Labels.LabelSet)
    | File(file: string, password: string)
    | Budget(minAvailable: int, selector: Labels.LabelSet)

  datatype Object = Object(labels: Labels.LabelSet, owner: string, content: Content)

  datatype Container = Container(name: string, image: string, resources: Resources, command: seq<string>)

  /** `podLabels`, `first` and `others` are the pod template; it has at least one container. */
  datatype StatefulSet = StatefulSet(
    labels: Labels.LabelSet, owner: string, serviceName: string, replicas: int, selector: Labels.LabelSet,
    podLabels: Labels.LabelSet, first: Container, others: seq<Container>)

  datatype Store = Store(objects: map<Key, Object>, sets: map<string, StatefulSet>)

  /** What a pass ensures: the object's name and specification, and the labels and owner handed in. */
  datatype Job = Job(name: string, spec: Spec, labels: Labels.LabelSet, owner: string)

  const EXPORTER: string := "redis-exporter"
  const EXPORTER_RESOURCES: Resources :=
    Resources(map["cpu" := 50, "memory" := 50 * 1024 * 1024], map["cpu" := 100, "memory" := 200 * 1024 * 1024])

  function GenerateName(typeName: string, metaName: string): string {
    "redis" + typeName + "-" + metaName
  }

  function RedisName(job: Job): string {
    GenerateName("-worker", job.name)
  }

  function SentinelName(job: Job): string {
    GenerateName("-sentinel", job.name)
  }

  function ReadinessName(job: Job): string {
    GenerateName("-sentinel-readiness", job.name)
  }

  function HeadlessName(job: Job): string {
    GenerateName("-sentinel-headless", job.name)
  }

  function ShutdownName(job: Job): string {
    if job.spec.shutdownConfigMap != "" then job.spec.shutdownConfigMap else GenerateName("r-s", job.name)
  }

  function LabelsFor(job: Job, component: string): Labels.LabelSet {
    Labels.Merge([job.labels, Labels.SelectorLabels(component, job.name)])
  }

  /** The command a redis pod starts with; the default one makes it a replica of its own host. */
  function GetRedisCommand(spec: Spec): seq<string> {
    if spec.command != [] then spec.command
    else
      var auth :=
        if spec.password != "" then ["--requirepass '" + spec.password + "'", "--masterauth '" + spec.password + "'"]
        else [];
      ["redis-server", "--slaveof 127.0.0.1 6379", "--tcp-keepalive 60", "--save 900 1", "--save 300 10"] + auth
  }

  function GenerateRedisStatefulSet(job: Job): StatefulSet {
    var labels := LabelsFor(job, Labels.REDIS_ROLE);
    StatefulSet(labels, job.owner, RedisName(job), job.spec.size, labels, labels,
                Container("redis", job.spec.image, job.spec.resources, GetRedisCommand(job.spec)),
                if job.spec.exporter.enabled
                then [Container(EXPORTER, job.spec.exporter.image, EXPORTER_RESOURCES, [])]
                else [])
  }

  function GenerateSentinelStatefulSet(job: Job): StatefulSet {
    var labels := LabelsFor(job, Labels.SENTINEL_ROLE);
    StatefulSet(labels, job.owner, HeadlessName(job), job.spec.sentinel.replicas, labels, labels,
                Container("sentinel", job.spec.sentinel.image, job.spec.sentinel.resources,
                          if job.spec.sentinel.command != [] then job.spec.sentinel.command
                          else ["redis-server", "/redis/sentinel.conf", "--sentinel"]),
                [])
  }

  // ---------------------------------------------------------------- when a StatefulSet is rewritten

  predicate ShouldUpdateRedis(expected: Resources, actual: Resources, expectSize: int, replicas: int) {
    || expectSize != replicas
    || Amount(actual.requests, "cpu") != Amount(expected.requests, "cpu")
    || Amount(actual.requests, "memory") != Amount(expected.requests, "memory")
    || Amount(actual.limits, "cpu") != Amount(expected.limits, "cpu")
    || Amount(actual.limits, "memory") != Amount(expected.limits, "memory")
  }

  ghost predicate HasExporter(sts: StatefulSet) {
    sts.first.name == EXPORTER || exists k :: 0 <= k < |sts.others| && sts.others[k].name == EXPORTER
  }

  /** What a difference is looked for in. */
  datatype Wanted = RedisSet | SentinelSet

  ghost predicate Differs(job: Job, wanted: Wanted, sts: StatefulSet) {
    match wanted
    case RedisSet =>
      || ShouldUpdateRedis(job.spec.resources, sts.first.resources, job.spec.size, sts.replicas)
      || (job.spec.exporter.enabled <==> !HasExporter(sts))
    case SentinelSet =>
      ShouldUpdateRedis(job.spec.sentinel.resources, sts.first.resources, job.spec.sentinel.replicas, sts.replicas)
  }

  /** A quantity that is not listed is zero. */
  ghost predicate SameAmount(a: ResourceList, b: ResourceList, name: string) {
    (if name in a then a[name] else 0) == (if name in b then b[name] else 0)
  }

  ghost predicate SameQuantities(a: Resources, b: Resources) {
    && SameAmount(a.requests, b.requests, "cpu") && SameAmount(a.requests, b.requests, "memory")
    && SameAmount(a.limits, b.limits, "cpu") && SameAmount(a.limits, b.limits, "memory")
  }

  ghost predicate HasContainer(sts: StatefulSet, name: string) {
    sts.first.name == name || exists k :: 0 <= k < |sts.others| && sts.others[k].name == name
  }

  /** The StatefulSet has the replicas, the four quantities and, for redis, the exporter or none as specified. */
  ghost predicate Agrees(job: Job, wanted: Wanted, sts: StatefulSet) {
    match wanted
    case RedisSet =>
      && sts.replicas == job.spec.size && SameQuantities(job.spec.resources, sts.first.resources)
      && (HasContainer(sts, "redis-exporter") <==> job.spec.exporter.enabled)
    case SentinelSet =>
      sts.replicas == job.spec.sentinel.replicas && SameQuantities(job.spec.sentinel.resources, sts.first.resources)
  }

  /** The comparison finds a difference exactly in a StatefulSet that does not agree. */
  lemma DiffersIffDisagrees(job: Job, wanted: Wanted, sts: StatefulSet)
    ensures Differs(job, wanted, sts) <==> !Agrees(job, wanted, sts)
  {
  }

  function Generated(job: Job, wanted: Wanted): StatefulSet {
    match wanted
    case RedisSet => GenerateRedisStatefulSet(job)
    case SentinelSet => GenerateSentinelStatefulSet(job)
  }

  function SetName(job: Job, wanted: Wanted): string {
    match wanted
    case RedisSet => RedisName(job)
    case SentinelSet => SentinelName(job)
  }

  /** What is written is not found different the next time. */
  lemma GeneratedDoesNotDiffer(job: Job, wanted: Wanted)
    ensures !Differs(job, wanted, Generated(job, wanted))
  {
    if wanted.RedisSet? {
      var sts := GenerateRedisStatefulSet(job);
      assert sts.first.name[..5] == "redis" && |sts.first.name| == 5 && |EXPORTER| == 14;
      if job.spec.exporter.enabled {
        assert sts.others[0].name == EXPORTER;
      }
    }
  }

  lemma SetNamesDiffer(job: Job)
    ensures RedisName(job) != SentinelName(job)
  {
    assert RedisName(job)[6] == 'w' && SentinelName(job)[6] == 's';
  }

  /** The job made for an object: its labels are the operator's and then its own. */
  ghost predicate JobOf(job: Job, namespace: string, user: Labels.LabelSet) {
    job.labels == Labels.GetLabels(namespace, job.name, user)
  }

  /**
   * For any labels the users chose: the selector of a generated StatefulSet picks the pods of
   * another one, of the same namespace, exactly when the two are the same set of the same object.
   */
  lemma SelectorsPickOwnPods(namespace: string, job: Job, user: Labels.LabelSet, wanted: Wanted,
                             job': Job, user': Labels.LabelSet, wanted': Wanted)
    requires JobOf(job, namespace, user) && JobOf(job', namespace, user')
    requires job.name == job'.name ==> user == user'
    ensures Labels.Selects(Generated(job, wanted).selector, Generated(job', wanted').podLabels)
            <==> wanted == wanted' && job.name == job'.name
  {
    Labels.SelectorPicksOwnPodsOnly(namespace, Component(wanted), job.name, user, Component(wanted'), job'.name, user');
  }

  function Component(wanted: Wanted): string {
    match wanted
    case RedisSet => Labels.REDIS_ROLE
    case SentinelSet => Labels.SENTINEL_ROLE
  }

  // ---------------------------------------------------------------- the items of a run

  datatype Item =
    | CreateIfAbsent(key: Key, made: Object)
    | Require(key: Key)
    | Reconcile(wanted: Wanted)

  function ServiceItem(job: Job, name: string, labels: Labels.LabelSet, port: int, headless: bool, selector: Labels.LabelSet): Item {
    CreateIfAbsent(Key(Service, name), Object(labels, job.owner, Ports(port, headless, selector)))
  }

  function RedisServiceItem(job: Job): Item {
    var labels := LabelsFor(job, Labels.REDIS_ROLE);
    ServiceItem(job, RedisName(job), labels, 6379, true, labels)
  }

  function SentinelServiceItem(job: Job): Item {
    var labels := LabelsFor(job, Labels.SENTINEL_ROLE);
    ServiceItem(job, SentinelName(job), labels, 26379, false, labels)
  }

  function HeadlessServiceItem(job: Job): Item {
    var labels := LabelsFor(job, Labels.SENTINEL_ROLE);
    ServiceItem(job, HeadlessName(job), labels, 26379, true, labels)
  }

  function MonitorServiceItem(job: Job): Item {
    var labels := LabelsFor(job, Labels.REDIS_ROLE);
    ServiceItem(job, RedisName(job) + "-monitor", Labels.Merge([labels, map["used-for" := "monitor"]]), 9121, false, labels)
  }

  function FileItem(job: Job, name: string, component: string, file: string, password: string): Item {
    CreateIfAbsent(Key(ConfigMap, name), Object(LabelsFor(job, component), job.owner, File(file, password)))
  }

  function SentinelConfigItem(job: Job): Item {
    FileItem(job, SentinelName(job), Labels.SENTINEL_ROLE, "sentinel.conf", job.spec.password)
  }

  function ProbeItem(job: Job): Item {
    FileItem(job, ReadinessName(job), Labels.REDIS_ROLE, "readiness.sh", "")
  }

  /** A shutdown ConfigMap that the user names must exist; otherwise one is made. */
  function ShutdownItem(job: Job): Item {
    if job.spec.shutdownConfigMap != "" then Require(Key(ConfigMap, job.spec.shutdownConfigMap))
    else FileItem(job, ShutdownName(job), Labels.REDIS_ROLE, "shutdown.sh", "")
  }

  function BudgetItem(job: Job, typeName: string, component: string): Item {
    var labels := LabelsFor(job, component);
    CreateIfAbsent(Key(DisruptionBudget, GenerateName(typeName, job.name)), Object(labels, job.owner, Budget(2, labels)))
  }

  function Items(job: Job): seq<Item> {
    [RedisServiceItem(job), SentinelServiceItem(job), HeadlessServiceItem(job)]
    + (if job.spec.exporter.enabled then [MonitorServiceItem(job)] else [])
    + [SentinelConfigItem(job), ProbeItem(job), ShutdownItem(job),
       BudgetItem(job, "-cluster", Labels.REDIS_ROLE), Reconcile(RedisSet),
       BudgetItem(job, "-sentinel", Labels.SENTINEL_ROLE), Reconcile(SentinelSet)]
  }

  // ---------------------------------------------------------------- one run, as a value

  datatype Outcome = Outcome(store: Store, ok: bool)

  /** Whether an item writes to a store. */
  ghost predicate Writes(job: Job, store: Store, item: Item) {
    match item
    case CreateIfAbsent(key, _) => key !in store.objects
    case Require(_) => false
    case Reconcile(wanted) =>
      SetName(job, wanted) !in store.sets || Differs(job, wanted, store.sets[SetName(job, wanted)])
  }

  ghost function Apply(job: Job, store: Store, item: Item): Outcome {
    match item
    case CreateIfAbsent(key, made) =>
      Outcome(if key in store.objects then store else store.(objects := store.objects[key := made]), true)
    case Require(key) => Outcome(store, key in store.objects)
    case Reconcile(wanted) =>
      Outcome(if Writes(job, store, item)
              then store.(sets := store.sets[SetName(job, wanted) := Generated(job, wanted)])
              else store, true)
  }

  /** The items one after the other, up to the first that cannot be met. */
  ghost function Run(job: Job, store: Store, items: seq<Item>): Outcome {
    if items == [] then Outcome(store, true)
    else
      var before := Run(job, store, items[..|items| - 1]);
      if before.ok then Apply(job, before.store, items[|items| - 1]) else before
  }

  // ---------------------------------------------------------------- retries

  /** The item finds nothing left to do. */
  ghost predicate Settled(job: Job, store: Store, item: Item) {
    Apply(job, store, item) == Outcome(store, true)
  }

  lemma ApplySettles(job: Job, store: Store, item: Item)
    requires Apply(job, store, item).ok
    ensures Settled(job, Apply(job, store, item).store, item)
    ensures !Writes(job, Apply(job, store, item).store, item)
  {
    if item.Reconcile? {
      GeneratedDoesNotDiffer(job, item.wanted);
    }
  }

  /** What is settled stays settled under the other items of the job. */
  lemma OthersLeaveSettled(job: Job, store: Store, item: Item, other: Item)
    requires Settled(job, store, item)
    ensures Settled(job, Apply(job, store, other).store, item)
    ensures !Writes(job, store, item) ==> !Writes(job, Apply(job, store, other).store, item)
  {
    hide Differs;
    SetNamesDiffer(job);
    if item.Reconcile? && other.Reconcile? && item.wanted == other.wanted {
      GeneratedDoesNotDiffer(job, item.wanted);
    }
  }

  lemma {:induction false} RunSettles(job: Job, store: Store, items: seq<Item>)
    requires Run(job, store, items).ok
    ensures forall k :: 0 <= k < |items| ==>
      Settled(job, Run(job, store, items).store, items[k]) && !Writes(job, Run(job, store, items).store, items[k])
  {
    hide Settled;
    hide Apply;
    hide Writes;
    if items != [] {
      var n := |items| - 1;
      var before := Run(job, store, items[..n]);
      RunSettles(job, store, items[..n]);
      ApplySettles(job, before.store, items[n]);
      forall k | 0 <= k < n
        ensures Settled(job, Run(job, store, items).store, items[k]) && !Writes(job, Run(job, store, items).store, items[k])
      {
        assert items[..n][k] == items[k];
        OthersLeaveSettled(job, before.store, items[k], items[n]);
      }
    }
  }

  lemma {:induction false} SettledRunIsIdle(job: Job, store: Store, items: seq<Item>)
    requires forall k :: 0 <= k < |items| ==> Settled(job, store, items[k])
    ensures Run(job, store, items) == Outcome(store, true)
  {
    hide Apply;
    if items != [] {
      var n := |items| - 1;
      forall k | 0 <= k < n
        ensures Settled(job, store, items[..n][k])
      {
        assert items[..n][k] == items[k];
      }
      SettledRunIsIdle(job, store, items[..n]);
    }
  }

  /** A run that takes up where a cut left off ends where an uncut one does. */
  lemma {:induction false} TakesUp(job: Job, store: Store, items: seq<Item>, cut: nat, k: nat)
    requires cut <= k <= |items| && Run(job, store, items[..cut]).ok
    ensures Run(job, Run(job, store, items[..cut]).store, items[..k]) == Run(job, store, items[..k])
    decreases k
  {
    hide Apply;
    hide Settled;
    if k == cut {
      RunSettles(job, store, items[..cut]);
      SettledRunIsIdle(job, Run(job, store, items[..cut]).store, items[..cut]);
    } else {
      TakesUp(job, store, items, cut, k - 1);
      assert items[..k][..k - 1] == items[..k - 1];
    }
  }

  /** Cut off anywhere and run again: the outcome is that of one uncut run. */
  lemma {:induction false} RetryConverges(job: Job, store: Store, items: seq<Item>, cut: nat)
    requires cut <= |items|
    ensures Run(job, Run(job, store, items[..cut]).store, items) == Run(job, store, items)
  {
    if Run(job, store, items[..cut]).ok {
      TakesUp(job, store, items, cut, |items|);
      assert items[..|items|] == items;
    } else {
      assert items[..cut][..cut - 1] == items[..cut - 1];
      assert Run(job, store, items[..cut]).store == Run(job, store, items[..cut - 1]).store;
      RetryConverges(job, store, items, cut - 1);
    }
  }

  /** Runs cut off by failures, each after some number of items. */
  ghost function AfterAttempts(job: Job, store: Store, cuts: seq<nat>): Store {
    if cuts == [] then store
    else
      var before := AfterAttempts(job, store, cuts[..|cuts| - 1]);
      var cut := cuts[|cuts| - 1];
      Run(job, before, Items(job)[..if cut <= |Items(job)| then cut else |Items(job)|]).store
  }

  /**
   * Convergence: any number of runs cut off anywhere and then a whole one end as a single whole
   * run ends, with the same store and the same verdict.
   */
  lemma {:induction false} EnsureConverges(job: Job, store: Store, cuts: seq<nat>)
    ensures Run(job, AfterAttempts(job, store, cuts), Items(job)) == Run(job, store, Items(job))
  {
    hide Items;
    if cuts != [] {
      var n := |cuts| - 1;
      var items, cut := Items(job), cuts[n];
      EnsureConverges(job, store, cuts[..n]);
      RetryConverges(job, AfterAttempts(job, store, cuts[..n]), items, if cut <= |items| then cut else |items|);
    }
  }

  /** After a success another run writes nothing and changes nothing. */
  lemma EnsureIsIdempotent(job: Job, store: Store)
    requires Run(job, store, Items(job)).ok
    ensures var after := Run(job, store, Items(job)).store;
      && Run(job, after, Items(job)) == Outcome(after, true)
      && forall k :: 0 <= k < |Items(job)| ==> !Writes(job, after, Items(job)[k])
  {
    hide Items;
    RunSettles(job, store, Items(job));
    SettledRunIsIdle(job, Run(job, store, Items(job)).store, Items(job));
  }

  // ---------------------------------------------------------------- what a run leaves alone, and what it makes

  /** Everything that was there, but for the two StatefulSets; and nothing new that is not asked for. */
  ghost predicate LeavesAlone(job: Job, before: Store, after: Store) {
    && (forall key :: key in before.objects ==> key in after.objects && after.objects[key] == before.objects[key])
    && (forall name :: name in before.sets && name != RedisName(job) && name != SentinelName(job) ==>
         name in after.sets && after.sets[name] == before.sets[name])
    && (forall name :: name in after.sets && name !in before.sets ==> name == RedisName(job) || name == SentinelName(job))
  }

  /** A StatefulSet that is there and shows no difference in what is compared is not touched, whatever else differs. */
  ghost predicate TouchesOnlyDifferent(job: Job, before: Store, after: Store) {
    forall wanted :: SetName(job, wanted) in before.sets && !Differs(job, wanted, before.sets[SetName(job, wanted)]) ==>
      SetName(job, wanted) in after.sets && after.sets[SetName(job, wanted)] == before.sets[SetName(job, wanted)]
  }

  lemma ApplyLeavesAlone(job: Job, before: Store, now: Store, item: Item)
    requires LeavesAlone(job, before, now) && TouchesOnlyDifferent(job, before, now)
    ensures var after := Apply(job, now, item).store; LeavesAlone(job, before, after) && TouchesOnlyDifferent(job, before, after)
  {
    hide Differs;
    SetNamesDiffer(job);
  }

  /** However far a run gets, it leaves alone what is not its own, and its own where nothing differs. */
  lemma {:induction false} RunLeavesAlone(job: Job, store: Store, items: seq<Item>)
    ensures LeavesAlone(job, store, Run(job, store, items).store)
    ensures TouchesOnlyDifferent(job, store, Run(job, store, items).store)
  {
    hide LeavesAlone;
    hide TouchesOnlyDifferent;
    hide Apply;
    if items == [] {
      AloneToBegin(job, store);
    } else {
      RunLeavesAlone(job, store, items[..|items| - 1]);
      ApplyLeavesAlone(job, store, Run(job, store, items[..|items| - 1]).store, items[|items| - 1]);
    }
  }

  lemma AloneToBegin(job: Job, store: Store)
    ensures LeavesAlone(job, store, store) && TouchesOnlyDifferent(job, store, store)
  {
  }

  /** Every object that appears is one the job asks for. */
  lemma {:induction false} NewObjectsAreAskedFor(job: Job, store: Store, items: seq<Item>, key: Key)
    requires key !in store.objects && key in Run(job, store, items).store.objects
    ensures CreateIfAbsent(key, Run(job, store, items).store.objects[key]) in items
  {
    hide Differs;
    var n := |items| - 1;
    if key in Run(job, store, items[..n]).store.objects {
      NewObjectsAreAskedFor(job, store, items[..n], key);
    } else {
      assert items[n] in items;
    }
  }

  /** The named shutdown ConfigMap is there, or is one that the run itself makes before it looks. */
  ghost predicate Usable(job: Job, store: Store) {
    || job.spec.shutdownConfigMap == ""
    || Key(ConfigMap, job.spec.shutdownConfigMap) in store.objects
    || job.spec.shutdownConfigMap == SentinelName(job)
    || job.spec.shutdownConfigMap == ReadinessName(job)
  }

  lemma FailureStays(job: Job, store: Store, items: seq<Item>, n: nat)
    requires n <= |items| && !Run(job, store, items[..n]).ok
    ensures !Run(job, store, items).ok
    decreases |items| - n
  {
    if n < |items| {
      assert items[..n + 1][..n] == items[..n];
      FailureStays(job, store, items, n + 1);
    } else {
      assert items[..n] == items;
    }
  }

  lemma {:induction false} RunSucceedsUnlessRequired(job: Job, store: Store, items: seq<Item>)
    requires forall k :: 0 <= k < |items| ==> !items[k].Require?
    ensures Run(job, store, items).ok
  {
    if items != [] {
      assert forall k :: 0 <= k < |items| - 1 ==> items[..|items| - 1][k] == items[k];
      RunSucceedsUnlessRequired(job, store, items[..|items| - 1]);
    }
  }

  lemma {:induction false} OnlyRequirementsFail(job: Job, store: Store, items: seq<Item>, r: nat)
    requires r < |items| && forall k :: 0 <= k < |items| && k != r ==> !items[k].Require?
    requires items[r].Require?
    ensures Run(job, store, items).ok <==> items[r].key in Run(job, store, items[..r]).store.objects
  {
    hide Differs;
    var n := |items| - 1;
    assert forall k :: 0 <= k < n ==> items[..n][k] == items[k];
    if r == n {
      RunSucceedsUnlessRequired(job, store, items[..n]);
    } else {
      OnlyRequirementsFail(job, store, items[..n], r);
      assert items[..n][..r] == items[..r];
    }
  }

  /** The position of the shutdown item; what stands before it. */
  function ShutdownAt(job: Job): nat {
    if job.spec.exporter.enabled then 6 else 5
  }

  lemma ItemPositions(job: Job)
    ensures var items, e := Items(job), if job.spec.exporter.enabled then 1 else 0;
      && |items| == 10 + e
      && items[0] == RedisServiceItem(job) && items[1] == SentinelServiceItem(job) && items[2] == HeadlessServiceItem(job)
      && (e == 1 ==> items[3] == MonitorServiceItem(job))
      && items[3 + e] == SentinelConfigItem(job) && items[4 + e] == ProbeItem(job) && items[5 + e] == ShutdownItem(job)
      && items[6 + e] == BudgetItem(job, "-cluster", Labels.REDIS_ROLE) && items[7 + e] == Reconcile(RedisSet)
      && items[8 + e] == BudgetItem(job, "-sentinel", Labels.SENTINEL_ROLE) && items[9 + e] == Reconcile(SentinelSet)
  {
  }

  lemma OnlyShutdownMayBeRequired(job: Job)
    ensures forall k :: 0 <= k < |Items(job)| && k != ShutdownAt(job) ==> Items(job)[k].CreateIfAbsent? || Items(job)[k].Reconcile?
    ensures ShutdownAt(job) < |Items(job)| && Items(job)[ShutdownAt(job)] == ShutdownItem(job)
  {
    ItemPositions(job);
    var items := Items(job);
    forall k | 0 <= k < |items| && k != ShutdownAt(job)
      ensures items[k].CreateIfAbsent? || items[k].Reconcile?
    {
      hide LabelsFor;
    }
  }

  /** Whether the ConfigMap is there when the run looks for it. */
  lemma FoundWhenLookedFor(job: Job, store: Store)
    requires job.spec.shutdownConfigMap != ""
    ensures Key(ConfigMap, job.spec.shutdownConfigMap) in Run(job, store, Items(job)[..ShutdownAt(job)]).store.objects
            <==> Usable(job, store)
  {
    hide Items;
    hide LabelsFor;
    hide Differs;
    ItemPositions(job);
    OnlyShutdownMayBeRequired(job);
    var r, before, key := ShutdownAt(job), Items(job)[..ShutdownAt(job)], Key(ConfigMap, job.spec.shutdownConfigMap);
    assert forall k :: 0 <= k < r ==> before[k] == Items(job)[k];
    RunSucceedsUnlessRequired(job, store, before);
    RunSettles(job, store, before);
    RunLeavesAlone(job, store, before);
    var after := Run(job, store, before).store;
    assert before[r - 2] == SentinelConfigItem(job) && before[r - 1] == ProbeItem(job);
    assert Key(ConfigMap, SentinelName(job)) in after.objects by { assert !Writes(job, after, before[r - 2]); }
    assert Key(ConfigMap, ReadinessName(job)) in after.objects by { assert !Writes(job, after, before[r - 1]); }
    if key in after.objects && key !in store.objects {
      NewObjectsAreAskedFor(job, store, before, key);
      var k :| 0 <= k < r && before[k] == CreateIfAbsent(key, after.objects[key]);
      assert before[k].key.kind == ConfigMap;
      assert k == r - 2 || k == r - 1;
    }
  }

  /** A whole run succeeds exactly when the shutdown ConfigMap is usable. */
  lemma EnsureSucceedsIff(job: Job, store: Store)
    ensures Run(job, store, Items(job)).ok <==> Usable(job, store)
  {
    hide Items;
    hide Run;
    OnlyShutdownMayBeRequired(job);
    if job.spec.shutdownConfigMap == "" {
      RunSucceedsUnlessRequired(job, store, Items(job));
    } else {
      OnlyRequirementsFail(job, store, Items(job), ShutdownAt(job));
      FoundWhenLookedFor(job, store);
    }
  }

  // ---------------------------------------------------------------- what the two StatefulSets end as

  /** What reconciling leaves under the StatefulSet's name. */
  ghost function Reconciled(job: Job, store: Store, wanted: Wanted): StatefulSet {
    if Writes(job, store, Reconcile(wanted)) then Generated(job, wanted) else store.sets[SetName(job, wanted)]
  }

  lemma {:induction false} SetsAfter(job: Job, store: Store, items: seq<Item>, wanted: Wanted)
    requires Run(job, store, items).ok
    ensures var name, after := SetName(job, wanted), Run(job, store, items).store;
      if Reconcile(wanted) in items
      then name in after.sets && after.sets[name] == Reconciled(job, store, wanted)
      else (name in after.sets <==> name in store.sets) && (name in store.sets ==> after.sets[name] == store.sets[name])
  {
    hide Differs;
    hide Generated;
    if items != [] {
      var n := |items| - 1;
      SetsAfter(job, store, items[..n], wanted);
      SetNamesDiffer(job);
      GeneratedDoesNotDiffer(job, wanted);
      assert Reconcile(wanted) in items <==> Reconcile(wanted) in items[..n] || items[n] == Reconcile(wanted);
    }
  }

  lemma EnsureHasSet(job: Job, store: Store, wanted: Wanted)
    requires Usable(job, store)
    ensures var name, after := SetName(job, wanted), Run(job, store, Items(job)).store;
      name in after.sets && after.sets[name] == Reconciled(job, store, wanted)
  {
    hide Differs;
    hide Items;
    hide Run;
    hide Generated;
    EnsureSucceedsIff(job, store);
    SetsAfter(job, store, Items(job), wanted);
    ItemPositions(job);
    var k := |Items(job)| - if wanted.RedisSet? then 3 else 1;
    assert Items(job)[k] == Reconcile(wanted);
  }

  /**
   * After a success both StatefulSets are there, with the replicas, quantities and exporter of
   * the specification. One that agreed in these is as it was; one that was missing or did not is
   * exactly as generated, in every field. So it ends as generated exactly when it was missing,
   * did not agree, or was as generated already.
   */
  lemma EnsureReconciles(job: Job, store: Store, wanted: Wanted)
    requires Usable(job, store)
    ensures var name, after := SetName(job, wanted), Run(job, store, Items(job)).store;
      && name in after.sets && Agrees(job, wanted, after.sets[name]) && !Differs(job, wanted, after.sets[name])
      && after.sets[name] == Reconciled(job, store, wanted)
      && (name in store.sets && Agrees(job, wanted, store.sets[name]) ==> after.sets[name] == store.sets[name])
      && (name !in store.sets || !Agrees(job, wanted, store.sets[name]) ==> after.sets[name] == Generated(job, wanted))
      && (after.sets[name] == Generated(job, wanted) <==>
            name !in store.sets || !Agrees(job, wanted, store.sets[name]) || store.sets[name] == Generated(job, wanted))
  {
    hide Agrees;
    DiffersIffDisagrees(job, wanted, Run(job, store, Items(job)).store.sets[SetName(job, wanted)]) by {
      EnsureHasSet(job, store, wanted);
    }
    if SetName(job, wanted) in store.sets {
      DiffersIffDisagrees(job, wanted, store.sets[SetName(job, wanted)]);
    }
    hide Differs;
    hide Items;
    hide Run;
    hide Generated;
    EnsureHasSet(job, store, wanted);
    GeneratedDoesNotDiffer(job, wanted);
  }

  /** The StatefulSet as generated, but for the image of its first container. */
  function WithImage(sts: StatefulSet, image: string): StatefulSet {
    sts.(first := sts.first.(image := image))
  }

  /** The failing case: a new image in the specification never reaches a StatefulSet that agrees in the rest. */
  lemma ImageEditIsIgnored(job: Job, store: Store, wanted: Wanted, image: string)
    requires Usable(job, store) && image != Generated(job, wanted).first.image
    requires SetName(job, wanted) in store.sets && store.sets[SetName(job, wanted)] == WithImage(Generated(job, wanted), image)
    ensures var after := Run(job, store, Items(job)).store;
      SetName(job, wanted) in after.sets && after.sets[SetName(job, wanted)].first.image == image
  {
    hide Items;
    hide Run;
    GeneratedDoesNotDiffer(job, wanted);
    EnsureReconciles(job, store, wanted);
  }
}
