/** The objects and StatefulSets a run makes, spelled out. */
module EnsureObjects {
  import opened Basics
  import opened RedisSpec
  import opened EnsureStore
  import opened EnsureApart
  import Labels

  /** The labels handed in, under the three that tell the workload. */
  ghost function LabelsOf(job: Job, component: string): Labels.LabelSet {
    job.labels
    + map["app.kubernetes.io/part-of" := "redis-cluster", "app.kubernetes.io/component" := component,
          "app.kubernetes.io/name" := job.name]
  }

  lemma LabelsAre(job: Job, component: string)
    ensures LabelsFor(job, component) == LabelsOf(job, component)
  {
    var parts := [job.labels, Labels.SelectorLabels(component, job.name)];
    assert parts[..1] == [job.labels] && parts[..1][..0] == [];
    assert Labels.Merge(parts[..1]) == job.labels;
  }

  // ---------------------------------------------------------------- services, ConfigMaps, budgets

  ghost function ObjectOf(job: Job, component: string, content: Content): Option<Object> {
    Some(Object(LabelsOf(job, component), job.owner, content))
  }

  /** What the job makes under a key, if anything. */
  ghost function WantedObject(job: Job, key: Key): Option<Object> {
    var n, redis, sentinel := job.name, LabelsOf(job, "redis"), LabelsOf(job, "sentinel");
    match key.kind
    case Service =>
      if key.name == "redis-worker-" + n then ObjectOf(job, "redis", Ports(6379, true, redis))
      else if key.name == "redis-sentinel-" + n then ObjectOf(job, "sentinel", Ports(26379, false, sentinel))
      else if key.name == "redis-sentinel-headless-" + n then ObjectOf(job, "sentinel", Ports(26379, true, sentinel))
      else if key.name == "redis-worker-" + n + "-monitor" && job.spec.exporter.enabled then
        Some(Object(redis + map["used-for" := "monitor"], job.owner, Ports(9121, false, redis)))
      else None
    case ConfigMap =>
      if key.name == "redis-sentinel-" + n then ObjectOf(job, "sentinel", File("sentinel.conf", job.spec.password))
      else if key.name == "redis-sentinel-readiness-" + n then ObjectOf(job, "redis", File("readiness.sh", ""))
      else if key.name == "redisr-s-" + n && job.spec.shutdownConfigMap == "" then ObjectOf(job, "redis", File("shutdown.sh", ""))
      else None
    case DisruptionBudget =>
      if key.name == "redis-cluster-" + n then ObjectOf(job, "redis", Budget(2, redis))
      else if key.name == "redis-sentinel-" + n then ObjectOf(job, "sentinel", Budget(2, sentinel))
      else None
  }

  /** The names of one job differ from each other. */
  lemma NamesDiffer(n: string)
    ensures "redis-worker-" + n != "redis-sentinel-" + n
    ensures "redis-worker-" + n != "redis-sentinel-headless-" + n
    ensures "redis-sentinel-" + n != "redis-sentinel-headless-" + n
    ensures "redis-sentinel-" + n != "redis-sentinel-readiness-" + n
    ensures "redis-worker-" + n + "-monitor" != "redis-worker-" + n
    ensures "redis-worker-" + n + "-monitor" != "redis-sentinel-" + n
    ensures "redis-worker-" + n + "-monitor" != "redis-sentinel-headless-" + n
    ensures "redisr-s-" + n != "redis-sentinel-" + n
    ensures "redisr-s-" + n != "redis-sentinel-readiness-" + n
    ensures "redis-cluster-" + n != "redis-sentinel-" + n
  {
    assert ("redis-worker-" + n)[6] == 'w' && ("redis-sentinel-" + n)[6] == 's' && ("redis-sentinel-headless-" + n)[6] == 's';
    assert ("redis-worker-" + n + "-monitor")[6] == 'w' && ("redis-cluster-" + n)[6] == 'c';
    assert ("redisr-s-" + n)[5] == 'r' && ("redis-sentinel-" + n)[5] == '-' && ("redis-sentinel-readiness-" + n)[5] == '-';
    assert |"redis-sentinel-" + n| < |"redis-sentinel-headless-" + n| && |"redis-sentinel-" + n| < |"redis-sentinel-readiness-" + n|;
    assert |"redis-worker-" + n| < |"redis-worker-" + n + "-monitor"|;
  }

  lemma NamesAre(job: Job)
    ensures RedisName(job) == "redis-worker-" + job.name
    ensures SentinelName(job) == "redis-sentinel-" + job.name
    ensures HeadlessName(job) == "redis-sentinel-headless-" + job.name
    ensures ReadinessName(job) == "redis-sentinel-readiness-" + job.name
    ensures GenerateName("-cluster", job.name) == "redis-cluster-" + job.name
    ensures GenerateName("-sentinel", job.name) == "redis-sentinel-" + job.name
    ensures GenerateName("r-s", job.name) == "redisr-s-" + job.name
  {
    Spelt(job);
    hide RedisName;
    hide SentinelName;
    hide HeadlessName;
    hide ReadinessName;
    hide GenerateName;
    assert "redis-sentinel-" + ("headless-" + job.name) == "redis-sentinel-headless-" + job.name;
    assert "redis-sentinel-" + ("readiness-" + job.name) == "redis-sentinel-readiness-" + job.name;
  }

  lemma MonitorLabelsAre(job: Job)
    ensures Labels.Merge([LabelsFor(job, "redis"), map["used-for" := "monitor"]]) == LabelsOf(job, "redis") + map["used-for" := "monitor"]
  {
    LabelsAre(job, "redis");
    var parts := [LabelsFor(job, "redis"), map["used-for" := "monitor"]];
    assert parts[..1] == [LabelsFor(job, "redis")] && parts[..1][..0] == [];
    assert Labels.Merge(parts[..1]) == LabelsFor(job, "redis");
  }

  /** Every item that creates makes what is wanted under its key. */
  lemma ItemMakesWanted(job: Job, item: Item)
    requires item in Items(job) && item.CreateIfAbsent?
    ensures WantedObject(job, item.key) == Some(item.made)
  {
    hide LabelsFor;
    hide LabelsOf;
    hide RedisName;
    hide SentinelName;
    hide HeadlessName;
    hide ReadinessName;
    hide GenerateName;
    NamesAre(job);
    NamesDiffer(job.name);
    LabelsAre(job, "redis");
    LabelsAre(job, "sentinel");
    MonitorLabelsAre(job);
  }

  /** What is wanted under a key is what the job may create there. */
  lemma WantedIffMade(job: Job, key: Key)
    ensures WantedObject(job, key).Some? <==> Makes(job, key)
  {
    hide LabelsOf;
    NamesAre(job);
  }

  /**
   * After a success the store holds under every key what it held before, and under the free
   * keys exactly the services, ConfigMaps and disruption budgets spelled out above.
   */
  lemma EnsureMakesExactly(job: Job, store: Store, key: Key)
    requires Usable(job, store)
    ensures var objects := Run(job, store, Items(job)).store.objects;
      && (key in store.objects ==> key in objects && objects[key] == store.objects[key])
      && (key !in store.objects ==> (key in objects <==> WantedObject(job, key).Some?))
      && (key !in store.objects && key in objects ==> objects[key] == WantedObject(job, key).value)
  {
    hide Items;
    hide Run;
    hide WantedObject;
    hide Makes;
    var after := Run(job, store, Items(job)).store;
    EnsureSucceedsIff(job, store);
    RunLeavesAlone(job, store, Items(job));
    WantedIffMade(job, key);
    if Makes(job, key) {
      var item := MadeByItem(job, key);
      RunSettles(job, store, Items(job));
      var k :| 0 <= k < |Items(job)| && Items(job)[k] == item;
      assert !Writes(job, after, Items(job)[k]);
    }
    if key !in store.objects && key in after.objects {
      NewObjectsAreAskedFor(job, store, Items(job), key);
      ItemMakesWanted(job, CreateIfAbsent(key, after.objects[key]));
    }
  }

  // ---------------------------------------------------------------- a shutdown ConfigMap that cannot be used

  lemma {:induction false} FailureEndsRun(job: Job, store: Store, items: seq<Item>, n: nat)
    requires n <= |items| && !Run(job, store, items[..n]).ok
    ensures Run(job, store, items) == Run(job, store, items[..n])
  {
    if n < |items| {
      assert items[..|items| - 1][..n] == items[..n];
      FailureEndsRun(job, store, items[..|items| - 1], n);
    } else {
      assert items[..n] == items;
    }
  }

  lemma {:induction false} OnlyReconcilingWritesSets(job: Job, store: Store, items: seq<Item>)
    requires forall k :: 0 <= k < |items| ==> !items[k].Reconcile?
    ensures Run(job, store, items).store.sets == store.sets
  {
    if items != [] {
      var front := items[..|items| - 1];
      assert forall k :: 0 <= k < |front| ==> front[k] == items[k];
      OnlyReconcilingWritesSets(job, store, front);
    }
  }

  /** The items up to the shutdown ConfigMap make no StatefulSet. */
  lemma ShutdownComesBeforeSets(job: Job, k: nat)
    requires k <= ShutdownAt(job)
    ensures k < |Items(job)| && !Items(job)[k].Reconcile?
  {
    hide LabelsFor;
    ItemPositions(job);
  }

  lemma ShutdownStopsRun(job: Job, store: Store)
    requires !Usable(job, store)
    ensures ShutdownAt(job) < |Items(job)| && !Run(job, store, Items(job)[..ShutdownAt(job) + 1]).ok
  {
    hide Items;
    hide Usable;
    assert job.spec.shutdownConfigMap != "" by { OnlyIfNamed(job, store); }
    OnlyShutdownMayBeRequired(job);
    FoundWhenLookedFor(job, store);
    var items := Items(job)[..ShutdownAt(job) + 1];
    assert items[..|items| - 1] == Items(job)[..ShutdownAt(job)];
  }

  lemma OnlyIfNamed(job: Job, store: Store)
    requires !Usable(job, store)
    ensures job.spec.shutdownConfigMap != ""
  {
  }

  /** As long as the named shutdown ConfigMap is missing, no run, however far it gets, creates or changes a StatefulSet. */
  lemma UnusableKeepsSets(job: Job, store: Store, n: nat)
    requires !Usable(job, store) && n <= |Items(job)|
    ensures Run(job, store, Items(job)[..n]).store.sets == store.sets
  {
    hide Items;
    hide Usable;
    hide Run;
    ShutdownStopsRun(job, store);
    var items, r := Items(job), ShutdownAt(job) + 1;
    forall k | 0 <= k < r
      ensures k < |items| && !items[k].Reconcile?
    {
      ShutdownComesBeforeSets(job, k);
    }
    if n <= r {
      OnlyReconcilingWritesSets(job, store, items[..n]);
    } else {
      assert items[..n][..r] == items[..r];
      FailureEndsRun(job, store, items[..n], r);
      OnlyReconcilingWritesSets(job, store, items[..r]);
    }
  }

  // ---------------------------------------------------------------- the two StatefulSets

  /** What redis starts with when the specification says nothing. */
  ghost function RedisCommandOf(password: string): seq<string> {
    if password == "" then
      ["redis-server", "--slaveof 127.0.0.1 6379", "--tcp-keepalive 60", "--save 900 1", "--save 300 10"]
    else
      ["redis-server", "--slaveof 127.0.0.1 6379", "--tcp-keepalive 60", "--save 900 1", "--save 300 10",
       "--requirepass '" + password + "'", "--masterauth '" + password + "'"]
  }

  /** What is written when a StatefulSet is created or rewritten, field by field. */
  lemma GeneratedSpelledOut(job: Job)
    ensures SetName(job, RedisSet) == "redis-worker-" + job.name
    ensures SetName(job, SentinelSet) == "redis-sentinel-" + job.name
    ensures var sts := Generated(job, RedisSet);
      && sts.owner == job.owner && sts.serviceName == "redis-worker-" + job.name && sts.replicas == job.spec.size
      && sts.labels == sts.selector == sts.podLabels == LabelsOf(job, "redis")
      && sts.first.name == "redis" && sts.first.image == job.spec.image && sts.first.resources == job.spec.resources
      && sts.first.command == (if job.spec.command != [] then job.spec.command else RedisCommandOf(job.spec.password))
      && |sts.others| == (if job.spec.exporter.enabled then 1 else 0)
      && (job.spec.exporter.enabled ==>
           && sts.others[0].name == "redis-exporter" && sts.others[0].image == job.spec.exporter.image
           && sts.others[0].resources == Resources(map["cpu" := 50, "memory" := 52428800], map["cpu" := 100, "memory" := 209715200]))
    ensures var sts := Generated(job, SentinelSet);
      && sts.owner == job.owner && sts.serviceName == "redis-sentinel-headless-" + job.name
      && sts.replicas == job.spec.sentinel.replicas
      && sts.labels == sts.selector == sts.podLabels == LabelsOf(job, "sentinel")
      && sts.first.name == "sentinel" && sts.first.image == job.spec.sentinel.image
      && sts.first.resources == job.spec.sentinel.resources
      && sts.first.command == (if job.spec.sentinel.command != [] then job.spec.sentinel.command
                               else ["redis-server", "/redis/sentinel.conf", "--sentinel"])
      && sts.others == []
  {
    NamesAre(job);
    LabelsAre(job, "redis");
    LabelsAre(job, "sentinel");
    hide LabelsFor;
    hide LabelsOf;
  }
}
