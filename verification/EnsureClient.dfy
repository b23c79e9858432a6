/**
 * `Ensure` and its helpers, call by call, against a store whose calls may fail before or after
 * they take effect. However it ends, it has done a prefix of the run, and all of it when it
 * reports success.
 */
module EnsureClient {
  import opened EnsureStore
  import Labels

  /** The store, the number of writes that took effect in it, and the number of calls that failed. */
  datatype Tally = Tally(store: Store, writes: nat, faults: nat)

  ghost function WriteCount(job: Job, store: Store, items: seq<Item>): nat {
    if items == [] then 0
    else
      var n := |items| - 1;
      WriteCount(job, store, items[..n])
      + if Writes(job, Run(job, store, items[..n]).store, items[n]) then 1 else 0
  }

  lemma {:induction false} NoWriteCounts(job: Job, store: Store, items: seq<Item>)
    requires forall k :: 0 <= k < |items| ==> Settled(job, store, items[k]) && !Writes(job, store, items[k])
    ensures WriteCount(job, store, items) == 0
  {
    hide Writes;
    hide Settled;
    if items != [] {
      var n := |items| - 1;
      assert forall k :: 0 <= k < n ==> items[..n][k] == items[k];
      NoWriteCounts(job, store, items[..n]);
      SettledRunIsIdle(job, store, items[..n]);
    }
  }

  /** A run after a success performs no write at all. */
  lemma SecondRunWritesNothing(job: Job, store: Store)
    requires Run(job, store, Items(job)).ok
    ensures WriteCount(job, Run(job, store, Items(job)).store, Items(job)) == 0
  {
    hide Items;
    hide Writes;
    hide Settled;
    RunSettles(job, store, Items(job));
    NoWriteCounts(job, Run(job, store, Items(job)).store, Items(job));
  }

  // ---------------------------------------------------------------- what one call may do

  /** The effect of one item that was carried out. */
  ghost predicate Applied(job: Job, t: Tally, item: Item, t': Tally) {
    && Apply(job, t.store, item).ok && t'.store == Apply(job, t.store, item).store
    && t'.writes == t.writes + if Writes(job, t.store, item) then 1 else 0
  }

  /** Success means the item was carried out. An error means a failed call, with or without the effect, or a missing requirement. */
  ghost predicate Did(job: Job, t: Tally, item: Item, ok: bool, t': Tally) {
    && t.faults <= t'.faults
    && (ok ==> Applied(job, t, item, t'))
    && (!ok ==>
         || (t'.faults > t.faults && Applied(job, t, item, t'))
         || (t'.store == t.store && t'.writes == t.writes
             && (t'.faults > t.faults || !Apply(job, t.store, item).ok)))
  }

  /** The first n items of the job have been carried out since t0. */
  ghost predicate Ran(job: Job, t0: Tally, n: nat, t: Tally) {
    && n <= |Items(job)| && t0.faults <= t.faults
    && var items := Items(job)[..n];
      Run(job, t0.store, items).ok && t.store == Run(job, t0.store, items).store
      && t.writes == t0.writes + WriteCount(job, t0.store, items)
  }

  /** It stopped after some prefix, because a call failed or a requirement is missing. */
  ghost predicate Stopped(job: Job, t0: Tally, t: Tally) {
    && (exists n :: Ran(job, t0, n, t))
    && (t.faults > t0.faults || !Run(job, t0.store, Items(job)).ok)
  }

  lemma OneMore(job: Job, t0: Tally, n: nat, t: Tally, item: Item, ok: bool, t': Tally)
    requires Ran(job, t0, n, t) && n < |Items(job)| && item == Items(job)[n] && Did(job, t, item, ok, t')
    ensures ok ==> Ran(job, t0, n + 1, t')
    ensures !ok ==> Stopped(job, t0, t')
  {
    hide Items;
    hide Writes;
    hide Apply;
    var items := Items(job);
    assert items[..n + 1][..n] == items[..n];
    if Applied(job, t, item, t') {
      assert Ran(job, t0, n + 1, t');
    } else {
      assert Ran(job, t0, n, t');
      if t'.faults == t.faults {
        FailureStays(job, t0.store, items, n + 1);
      }
    }
  }

  lemma SetAgrees(job: Job, wanted: Wanted, store: Store)
    ensures SetName(job, wanted) in store.sets ==>
      (Differs(job, wanted, store.sets[SetName(job, wanted)]) <==> !Agrees(job, wanted, store.sets[SetName(job, wanted)]))
  {
    if SetName(job, wanted) in store.sets {
      DiffersIffDisagrees(job, wanted, store.sets[SetName(job, wanted)]);
    }
  }

  class RedisSentinelKubeClient {
    var store: Store
    var writes: nat
    var faults: nat

    constructor (store: Store)
      ensures this.store == store && writes == 0 && faults == 0
    {
      this.store, writes, faults := store, 0, 0;
    }

    ghost function Now(): Tally
      reads this
    {
      Tally(store, writes, faults)
    }

    /** Whether the next call to the API server fails. */
    method Fails() returns (fails: bool)
      modifies this`faults
      ensures faults == old(faults) + if fails then 1 else 0
    {
      fails := *;
      if fails {
        faults := faults + 1;
      }
    }

    // ---------------------------------------------------------------- calls

    /** Looks for the object and creates it when it is not found. */
    method CreateIfNotExists(ghost job: Job, key: Key, made: Object) returns (ok: bool)
      modifies this
      ensures Did(job, old(Now()), CreateIfAbsent(key, made), ok, Now())
    {
      var lost := Fails();
      if lost {
        return false;
      }
      if key in store.objects {
        return true;
      }
      lost := Fails();
      if !lost {
        store, writes := store.(objects := store.objects[key := made]), writes + 1;
        return true;
      }
      var effect: bool := *;
      if effect {
        store, writes := store.(objects := store.objects[key := made]), writes + 1;
      }
      return false;
    }

    method CreateIfNotExistsItem(ghost job: Job, item: Item) returns (ok: bool)
      requires item.CreateIfAbsent?
      modifies this
      ensures Did(job, old(Now()), item, ok, Now())
    {
      ok := CreateIfNotExists(job, item.key, item.made);
    }

    method GetConfigMap(ghost job: Job, name: string) returns (ok: bool)
      modifies this
      ensures Did(job, old(Now()), Require(Key(ConfigMap, name)), ok, Now())
    {
      var lost := Fails();
      return !lost && Key(ConfigMap, name) in store.objects;
    }

    /** Creating and updating a StatefulSet both write the whole of it. */
    method WriteStatefulSet(ghost job: Job, ghost wanted: Wanted, name: string, ss: StatefulSet) returns (ok: bool)
      requires name == SetName(job, wanted) && ss == Generated(job, wanted) && Writes(job, store, Reconcile(wanted))
      modifies this
      ensures Did(job, Tally(old(store), old(writes), old(faults)), Reconcile(wanted), ok, Now())
      ensures ok ==> store == old(store).(sets := old(store).sets[name := ss])
      ensures store == old(store) || store == old(store).(sets := old(store).sets[name := ss])
    {
      hide Differs;
      var lost := Fails();
      var effect: bool := *;
      if !lost || effect {
        store, writes := store.(sets := store.sets[name := ss]), writes + 1;
      }
      return !lost;
    }

    /** The loop over the containers, for either setting of the switch. */
    method ExporterChanged(job: Job, sts: StatefulSet) returns (changed: bool)
      ensures changed <==> (job.spec.exporter.enabled <==> !HasExporter(sts))
    {
      if sts.first.name == EXPORTER {
        return !job.spec.exporter.enabled;
      }
      for k := 0 to |sts.others|
        invariant forall j :: 0 <= j < k ==> sts.others[j].name != EXPORTER
      {
        if sts.others[k].name == EXPORTER {
          return !job.spec.exporter.enabled;
        }
      }
      return job.spec.exporter.enabled;
    }

    method ReconcileRedis(job: Job) returns (ok: bool)
      modifies this
      ensures Did(job, old(Now()), Reconcile(RedisSet), ok, Now())
      ensures ok ==> SetName(job, RedisSet) in store.sets && Agrees(job, RedisSet, store.sets[SetName(job, RedisSet)])
      ensures old(SetName(job, RedisSet) in store.sets && Agrees(job, RedisSet, store.sets[SetName(job, RedisSet)])) ==>
        store == old(store) && writes == old(writes)
      ensures forall name :: name in old(store.sets) && name != SetName(job, RedisSet) ==>
        name in store.sets && store.sets[name] == old(store.sets)[name]
    {
      hide Agrees;
      SetAgrees(job, RedisSet, store);
      GeneratedDoesNotDiffer(job, RedisSet);
      DiffersIffDisagrees(job, RedisSet, Generated(job, RedisSet));
      hide HasExporter;
      hide ShouldUpdateRedis;
      var lost := Fails();
      if lost {
        return false;
      }
      var name := RedisName(job);
      var differs := name !in store.sets;
      if !differs {
        var oldSs := store.sets[name];
        differs := ShouldUpdateRedis(job.spec.resources, oldSs.first.resources, job.spec.size, oldSs.replicas);
        if !differs {
          differs := ExporterChanged(job, oldSs);
        }
      }
      if differs {
        ok := WriteStatefulSet(job, RedisSet, name, GenerateRedisStatefulSet(job));
      } else {
        ok := true;
      }
    }

    method ReconcileSentinel(job: Job) returns (ok: bool)
      modifies this
      ensures Did(job, old(Now()), Reconcile(SentinelSet), ok, Now())
      ensures ok ==> SetName(job, SentinelSet) in store.sets && Agrees(job, SentinelSet, store.sets[SetName(job, SentinelSet)])
      ensures old(SetName(job, SentinelSet) in store.sets && Agrees(job, SentinelSet, store.sets[SetName(job, SentinelSet)])) ==>
        store == old(store) && writes == old(writes)
      ensures forall name :: name in old(store.sets) && name != SetName(job, SentinelSet) ==>
        name in store.sets && store.sets[name] == old(store.sets)[name]
    {
      hide Agrees;
      SetAgrees(job, SentinelSet, store);
      GeneratedDoesNotDiffer(job, SentinelSet);
      DiffersIffDisagrees(job, SentinelSet, Generated(job, SentinelSet));
      hide ShouldUpdateRedis;
      var lost := Fails();
      if lost {
        return false;
      }
      var name := SentinelName(job);
      var differs := name !in store.sets;
      if !differs {
        var oldSs := store.sets[name];
        differs := ShouldUpdateRedis(job.spec.sentinel.resources, oldSs.first.resources, job.spec.sentinel.replicas, oldSs.replicas);
      }
      if differs {
        ok := WriteStatefulSet(job, SentinelSet, name, GenerateSentinelStatefulSet(job));
      } else {
        ok := true;
      }
    }

    method EnsureRedisShutdownConfigMap(job: Job) returns (ok: bool)
      modifies this
      ensures Did(job, old(Now()), ShutdownItem(job), ok, Now())
    {
      if job.spec.shutdownConfigMap != "" {
        ok := GetConfigMap(job, job.spec.shutdownConfigMap);
      } else {
        ok := CreateIfNotExistsItem(job, ShutdownItem(job));
      }
    }

    // ---------------------------------------------------------------- the run

    /** The budget, then the StatefulSet it protects. */
    method EnsureRedisStatefulset(job: Job, ghost t0: Tally, ghost n: nat) returns (ok: bool)
      requires Ran(job, t0, n, Now()) && n + 1 < |Items(job)|
      requires Items(job)[n] == BudgetItem(job, "-cluster", Labels.REDIS_ROLE) && Items(job)[n + 1] == Reconcile(RedisSet)
      modifies this
      ensures if ok then Ran(job, t0, n + 2, Now()) else Stopped(job, t0, Now())
    {
      hide Items;
      hide Ran;
      hide Did;
      ghost var t := Now();
      ok := CreateIfNotExistsItem(job, BudgetItem(job, "-cluster", Labels.REDIS_ROLE));
      OneMore(job, t0, n, t, Items(job)[n], ok, Now());
      if ok {
        t := Now();
        ok := ReconcileRedis(job);
        OneMore(job, t0, n + 1, t, Reconcile(RedisSet), ok, Now());
      }
    }

    method EnsureSentinelStatefulset(job: Job, ghost t0: Tally, ghost n: nat) returns (ok: bool)
      requires Ran(job, t0, n, Now()) && n + 1 < |Items(job)|
      requires Items(job)[n] == BudgetItem(job, "-sentinel", Labels.SENTINEL_ROLE) && Items(job)[n + 1] == Reconcile(SentinelSet)
      modifies this
      ensures if ok then Ran(job, t0, n + 2, Now()) else Stopped(job, t0, Now())
    {
      hide Items;
      hide Ran;
      hide Did;
      ghost var t := Now();
      ok := CreateIfNotExistsItem(job, BudgetItem(job, "-sentinel", Labels.SENTINEL_ROLE));
      OneMore(job, t0, n, t, Items(job)[n], ok, Now());
      if ok {
        t := Now();
        ok := ReconcileSentinel(job);
        OneMore(job, t0, n + 1, t, Reconcile(SentinelSet), ok, Now());
      }
    }

    /** A service or ConfigMap of the job, in its place. */
    method EnsureNext(job: Job, item: Item, ghost t0: Tally, ghost n: nat) returns (ok: bool)
      requires Ran(job, t0, n, Now()) && n < |Items(job)| && Items(job)[n] == item && item.CreateIfAbsent?
      modifies this
      ensures if ok then Ran(job, t0, n + 1, Now()) else Stopped(job, t0, Now())
    {
      hide Items;
      hide Ran;
      hide Did;
      ghost var t := Now();
      ok := CreateIfNotExistsItem(job, item);
      OneMore(job, t0, n, t, item, ok, Now());
    }

    /**
     * One `Ensure`. The store ends as some prefix of the run leaves it. Success means the whole
     * run; an error means that a call failed or the shutdown ConfigMap cannot be used.
     */
    method Ensure(job: Job) returns (ok: bool)
      modifies this
      ensures ok ==> Ran(job, old(Now()), |Items(job)|, Now()) && store == Run(job, old(store), Items(job)).store
      ensures ok ==> Usable(job, old(store))
      ensures !ok ==> Stopped(job, old(Now()), Now()) && (faults > old(faults) || !Usable(job, old(store)))
    {
      hide Items;
      hide Did;
      hide Stopped;
      hide LabelsFor;
      hide Apply;
      hide Writes;
      ghost var t0 := Now();
      ItemPositions(job);
      EnsureSucceedsIff(job, store);
      ghost var e := if job.spec.exporter.enabled then 1 else 0;
      ok := EnsureNext(job, RedisServiceItem(job), t0, 0);
      if ok {
        ok := EnsureNext(job, SentinelServiceItem(job), t0, 1);
      }
      if ok {
        ok := EnsureNext(job, HeadlessServiceItem(job), t0, 2);
      }
      if ok && job.spec.exporter.enabled {
        ok := EnsureNext(job, MonitorServiceItem(job), t0, 3);
      }
      if ok {
        ok := EnsureNext(job, SentinelConfigItem(job), t0, 3 + e);
      }
      if ok {
        ok := EnsureNext(job, ProbeItem(job), t0, 4 + e);
      }
      if ok {
        ghost var t := Now();
        ok := EnsureRedisShutdownConfigMap(job);
        OneMore(job, t0, 5 + e, t, ShutdownItem(job), ok, Now());
      }
      if ok {
        ok := EnsureRedisStatefulset(job, t0, 6 + e);
      }
      if ok {
        ok := EnsureSentinelStatefulset(job, t0, 8 + e);
      }
      assert Items(job)[..|Items(job)|] == Items(job);
      if !ok {
        StoppedMeans(job, t0, Now());
      }
    }
  }

  lemma StoppedMeans(job: Job, t0: Tally, t: Tally)
    requires Stopped(job, t0, t)
    ensures t.faults > t0.faults || !Run(job, t0.store, Items(job)).ok
  {
  }
}
