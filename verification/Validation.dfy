/** Defaulting and checking a specification in place (api/v1alpha1/redissentinel_validate.go). */
module Validation {
  import opened Basics
  import opened RedisSpec

  const MAX_NAME_LENGTH: nat := 48
  const DEFAULT_REDIS_NUMBER: int := 3
  const DEFAULT_SENTINEL_NUMBER: int := 3
  const DEFAULT_REDIS_IMAGE: string := "harbor.enmotech.com/cndb-redis/redis:5.0.4-alpine"
  const DEFAULT_EXPORTER_IMAGE: string := "harbor.enmotech.com/cndb-redis/redis-exporter:1.31.4"
  const DEFAULT_PULL_POLICY: string := "IfNotPresent"
  const DEFAULT_SLAVE_PRIORITY: string := "1"

  /** In millicores and bytes. */
  const DEFAULT_SENTINEL_RESOURCES: Resources :=
    Resources(map["cpu" := 20, "memory" := 16 * 1024 * 1024],
              map["cpu" := 100, "memory" := 60 * 1024 * 1024])

  type Config = map<string, string>

  /** What persistence sets when the user has not. */
  const PERSISTENCE: seq<(string, string)> := [
    ("appendonly", "yes"),
    ("auto-aof-rewrite-min-size", "536870912"),
    ("auto-aof-rewrite-percentage", "100"),
    ("repl-backlog-size", "62914560"),
    ("repl-diskless-sync", "yes"),
    ("aof-load-truncated", "yes"),
    ("stop-writes-on-bgsave-error", "no"),
    ("save", "900 1 300 10")
  ]

  // ---------------------------------------------------------------- what validation promises

  ghost predicate Acceptable(name: string, spec: Spec) {
    && |name| <= MAX_NAME_LENGTH
    && (spec.size == 0 || spec.size >= DEFAULT_REDIS_NUMBER)
    && (spec.sentinel.replicas == 0 || spec.sentinel.replicas >= DEFAULT_SENTINEL_NUMBER)
  }

  /** A refusal leaves the default size behind when a missing size was what the object had. */
  ghost predicate FillsSizeFirst(name: string, spec: Spec) {
    |name| <= MAX_NAME_LENGTH && spec.size == 0
  }

  /** What a refused object holds afterwards. */
  ghost function LeftByRefusal(name: string, spec: Spec): Spec {
    if FillsSizeFirst(name, spec) then spec.(size := DEFAULT_REDIS_NUMBER) else spec
  }

  /** Everything the controller needs is filled in. */
  ghost predicate Complete(spec: Spec) {
    && CompleteSettings(spec)
    && (spec.exporter.enabled ==> spec.exporter.image != "" && spec.exporter.pullPolicy != "")
    && spec.config.Some? && CompleteConfig(spec.config.value, spec.disablePersistence)
  }

  ghost predicate CompleteSettings(spec: Spec) {
    && spec.size != 0 && spec.sentinel.replicas != 0
    && spec.image != "" && spec.sentinel.image != "" && !spec.sentinel.resources.Empty()
  }

  ghost predicate CompleteConfig(config: Config, disablePersistence: bool) {
    && "slave-priority" in config && config["slave-priority"] == DEFAULT_SLAVE_PRIORITY
    && if disablePersistence
       then "appendonly" in config && config["appendonly"] == "no" && "save" in config && config["save"] == ""
       else forall i :: 0 <= i < |PERSISTENCE| ==> PERSISTENCE[i].0 in config
  }

  /** The keys a user cannot choose. */
  ghost function Forced(disablePersistence: bool): set<string> {
    {"slave-priority"} + if disablePersistence then {"appendonly", "save"} else {}
  }

  /** `new_` keeps every choice the user made in `old_` and adds only what was missing. */
  ghost predicate KeepsChoices(old_: Spec, new_: Spec) {
    && KeepsSettings(old_, new_)
    && new_.exporter.enabled == old_.exporter.enabled
    && new_.exporter.image ==
       (if old_.exporter.enabled && old_.exporter.image == "" then DEFAULT_EXPORTER_IMAGE else old_.exporter.image)
    && new_.exporter.pullPolicy ==
       (if old_.exporter.enabled && old_.exporter.pullPolicy == "" then DEFAULT_PULL_POLICY else old_.exporter.pullPolicy)
    && new_.config.Some?
    && KeepsConfig(Given(old_), new_.config.value, old_.disablePersistence)
  }

  ghost predicate KeepsSettings(old_: Spec, new_: Spec) {
    && new_.size == (if old_.size == 0 then DEFAULT_REDIS_NUMBER else old_.size)
    && new_.image == (if old_.image == "" then DEFAULT_REDIS_IMAGE else old_.image)
    && new_.password == old_.password && new_.resources == old_.resources
    && new_.disablePersistence == old_.disablePersistence
    && new_.shutdownConfigMap == old_.shutdownConfigMap
    && new_.sentinel.replicas ==
       (if old_.sentinel.replicas == 0 then DEFAULT_SENTINEL_NUMBER else old_.sentinel.replicas)
    && new_.sentinel.image == (if old_.sentinel.image == "" then DEFAULT_REDIS_IMAGE else old_.sentinel.image)
    && new_.sentinel.resources ==
       (if old_.sentinel.resources.Empty() then DEFAULT_SENTINEL_RESOURCES else old_.sentinel.resources)
    && new_.command == old_.command && new_.sentinel.command == old_.sentinel.command
    && new_.sentinel.customConfig == old_.sentinel.customConfig
  }

  /** The user's settings; none when the map is missing. */
  ghost function Given(spec: Spec): Config {
    if spec.config.Some? then spec.config.value else map[]
  }

  ghost predicate KeepsConfig(old_: Config, new_: Config, disablePersistence: bool) {
    && (forall k :: k in old_ && k !in Forced(disablePersistence) ==> k in new_ && new_[k] == old_[k])
    && (forall k :: k in new_ && k !in old_ && k !in Forced(disablePersistence) ==>
         !disablePersistence && exists i :: 0 <= i < |PERSISTENCE| && PERSISTENCE[i] == (k, new_[k]))
  }

  /** The first n persistence settings are present, every setting given is as it was, and nothing else is new. */
  ghost predicate AddsPersistence(old_: Config, new_: Config, n: int)
    requires n <= |PERSISTENCE|
  {
    && (forall k :: k in old_ ==> k in new_ && new_[k] == old_[k])
    && (forall i :: 0 <= i < n ==> PERSISTENCE[i].0 in new_)
    && forall k :: k in new_ && k !in old_ ==> exists i :: 0 <= i < n && PERSISTENCE[i] == (k, new_[k])
  }

  /** With the priority set first, what persistence adds completes the settings and keeps the user's. */
  lemma AddingKeepsConfig(given: Config, prioritised: Config, new_: Config)
    requires prioritised == given["slave-priority" := DEFAULT_SLAVE_PRIORITY]
    requires AddsPersistence(prioritised, new_, |PERSISTENCE|)
    ensures CompleteConfig(new_, false) && KeepsConfig(given, new_, false)
  {
    assert "slave-priority" in prioritised;
  }

  /** The two together leave no freedom: the defaulted specification is determined. */
  lemma DefaultingIsDetermined(old_: Spec, a: Spec, b: Spec)
    requires KeepsChoices(old_, a) && Complete(a)
    requires KeepsChoices(old_, b) && Complete(b)
    ensures a == b
  {
    ConfigIsDetermined(Given(old_), a.config.value, b.config.value, old_.disablePersistence);
    ConfigIsDetermined(Given(old_), b.config.value, a.config.value, old_.disablePersistence);
    assert a.config.value == b.config.value;
    assert a.sentinel == b.sentinel && a.exporter == b.exporter;
  }

  lemma ConfigIsDetermined(given: Config, a: Config, b: Config, off: bool)
    requires KeepsConfig(given, a, off) && CompleteConfig(a, off)
    requires KeepsConfig(given, b, off) && CompleteConfig(b, off)
    ensures forall k :: k in a ==> k in b && a[k] == b[k]
  {
    forall k | k in a
      ensures k in b && a[k] == b[k]
    {
      if k !in Forced(off) && k !in given {
        var i :| 0 <= i < |PERSISTENCE| && PERSISTENCE[i] == (k, a[k]);
        assert PERSISTENCE[i].0 in b;
        var j :| 0 <= j < |PERSISTENCE| && PERSISTENCE[j] == (k, b[k]);
        PersistenceKeysDiffer(i, j);
      }
    }
  }

  lemma PersistenceKeysDiffer(i: int, j: int)
    requires 0 <= i < |PERSISTENCE| && 0 <= j < |PERSISTENCE| && PERSISTENCE[i].0 == PERSISTENCE[j].0
    ensures i == j
  {
    forall k | 0 <= k < 8
      ensures |PERSISTENCE[k].0| == [10, 25, 27, 17, 18, 18, 27, 4][k]
    {
    }
    assert PERSISTENCE[2].0[0] == 'a' && PERSISTENCE[6].0[0] == 's';
    assert PERSISTENCE[4].0[0] == 'r' && PERSISTENCE[5].0[0] == 'a';
  }

  /** Validation has nothing to add exactly when the specification is complete already. */
  lemma UnchangedIffComplete(old_: Spec, new_: Spec)
    requires KeepsChoices(old_, new_) && Complete(new_)
    ensures new_ == old_ <==> Complete(old_)
  {
    if Complete(old_) {
      assert KeepsChoices(old_, old_);
      DefaultingIsDetermined(old_, old_, new_);
    }
  }

  /**
   * Validating the result of a validation accepts it and changes nothing, so with a store
   * that returns what was written, an edited specification is sent back at most once.
   */
  lemma ValidationIsIdempotent(name: string, old_: Spec, once: Spec, twice: Spec)
    requires Acceptable(name, old_) && KeepsChoices(old_, once) && Complete(once)
    requires KeepsChoices(once, twice) && Complete(twice)
    ensures Acceptable(name, once) && twice == once
  {
    UnchangedIffComplete(once, twice);
  }

  /** Every choice is kept, and these values stand where there was none. */
  lemma DefaultsSpelledOut(old_: Spec, new_: Spec)
    requires KeepsChoices(old_, new_) && Complete(new_)
    ensures new_.size == if old_.size == 0 then 3 else old_.size
    ensures new_.sentinel.replicas == if old_.sentinel.replicas == 0 then 3 else old_.sentinel.replicas
    ensures new_.image == if old_.image == "" then "harbor.enmotech.com/cndb-redis/redis:5.0.4-alpine" else old_.image
    ensures new_.sentinel.image ==
      if old_.sentinel.image == "" then "harbor.enmotech.com/cndb-redis/redis:5.0.4-alpine" else old_.sentinel.image
    ensures new_.sentinel.resources ==
      if old_.sentinel.resources.requests == map[] && old_.sentinel.resources.limits == map[]
      then Resources(map["cpu" := 20, "memory" := 16777216], map["cpu" := 100, "memory" := 62914560])
      else old_.sentinel.resources
    ensures new_.exporter.image ==
      if old_.exporter.enabled && old_.exporter.image == "" then "harbor.enmotech.com/cndb-redis/redis-exporter:1.31.4"
      else old_.exporter.image
    ensures new_.exporter.pullPolicy ==
      if old_.exporter.enabled && old_.exporter.pullPolicy == "" then "IfNotPresent" else old_.exporter.pullPolicy
    ensures new_.exporter.enabled == old_.exporter.enabled && new_.disablePersistence == old_.disablePersistence
    ensures new_.password == old_.password && new_.resources == old_.resources && new_.command == old_.command
    ensures new_.shutdownConfigMap == old_.shutdownConfigMap && new_.sentinel.command == old_.sentinel.command
    ensures new_.sentinel.customConfig == old_.sentinel.customConfig
  {
  }

  /** What an object without settings of its own is given. */
  ghost function DefaultConfigs(disablePersistence: bool): Config {
    if disablePersistence then map["slave-priority" := "1", "appendonly" := "no", "save" := ""]
    else map["slave-priority" := "1", "appendonly" := "yes", "auto-aof-rewrite-min-size" := "536870912",
             "auto-aof-rewrite-percentage" := "100", "repl-backlog-size" := "62914560", "repl-diskless-sync" := "yes",
             "aof-load-truncated" := "yes", "stop-writes-on-bgsave-error" := "no", "save" := "900 1 300 10"]
  }

  lemma PersistenceValues()
    ensures forall i :: 0 <= i < |PERSISTENCE| ==>
      PERSISTENCE[i].0 in DefaultConfigs(false) && DefaultConfigs(false)[PERSISTENCE[i].0] == PERSISTENCE[i].1
  {
    var all := DefaultConfigs(false);
    var names := ["appendonly", "auto-aof-rewrite-min-size", "auto-aof-rewrite-percentage", "repl-backlog-size",
                  "repl-diskless-sync", "aof-load-truncated", "stop-writes-on-bgsave-error", "save"];
    assert forall i :: 0 <= i < 8 ==> names[i] == PERSISTENCE[i].0;
    forall i, j | 0 <= i < 8 && 0 <= j < 8 && i != j
      ensures names[i] != names[j]
    {
      if names[i] == names[j] {
        PersistenceKeysDiffer(i, j);
      }
    }
    assert all[names[0]] == "yes" && all[names[1]] == "536870912" && all[names[2]] == "100" && all[names[3]] == "62914560";
    assert all[names[4]] == "yes" && all[names[5]] == "yes" && all[names[6]] == "no" && all[names[7]] == "900 1 300 10";
  }

  lemma PersistenceNames(k: string)
    requires k in DefaultConfigs(false) && k != "slave-priority"
    ensures exists i :: 0 <= i < |PERSISTENCE| && PERSISTENCE[i].0 == k
  {
    assert PERSISTENCE[0].0 == k || PERSISTENCE[1].0 == k || PERSISTENCE[2].0 == k || PERSISTENCE[3].0 == k
      || PERSISTENCE[4].0 == k || PERSISTENCE[5].0 == k || PERSISTENCE[6].0 == k || PERSISTENCE[7].0 == k;
  }

  lemma DefaultsComplete(off: bool)
    ensures CompleteConfig(DefaultConfigs(off), off)
  {
    if off {
      assert "appendonly"[0] == 'a' && "save"[0] == 's' && |"save"| == 4 && "slave-priority"[1] == 'l';
    } else {
      PersistenceValues();
      assert DefaultConfigs(false)["slave-priority"] == "1";
    }
  }

  lemma DefaultsKeep(off: bool)
    ensures KeepsConfig(map[], DefaultConfigs(off), off)
  {
    var all := DefaultConfigs(off);
    forall k | k in all && k !in Forced(off)
      ensures !off && exists i :: 0 <= i < |PERSISTENCE| && PERSISTENCE[i] == (k, all[k])
    {
      PersistenceNames(k);
      var i :| 0 <= i < |PERSISTENCE| && PERSISTENCE[i].0 == k;
      PersistenceValues();
      assert PERSISTENCE[i] == (k, all[k]);
    }
  }

  /** The settings of an object: the user's win over those of persistence, and lose to the others. */
  ghost function Configured(given: Config, disablePersistence: bool): Config {
    if disablePersistence then given + DefaultConfigs(true)
    else DefaultConfigs(false) + given + map["slave-priority" := "1"]
  }

  lemma ForcedAre()
    ensures DefaultConfigs(true).Keys == Forced(true)
  {
  }

  lemma ConfiguredCompletes(given: Config, off: bool)
    ensures CompleteConfig(Configured(given, off), off)
  {
    hide DefaultConfigs;
    DefaultsComplete(off);
  }

  lemma ConfiguredKeeps(given: Config, off: bool)
    ensures KeepsConfig(given, Configured(given, off), off)
  {
    hide DefaultConfigs;
    ForcedAre();
    DefaultsKeep(off);
    var all := Configured(given, off);
    forall k | k in all && k !in given && k !in Forced(off)
      ensures !off && exists i :: 0 <= i < |PERSISTENCE| && PERSISTENCE[i] == (k, all[k])
    {
      assert k in DefaultConfigs(off) && all[k] == DefaultConfigs(off)[k];
    }
  }

  /** The settings are determined by what the user gave, if anything, and by whether persistence is wanted. */
  lemma ConfigSpelledOut(old_: Spec, new_: Spec)
    requires KeepsChoices(old_, new_) && Complete(new_)
    ensures new_.config ==
      Some(Configured(if old_.config.Some? then old_.config.value else map[], old_.disablePersistence))
  {
    hide Configured;
    hide CompleteConfig;
    hide KeepsConfig;
    var given, off := Given(old_), old_.disablePersistence;
    ConfiguredCompletes(given, off);
    ConfiguredKeeps(given, off);
    ConfigIsDetermined(given, new_.config.value, Configured(given, off), off);
    ConfigIsDetermined(given, Configured(given, off), new_.config.value, off);
    assert new_.config.value == Configured(given, off);
  }

  /** The limits a specification is refused for. */
  lemma LimitsSpelledOut(name: string, spec: Spec)
    ensures Acceptable(name, spec) <==>
      |name| <= 48 && (spec.size == 0 || spec.size >= 3) && (spec.sentinel.replicas == 0 || spec.sentinel.replicas >= 3)
    ensures FillsSizeFirst(name, spec) <==> |name| <= 48 && spec.size == 0
    ensures FillsSizeFirst(name, spec) ==> LeftByRefusal(name, spec) == spec.(size := 3)
  {
  }

  // ---------------------------------------------------------------- the object

  class RedisSentinel {
    const name: string
    var spec: Spec

    constructor (name: string, spec: Spec)
      ensures this.name == name && this.spec == spec
    {
      this.name := name;
      this.spec := spec;
    }

    method SetConfigMapIfNotExist(key: string, value: string)
      requires spec.config.Some?
      modifies this
      ensures spec == old(spec).(config := spec.config) && spec.config.Some?
      ensures key in spec.config.value
      ensures old(key in spec.config.value) ==> spec == old(spec)
      ensures old(key !in spec.config.value) ==> spec.config.value == old(spec.config.value)[key := value]
    {
      if key !in spec.config.value {
        spec := spec.(config := Some(spec.config.value[key := value]));
      }
    }

    method EnablePersistence()
      requires spec.config.Some?
      modifies this
      ensures spec == old(spec).(config := spec.config) && spec.config.Some?
      ensures AddsPersistence(old(spec.config.value), spec.config.value, |PERSISTENCE|)
    {
      for i := 0 to |PERSISTENCE|
        invariant spec == old(spec).(config := spec.config) && spec.config.Some?
        invariant AddsPersistence(old(spec.config.value), spec.config.value, i)
      {
        SetConfigMapIfNotExist(PERSISTENCE[i].0, PERSISTENCE[i].1);
      }
    }

    method DisablePersistence()
      requires spec.config.Some?
      modifies this
      ensures spec == old(spec).(config := spec.config)
      ensures spec.config == Some(old(spec.config.value)["appendonly" := "no"]["save" := ""])
    {
      spec := spec.(config := Some(spec.config.value["appendonly" := "no"]["save" := ""]));
    }

    method DefaultNumbers() returns (err: bool)
      modifies this
      ensures err <==> !Acceptable(name, old(spec))
      ensures err ==> spec == LeftByRefusal(name, old(spec))
      ensures !err ==>
        var size := if old(spec).size == 0 then DEFAULT_REDIS_NUMBER else old(spec).size;
        var replicas := if old(spec).sentinel.replicas == 0 then DEFAULT_SENTINEL_NUMBER else old(spec).sentinel.replicas;
        spec == old(spec).(size := size, sentinel := old(spec).sentinel.(replicas := replicas))
    {
      if |name| > MAX_NAME_LENGTH {
        return true;
      }
      if spec.size == 0 {
        spec := spec.(size := DEFAULT_REDIS_NUMBER);
      } else if spec.size < DEFAULT_REDIS_NUMBER {
        return true;
      }
      if spec.sentinel.replicas == 0 {
        spec := spec.(sentinel := spec.sentinel.(replicas := DEFAULT_SENTINEL_NUMBER));
      } else if spec.sentinel.replicas < DEFAULT_SENTINEL_NUMBER {
        return true;
      }
      return false;
    }

    /** Numbers, images and sentinel resources. */
    method DefaultSettings() returns (err: bool)
      modifies this
      ensures err <==> !Acceptable(name, old(spec))
      ensures err ==> spec == LeftByRefusal(name, old(spec))
      ensures !err ==> KeepsSettings(old(spec), spec) && CompleteSettings(spec)
      ensures !err ==> spec.config == old(spec).config && spec.exporter == old(spec).exporter
    {
      err := DefaultNumbers();
      if err {
        return;
      }
      if spec.image == "" {
        spec := spec.(image := DEFAULT_REDIS_IMAGE);
      }
      if spec.sentinel.image == "" {
        spec := spec.(sentinel := spec.sentinel.(image := DEFAULT_REDIS_IMAGE));
      }
      if spec.sentinel.resources.Empty() {
        assert "cpu" in DEFAULT_SENTINEL_RESOURCES.requests;
        spec := spec.(sentinel := spec.sentinel.(resources := DEFAULT_SENTINEL_RESOURCES));
      }
    }

    /** The priority that sentinel needs, and the settings of persistence. */
    method DefaultConfig()
      modifies this
      ensures spec == old(spec).(config := spec.config) && spec.config.Some?
      ensures CompleteConfig(spec.config.value, spec.disablePersistence)
      ensures KeepsConfig(Given(old(spec)), spec.config.value, spec.disablePersistence)
    {
      if spec.config.None? {
        spec := spec.(config := Some(map[]));
      }
      spec := spec.(config := Some(spec.config.value["slave-priority" := DEFAULT_SLAVE_PRIORITY]));
      ghost var prioritised := spec.config.value;
      if !spec.disablePersistence {
        EnablePersistence();
        AddingKeepsConfig(Given(old(spec)), prioritised, spec.config.value);
      } else {
        DisablePersistence();
      }
    }

    /**
     * Fills in the defaults. Refuses long names and too small sizes. A refused object is
     * unchanged exactly when its name was refused or its size was given: otherwise the default
     * size has been filled in by the time the number of sentinels is refused.
     */
    method Validate() returns (modified: bool, err: bool)
      modifies this
      ensures err <==> !Acceptable(name, old(spec))
      ensures err ==> !modified && spec == LeftByRefusal(name, old(spec))
      ensures err ==> (spec == old(spec) <==> !FillsSizeFirst(name, old(spec)))
      ensures !err ==> KeepsChoices(old(spec), spec) && Complete(spec)
      ensures !err ==> (modified <==> !Complete(old(spec)))
    {
      var rCopy := spec;
      err := DefaultSettings();
      if err {
        return false, true;
      }
      DefaultConfig();
      if spec.exporter.enabled {
        if spec.exporter.image == "" {
          spec := spec.(exporter := spec.exporter.(image := DEFAULT_EXPORTER_IMAGE));
        }
        if spec.exporter.pullPolicy == "" {
          spec := spec.(exporter := spec.exporter.(pullPolicy := DEFAULT_PULL_POLICY));
        }
      }
      UnchangedIffComplete(rCopy, spec);
      return spec != rCopy, false;
    }
  }
}
