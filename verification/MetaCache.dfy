/**
 * The per-object cache behind a reconcile: what a pass is told about the object it serves
 * (controllers/redissentinel/cache/cahce.go), and the status report that follows it.
 */
module MetaCache {
  import opened Basics
  import opened RedisSpec
  import Conditions

  datatype StateType = Create | Update | Check

  type Kind = Conditions.ConditionType

  /** An object as a reconcile receives it; `reported` once its status holds something. */
  datatype Object = Object(namespace: string, name: string, generation: int, spec: Spec, reported: bool)

  /** What is remembered of an object. */
  datatype Entry = Entry(
    state: StateType, size: int, password: string, status: Kind, config: Option<map<string, string>>, obj: Object)

  type Entries = map<string, Entry>

  /** `open`: the keys whose reconcile has asked the cache and has not reported yet. */
  datatype Memory = Memory(entries: Entries, open: set<string>)

  function GetNamespacedName(namespace: string, name: string): string {
    namespace + "/" + name
  }

  function KeyOf(o: Object): string {
    GetNamespacedName(o.namespace, o.name)
  }

  /** Namespaces hold no slash, so a key says where an object is. */
  lemma {:induction false} KeysIdentify(namespace: string, name: string, namespace': string, name': string)
    requires '/' !in namespace && '/' !in namespace'
    requires GetNamespacedName(namespace, name) == GetNamespacedName(namespace', name')
    ensures namespace == namespace' && name == name'
  {
    var key := GetNamespacedName(namespace, name);
    assert key[|namespace|] == '/' && forall i :: 0 <= i < |namespace| ==> key[i] == namespace[i];
    assert key == GetNamespacedName(namespace', name');
    assert key[|namespace'|] == '/' && forall i :: 0 <= i < |namespace'| ==> key[i] == namespace'[i];
    assert |namespace| == |namespace'|;
    assert namespace == key[..|namespace|] && namespace' == key[..|namespace'|];
    assert name == key[|namespace| + 1..] && name' == key[|namespace'| + 1..];
  }

  // ---------------------------------------------------------------- one call, as a value

  function NewCluster(o: Object): Entry {
    Entry(Create, o.spec.size, o.spec.password, Conditions.Creating, o.spec.config, o)
  }

  /** Scaling wins over everything; the comparison of images is the wrong way round and is kept so. */
  function StatusOfUpdate(before: Spec, after: Spec): Kind {
    if before.size < after.size then Conditions.Scaling
    else if before.size > after.size then Conditions.ScalingDown
    else if before.image == after.image then Conditions.Upgrading
    else Conditions.Updating
  }

  /** The password is not allowed to change. */
  function WithPassword(o: Object, password: string): Object {
    o.(spec := o.spec.(password := password))
  }

  function Updated(e: Entry, o: Object): Entry {
    if e.obj.generation == o.generation then
      e.(state := if e.obj.reported then Check else Create)
    else
      var kept := e.obj.spec.password;
      Entry(Update, e.obj.spec.size, kept, StatusOfUpdate(e.obj.spec, o.spec), e.config, WithPassword(o, kept))
  }

  function Cached(entries: Entries, o: Object): Entry {
    if KeyOf(o) in entries then Updated(entries[KeyOf(o)], o) else NewCluster(o)
  }

  /** Unless there was nothing to report, the object has a status afterwards. */
  function Reported(e: Entry): Entry {
    if e.state == Check then e else e.(obj := e.obj.(reported := true))
  }

  // ---------------------------------------------------------------- runs

  /** A reconcile asks the cache and, later, reports a status; a deleted object is forgotten. */
  datatype Action =
    | Fetch(o: Object)
    | Report(namespace: string, name: string)
    | Forget(namespace: string, name: string)

  function Target(a: Action): (string, string) {
    match a
    case Fetch(o) => (o.namespace, o.name)
    case Report(namespace, name) => (namespace, name)
    case Forget(namespace, name) => (namespace, name)
  }

  function TargetKey(a: Action): string {
    GetNamespacedName(Target(a).0, Target(a).1)
  }

  function After(memory: Memory, a: Action): Memory {
    var key := TargetKey(a);
    match a
    case Fetch(o) => Memory(memory.entries[key := Cached(memory.entries, o)], memory.open + {key})
    case Report(_, _) =>
      Memory(if key in memory.entries then memory.entries[key := Reported(memory.entries[key])] else memory.entries,
             memory.open - {key})
    case Forget(_, _) => Memory(memory.entries - {key}, memory.open - {key})
  }

  lemma AfterFetch(memory: Memory, o: Object)
    ensures After(memory, Fetch(o)) ==
      Memory(memory.entries[KeyOf(o) := Cached(memory.entries, o)], memory.open + {KeyOf(o)})
  {
  }

  lemma AfterReport(memory: Memory, namespace: string, name: string)
    requires GetNamespacedName(namespace, name) in memory.entries
    ensures var key := GetNamespacedName(namespace, name);
      After(memory, Report(namespace, name)) ==
        Memory(memory.entries[key := Reported(memory.entries[key])], memory.open - {key})
  {
  }

  ghost function MemoryAfter(actions: seq<Action>): Memory {
    if actions == [] then Memory(map[], {})
    else After(MemoryAfter(actions[..|actions| - 1]), actions[|actions| - 1])
  }

  /** No namespace holds a slash. */
  ghost predicate Named(actions: seq<Action>) {
    forall k :: 0 <= k < |actions| ==> '/' !in Target(actions[k]).0
  }

  /** Reconciles of one object are serial; those of different objects overlap as they like. */
  ghost predicate Serial(actions: seq<Action>) {
    forall k :: 0 <= k < |actions| ==>
      (actions[k].Report? <==> TargetKey(actions[k]) in MemoryAfter(actions[..k]).open)
  }

  lemma SerialFront(actions: seq<Action>)
    requires Serial(actions) && actions != []
    ensures var n := |actions| - 1;
      && Serial(actions[..n])
      && (actions[n].Report? <==> TargetKey(actions[n]) in MemoryAfter(actions[..n]).open)
  {
    var n := |actions| - 1;
    forall k | 0 <= k < n
      ensures actions[..n][k].Report? <==> TargetKey(actions[..n][k]) in MemoryAfter(actions[..n][..k]).open
    {
      assert actions[..n][..k] == actions[..k];
    }
  }

  // ---------------------------------------------------------------- isolation

  /** The same is remembered of a key, and its reconcile is as far. */
  ghost predicate SameAt(a: Memory, b: Memory, key: string) {
    && (key in a.entries <==> key in b.entries)
    && (key in a.entries ==> a.entries[key] == b.entries[key])
    && (key in a.open <==> key in b.open)
  }

  /** Only actions on an object itself touch what is remembered of it. */
  lemma OthersDoNotMatter(memory: Memory, a: Action, namespace: string, name: string)
    requires '/' !in namespace && '/' !in Target(a).0 && Target(a) != (namespace, name)
    ensures SameAt(After(memory, a), memory, GetNamespacedName(namespace, name))
  {
    if TargetKey(a) == GetNamespacedName(namespace, name) {
      KeysIdentify(Target(a).0, Target(a).1, namespace, name);
    }
  }

  /** The actions on one object. */
  ghost function On(actions: seq<Action>, namespace: string, name: string): (own: seq<Action>)
    ensures forall k :: 0 <= k < |own| ==> Target(own[k]) == (namespace, name)
  {
    if actions == [] then []
    else
      var own, last := On(actions[..|actions| - 1], namespace, name), actions[|actions| - 1];
      if Target(last) == (namespace, name) then own + [last] else own
  }

  /**
   * Isolation over whole runs: however the actions on different objects interleave, also
   * between asking the cache and reporting, what is remembered of one object is what its own
   * actions alone leave.
   */
  lemma {:induction false} RunsAreIndependent(actions: seq<Action>, namespace: string, name: string)
    requires Named(actions) && '/' !in namespace
    ensures SameAt(MemoryAfter(actions), MemoryAfter(On(actions, namespace, name)), GetNamespacedName(namespace, name))
  {
    if actions != [] {
      var n := |actions| - 1;
      var front, last := actions[..n], actions[n];
      RunsAreIndependent(front, namespace, name);
      if Target(last) == (namespace, name) {
        var own := On(front, namespace, name);
        assert (own + [last])[..|own|] == own;
      } else {
        OthersDoNotMatter(MemoryAfter(front), last, namespace, name);
      }
    }
  }

  // ---------------------------------------------------------------- one object over a run

  /** What the last reconcile of a life is given: a life is the first reconcile of an object and, without a removal, the later ones. */
  ghost function FetchedAfter(life: seq<Object>): Entry
    requires life != []
    decreases |life|, 0
  {
    var n := |life| - 1;
    if n == 0 then NewCluster(life[0]) else Updated(EntryAfter(life[..n]), life[n])
  }

  /** What is remembered once it has reported. */
  ghost function EntryAfter(life: seq<Object>): Entry
    requires life != []
    decreases |life|, 1
  {
    Reported(FetchedAfter(life))
  }

  /** The reconciles of one object among the actions from position j on. */
  ghost function LifeOf(actions: seq<Action>, j: nat, namespace: string, name: string): (life: seq<Object>)
    ensures forall k :: 0 <= k < |life| ==> life[k].namespace == namespace && life[k].name == name
  {
    if |actions| <= j then []
    else
      var n := |actions| - 1;
      var life, last := LifeOf(actions[..n], j, namespace, name), actions[n];
      if last.Fetch? && Target(last) == (namespace, name) then life + [last.o] else life
  }

  lemma {:induction false} OpenIsKnown(actions: seq<Action>)
    requires Named(actions)
    ensures MemoryAfter(actions).open <= MemoryAfter(actions).entries.Keys
  {
    if actions != [] {
      OpenIsKnown(actions[..|actions| - 1]);
    }
  }

  /** What a life and the progress of its last reconcile leave under its key. */
  ghost predicate Follows(memory: Memory, key: string, life: seq<Object>) {
    && (key in memory.entries <==> life != [])
    && (key in memory.open ==> life != [])
    && (life != [] ==> memory.entries[key] == if key in memory.open then FetchedAfter(life) else EntryAfter(life))
  }

  lemma FetchFollows(memory: Memory, o: Object, life: seq<Object>)
    requires Follows(memory, KeyOf(o), life) && KeyOf(o) !in memory.open
    ensures Follows(After(memory, Fetch(o)), KeyOf(o), life + [o])
  {
    hide NewCluster;
    hide Updated;
    hide Reported;
    hide KeyOf;
    hide After;
    AfterFetch(memory, o);
    assert (life + [o])[..|life|] == life;
  }

  lemma ReportFollows(memory: Memory, namespace: string, name: string, life: seq<Object>)
    requires var key := GetNamespacedName(namespace, name); Follows(memory, key, life) && key in memory.open
    ensures Follows(After(memory, Report(namespace, name)), GetNamespacedName(namespace, name), life)
  {
    hide FetchedAfter;
    hide Reported;
    hide GetNamespacedName;
    hide After;
    AfterReport(memory, namespace, name);
  }

  lemma OwnStep(memory: Memory, a: Action, life: seq<Object>)
    requires Follows(memory, TargetKey(a), life) && !a.Forget?
    requires a.Report? <==> TargetKey(a) in memory.open
    ensures Follows(After(memory, a), TargetKey(a), if a.Fetch? then life + [a.o] else life)
  {
    hide Follows;
    hide After;
    match a
    case Fetch(o) => FetchFollows(memory, o, life);
    case Report(namespace, name) => ReportFollows(memory, namespace, name, life);
  }

  /**
   * In any run over any objects whose reconciles overlap: from a position where an object is
   * unknown, and until it is removed, what is remembered of it is what its own reconciles since
   * then leave, the last of them having reported or not.
   */
  lemma {:induction false} MemoryFollowsLife(actions: seq<Action>, j: nat, namespace: string, name: string)
    requires Named(actions) && Serial(actions) && '/' !in namespace && j <= |actions|
    requires GetNamespacedName(namespace, name) !in MemoryAfter(actions[..j]).entries
    requires forall k :: j <= k < |actions| ==> actions[k] != Forget(namespace, name)
    ensures Follows(MemoryAfter(actions), GetNamespacedName(namespace, name), LifeOf(actions, j, namespace, name))
    decreases |actions|
  {
    if j == |actions| {
      assert actions[..j] == actions;
      OpenIsKnown(actions);
    } else {
      var n := |actions| - 1;
      var front, last := actions[..n], actions[n];
      assert front[..j] == actions[..j];
      SerialFront(actions);
      MemoryFollowsLife(front, j, namespace, name);
      if Target(last) == (namespace, name) {
        OwnStep(MemoryAfter(front), last, LifeOf(front, j, namespace, name));
      } else {
        OthersDoNotMatter(MemoryAfter(front), last, namespace, name);
      }
    }
  }

  /** The reconcile at position k brings a specification that was not there before. */
  predicate NewGeneration(life: seq<Object>, k: nat)
    requires 0 < k < |life|
  {
    life[k].generation != life[k - 1].generation
  }

  /** What holds after every reconcile of a life. */
  lemma {:induction false} LifeKeeps(life: seq<Object>)
    requires life != []
    ensures var e, last := EntryAfter(life), life[|life| - 1];
      && e.obj.reported
      && e.obj.generation == last.generation
      && e.password == life[0].spec.password && e.obj.spec.password == life[0].spec.password
      && e.config == life[0].spec.config
  {
    var n := |life| - 1;
    if n > 0 {
      LifeKeeps(life[..n]);
    }
  }

  /** The password of the first specification is the password for good. */
  lemma PasswordNeverChanges(life: seq<Object>, k: nat)
    requires k < |life|
    ensures var e := EntryAfter(life[..k + 1]);
      e.password == life[0].spec.password && e.obj.spec.password == life[0].spec.password
  {
    LifeKeeps(life[..k + 1]);
  }

  /**
   * The state a pass is told: creation at the first reconcile of a life and at no other, an
   * update exactly when the generation differs from the one before, otherwise a check.
   */
  lemma StateTellsWhatHappened(life: seq<Object>, k: nat)
    requires k < |life|
    ensures EntryAfter(life[..k + 1]).state ==
      if k == 0 then Create else if NewGeneration(life, k) then Update else Check
  {
    if k > 0 {
      assert life[..k + 1][..k] == life[..k];
      LifeKeeps(life[..k]);
    }
  }

  /** What is remembered of an object seen for the first time. */
  lemma FirstIsCreation(o: Object)
    ensures var e := EntryAfter([o]);
      && e.state == Create && e.status == Conditions.Creating && e.size == o.spec.size
      && e.password == o.spec.password && e.config == o.spec.config && e.obj == o.(reported := true)
  {
    assert FetchedAfter([o]) == NewCluster(o);
  }

  /**
   * The same generation changes nothing but the state. A new one brings the new object in, with
   * the first password, and is told as a change of the size or the image, or as an update.
   */
  lemma LaterReconciles(life: seq<Object>, k: nat)
    requires 0 < k < |life|
    ensures var before, e := EntryAfter(life[..k]), EntryAfter(life[..k + 1]);
      var spec := life[k].spec;
      && (!NewGeneration(life, k) ==> e == before.(state := Check))
      && (NewGeneration(life, k) ==>
           && e.obj == life[k].(reported := true, spec := spec.(password := life[0].spec.password))
           && (spec.size == before.obj.spec.size && spec.image != before.obj.spec.image ==> e.status == Conditions.Updating)
           && (spec.size == before.obj.spec.size && spec.image == before.obj.spec.image ==> e.status == Conditions.Upgrading)
           && (spec.size > before.obj.spec.size ==> e.status == Conditions.Scaling)
           && (spec.size < before.obj.spec.size ==> e.status == Conditions.ScalingDown))
  {
    assert life[..k + 1][..k] == life[..k];
    LifeKeeps(life[..k]);
  }

  // ---------------------------------------------------------------- sizes

  /** The size accepted last. */
  ghost function AcceptedSize(life: seq<Object>): int
    requires life != []
  {
    EntryAfter(life).obj.spec.size
  }

  /** Repeating a generation repeats its size: specifications do not change behind a generation. */
  ghost predicate Faithful(life: seq<Object>) {
    forall k :: 0 < k < |life| && !NewGeneration(life, k) ==> life[k].spec.size == life[k - 1].spec.size
  }

  lemma {:induction false} AcceptedIsLast(life: seq<Object>)
    requires life != [] && Faithful(life)
    ensures AcceptedSize(life) == life[|life| - 1].spec.size
  {
    var n := |life| - 1;
    if n == 0 {
      assert EntryAfter(life) == Reported(NewCluster(life[0]));
    } else {
      forall k | 0 < k < n && !NewGeneration(life[..n], k)
        ensures life[..n][k].spec.size == life[..n][k - 1].spec.size
      {
        assert NewGeneration(life[..n], k) == NewGeneration(life, k);
      }
      AcceptedIsLast(life[..n]);
      LifeKeeps(life[..n]);
      assert EntryAfter(life) == Reported(Updated(EntryAfter(life[..n]), life[n]));
      assert NewGeneration(life, n) || life[n].spec.size == life[n - 1].spec.size;
    }
  }

  /**
   * At every new generation the remembered size is the size accepted before, and the status is
   * scaling up or down exactly when the size has grown or shrunk.
   */
  lemma SizesChain(life: seq<Object>, k: nat)
    requires 0 < k < |life| && NewGeneration(life, k)
    ensures var e, before := EntryAfter(life[..k + 1]), AcceptedSize(life[..k]);
      && e.size == before
      && e.obj.spec.size == life[k].spec.size
      && (e.status == Conditions.Scaling <==> life[k].spec.size > before)
      && (e.status == Conditions.ScalingDown <==> life[k].spec.size < before)
  {
    assert life[..k + 1][..k] == life[..k];
    LifeKeeps(life[..k]);
  }

  /**
   * Upgrading is told at a new generation exactly when neither size nor image changed, which is
   * the wrong way round: an update is told as an upgrade exactly when it is one only where the
   * size changed and the image did not.
   */
  lemma UpgradeIsToldBackwards(life: seq<Object>, k: nat)
    requires 0 < k < |life| && NewGeneration(life, k)
    ensures var told, before := EntryAfter(life[..k + 1]).status == Conditions.Upgrading, EntryAfter(life[..k]).obj.spec;
      var resized, upgraded := life[k].spec.size != before.size, life[k].spec.image != before.image;
      && (told <==> !resized && !upgraded)
      && ((told <==> upgraded) <==> resized && !upgraded)
  {
    assert life[..k + 1][..k] == life[..k];
    LifeKeeps(life[..k]);
  }

  /** What the pass at position k is told the size changed by. */
  ghost function SizeStep(life: seq<Object>, k: nat): int
    requires k < |life|
  {
    var e := EntryAfter(life[..k + 1]);
    if e.state == Update then e.obj.spec.size - e.size else 0
  }

  ghost function SumOfSteps(life: seq<Object>, k: nat): int
    requires k <= |life|
  {
    if k == 0 then 0 else SumOfSteps(life, k - 1) + SizeStep(life, k - 1)
  }

  /** The changes add up: no resize is reported twice, and none is missed. */
  lemma {:induction false} SizesTelescope(life: seq<Object>, k: nat)
    requires 0 < k <= |life|
    ensures SumOfSteps(life, k) == AcceptedSize(life[..k]) - life[0].spec.size
  {
    StateTellsWhatHappened(life, k - 1);
    if k > 1 {
      SizesTelescope(life, k - 1);
      assert life[..k][..k - 1] == life[..k - 1];
      LifeKeeps(life[..k - 1]);
    }
  }

  // ---------------------------------------------------------------- the objects on the heap

  class RedisSentinel {
    const namespace: string
    const name: string
    const generation: int
    var spec: Spec
    var conditions: seq<Conditions.Condition>
    var masterIP: string
    var sentinelIP: string

    constructor (namespace: string, name: string, generation: int, spec: Spec)
      ensures View() == Object(namespace, name, generation, spec, false)
    {
      this.namespace, this.name, this.generation, this.spec := namespace, name, generation, spec;
      conditions, masterIP, sentinelIP := [], "", "";
    }

    /** The status differs from the empty one. */
    predicate HasStatus()
      reads this
    {
      conditions != [] || masterIP != "" || sentinelIP != ""
    }

    function Key(): string {
      GetNamespacedName(namespace, name)
    }

    function View(): (o: Object)
      reads this
      ensures KeyOf(o) == Key()
    {
      Object(namespace, name, generation, spec, HasStatus())
    }

    method SetCondition(setter: Conditions.Setter, message: string, now: nat)
      modifies this`conditions
      ensures conditions == Conditions.Put(old(conditions), Conditions.News(setter, message, now), now)
      ensures View() == old(View()).(reported := true)
    {
      assert Conditions.Put(conditions, Conditions.News(setter, message, now), now) != [];
      conditions := Conditions.Put(conditions, Conditions.News(setter, message, now), now);
    }
  }

  /** `obj` is the object that came with the generation accepted last. */
  class Meta {
    const namespace: string
    const name: string
    var state: StateType
    var size: int
    var password: string
    var status: Kind
    var config: Option<map<string, string>>
    var obj: RedisSentinel

    constructor (rc: RedisSentinel)
      ensures namespace == rc.namespace && name == rc.name
      ensures View() == NewCluster(rc.View()) && obj == rc
    {
      namespace, name := rc.namespace, rc.name;
      state, size, password, status, config, obj := Create, rc.spec.size, rc.spec.password, Conditions.Creating, rc.spec.config, rc;
    }

    function View(): Entry
      reads this, obj
    {
      Entry(state, size, password, status, config, obj.View())
    }

    /** A status on the cached object, unless there is nothing to report; the message is the caller's. */
    method ReportStatus(message: string, now: nat)
      modifies obj`conditions
      ensures View() == Reported(old(View()))
      ensures state == Check ==> obj.conditions == old(obj.conditions)
      ensures state != Check ==> ReportRecorded(status, old(obj.conditions), obj.conditions, message, now)
    {
      hide Conditions.Put;
      hide Conditions.RecordedIn;
      if state != Check {
        Conditions.PutRecords(obj.conditions, Setter(status), message, now);
        obj.SetCondition(Setter(status), message, now);
      }
    }

    /** Writes into the entry, and the old password into the new object. */
    method Accept(new_: RedisSentinel)
      modifies this, new_
      ensures View() == Updated(old(View()), old(new_.View()))
      ensures obj == old(if obj.generation == new_.generation then obj else new_)
      ensures new_.View() == old(if obj.generation == new_.generation then new_.View()
                                 else WithPassword(new_.View(), obj.spec.password))
    {
      if obj.generation == new_.generation {
        if !obj.HasStatus() {
          state := Create;
          return;
        }
        state := Check;
        return;
      }
      var before := obj;
      state := StateType.Update;
      size := before.spec.size;
      new_.spec := new_.spec.(password := before.spec.password);
      password := before.spec.password;
      obj := new_;
      status := Conditions.Updating;
      if before.spec.image == new_.spec.image {
        status := Conditions.Upgrading;
      }
      if before.spec.size > new_.spec.size {
        status := Conditions.ScalingDown;
      }
      if before.spec.size < new_.spec.size {
        status := Conditions.Scaling;
      }
    }
  }

  function Setter(status: Kind): Conditions.Setter {
    match status
    case Creating => Conditions.Create
    case Scaling => Conditions.ScalingUp
    case ScalingDown => Conditions.ScaleDown
    case Upgrading => Conditions.Upgrade
    case _ => Conditions.Update
  }

  /** The condition that a report of this status leaves in the list. */
  ghost predicate ReportRecorded(status: Kind, before: seq<Conditions.Condition>, after: seq<Conditions.Condition>,
                                 message: string, now: nat) {
    match status
    case Creating => Conditions.RecordedIn(before, after, Conditions.Creating, "Creating", message, now)
    case Scaling => Conditions.RecordedIn(before, after, Conditions.Scaling, "Scaling up", message, now)
    case ScalingDown => Conditions.RecordedIn(before, after, Conditions.Scaling, "Scaling down", message, now)
    case Upgrading => Conditions.RecordedIn(before, after, Conditions.Upgrading, "Cluster upgrading", message, now)
    case _ => Conditions.RecordedIn(before, after, Conditions.Updating, "Cluster updating", message, now)
  }

  class MetaMap {
    var metas: map<string, Meta>
    // The keys whose reconcile has been given its entry and has not reported yet.
    ghost var open: set<string>

    constructor ()
      ensures Valid() && View() == Memory(map[], {})
    {
      metas, open := map[], {};
    }

    /** Every entry stands under the key of its object, so no two share their heap. */
    ghost predicate Valid()
      reads this, metas.Values, set key | key in metas :: metas[key].obj
    {
      open <= metas.Keys && forall key :: key in metas ==>
        && GetNamespacedName(metas[key].namespace, metas[key].name) == key
        && metas[key].obj.Key() == key
    }

    ghost function Entries(): Entries
      reads this`metas, metas.Values, set key | key in metas :: metas[key].obj
    {
      map key | key in metas :: metas[key].View()
    }

    ghost function View(): Memory
      reads this, metas.Values, set key | key in metas :: metas[key].obj
    {
      Memory(Entries(), open)
    }

    method Add(obj: RedisSentinel)
      requires Valid()
      modifies this`metas
      ensures Valid() && Entries() == old(Entries())[obj.Key() := NewCluster(obj.View())]
      ensures obj.Key() in metas && metas[obj.Key()].obj == obj
    {
      hide RedisSentinel.View;
      hide Meta.View;
      hide GetNamespacedName;
      hide NewCluster;
      ghost var before, key := Entries(), obj.Key();
      var meta := new Meta(obj);
      assert forall k :: k in metas ==> metas[k] != meta && metas[k].View() == before[k];
      metas := metas[obj.Key() := meta];
      SameMap(Entries(), before[key := NewCluster(obj.View())]);
    }

    method Del(obj: RedisSentinel)
      requires Valid() && obj.Key() !in open
      modifies this
      ensures Valid() && View() == After(old(View()), Forget(obj.namespace, obj.name))
    {
      hide RedisSentinel.View;
      hide Meta.View;
      hide GetNamespacedName;
      metas := metas - {obj.Key()};
    }

    method Update(meta: Meta, new_: RedisSentinel)
      requires Valid() && new_.Key() in metas && metas[new_.Key()] == meta
      modifies meta, new_
      ensures Valid() && Entries() == old(Entries())[new_.Key() := Updated(old(meta.View()), old(new_.View()))]
      ensures meta.obj == old(if meta.obj.generation == new_.generation then meta.obj else new_)
    {
      hide RedisSentinel.View;
      hide Meta.View;
      hide GetNamespacedName;
      ghost var key := new_.Key();
      assert forall k :: k in metas && k != key ==> metas[k] != meta && metas[k].obj != new_;
      meta.Accept(new_);
      assert forall k :: k in metas && k != key ==> metas[k].View() == old(metas[k].View());
    }

    method AddOrUpdate(obj: RedisSentinel) returns (meta: Meta)
      requires Valid()
      modifies this`metas, metas.Values, obj
      ensures Valid() && Entries() == old(Entries()[obj.Key() := Cached(Entries(), obj.View())])
      ensures obj.Key() in metas && meta == metas[obj.Key()]
    {
      hide RedisSentinel.View;
      hide Meta.View;
      hide GetNamespacedName;
      hide NewCluster;
      hide Updated;
      var key := obj.Key();
      if key !in metas {
        Add(obj);
      } else {
        Update(metas[key], obj);
      }
      meta := metas[key];
    }

    /** The reconcile of an object begins: one of its reconciles at a time. */
    method Cache(obj: RedisSentinel) returns (meta: Meta)
      requires Valid() && obj.Key() !in open
      modifies this, metas.Values, obj
      ensures Valid() && View() == old(After(View(), Fetch(obj.View())))
      ensures obj.Key() in metas && meta == metas[obj.Key()]
    {
      hide RedisSentinel.View;
      hide Meta.View;
      hide GetNamespacedName;
      hide Cached;
      hide After;
      AfterFetch(View(), obj.View());
      meta := AddOrUpdate(obj);
      open := open + {obj.Key()};
    }

    method Report(meta: Meta, message: string, now: nat)
      requires Valid() && meta.obj.Key() in metas && metas[meta.obj.Key()] == meta
      modifies meta.obj`conditions
      ensures Valid() && Entries() == old(Entries()[meta.obj.Key() := Reported(meta.View())])
      ensures meta.state == Check ==> meta.obj.conditions == old(meta.obj.conditions)
      ensures meta.state != Check ==> ReportRecorded(meta.status, old(meta.obj.conditions), meta.obj.conditions, message, now)
    {
      hide GetNamespacedName;
      hide RedisSentinel.View;
      hide Meta.View;
      hide Reported;
      hide ReportRecorded;
      ghost var key := meta.obj.Key();
      assert forall k :: k in metas && k != key ==> metas[k].obj != meta.obj && metas[k] != meta;
      meta.ReportStatus(message, now);
      assert forall k :: k in metas && k != key ==> metas[k].View() == old(metas[k].View());
    }

    /** The report of a reconcile, whatever others have done since it was given its entry. */
    method UpdateStatus(meta: Meta, message: string, now: nat)
      requires Valid() && meta.obj.Key() in open && metas[meta.obj.Key()] == meta
      modifies this`open, meta.obj`conditions
      ensures Valid() && View() == old(After(View(), Action.Report(meta.obj.namespace, meta.obj.name)))
      ensures meta.state == Check ==> meta.obj.conditions == old(meta.obj.conditions)
      ensures meta.state != Check ==> ReportRecorded(meta.status, old(meta.obj.conditions), meta.obj.conditions, message, now)
    {
      hide ReportRecorded;
      hide GetNamespacedName;
      hide RedisSentinel.View;
      hide Meta.View;
      hide Reported;
      hide After;
      AfterReport(View(), meta.obj.namespace, meta.obj.name);
      Report(meta, message, now);
      open := open - {meta.obj.Key()};
    }
  }
}
