/** Label merging, and which pods the generated selectors pick. */
module Labels {
  import opened Basics

  type LabelSet = map<string, string>

  const MANAGED_BY: string := "app.kubernetes.io/managed-by"
  const LABEL_NAME_KEY: string := "lovelycat.io/v1alpha1"
  const OPERATOR_NAME: string := "redis-operator"
  const PART_OF: string := "app.kubernetes.io/part-of"
  const COMPONENT: string := "app.kubernetes.io/component"
  const NAME: string := "app.kubernetes.io/name"
  const APP_LABEL: string := "redis-cluster"
  const REDIS_ROLE: string := "redis"
  const SENTINEL_ROLE: string := "sentinel"

  /** The union of the label sets; later sets win. */
  function Merge(all: seq<LabelSet>): LabelSet {
    if all == [] then map[] else Merge(all[..|all| - 1]) + all[|all| - 1]
  }

  /** The inner loop: every entry of `labels` is written over what is there. */
  method WriteAll(res: LabelSet, labels: LabelSet) returns (res': LabelSet)
    ensures res' == res + labels
  {
    res' := res;
    var keys := Range(labels.Keys);
    for j := 0 to |keys|
      invariant forall k :: k in res' <==> k in res || k in keys[..j]
      invariant forall k :: k in keys[..j] ==> res'[k] == labels[k]
      invariant forall k :: k in res && k !in keys[..j] ==> res'[k] == res[k]
    {
      assert keys[..j + 1] == keys[..j] + [keys[j]];
      res' := res'[keys[j] := labels[keys[j]]];
    }
    assert keys[..|keys|] == keys;
  }

  method MergeLabels(allLabels: seq<LabelSet>) returns (res: LabelSet)
    ensures res == Merge(allLabels)
  {
    res := map[];
    for i := 0 to |allLabels|
      invariant res == Merge(allLabels[..i])
    {
      assert allLabels[..i + 1][..i] == allLabels[..i];
      res := WriteAll(res, allLabels[i]);
    }
    assert allLabels[..|allLabels|] == allLabels;
  }

  /** The label set i is the last one that has the key. */
  ghost predicate LastWith(all: seq<LabelSet>, key: string, i: int) {
    && 0 <= i < |all| && key in all[i]
    && forall j :: i < j < |all| ==> key !in all[j]
  }

  /** A key is in the union when some set has it, and its value is the one of the last such set. */
  lemma {:induction false} MergeIsRightBiased(all: seq<LabelSet>, key: string)
    ensures key in Merge(all) <==> exists i :: 0 <= i < |all| && key in all[i]
    ensures forall i :: LastWith(all, key, i) ==> key in Merge(all) && Merge(all)[key] == all[i][key]
    ensures key in Merge(all) ==> exists i :: LastWith(all, key, i)
  {
    if all != [] {
      var n := |all| - 1;
      var front := all[..n];
      MergeIsRightBiased(front, key);
      forall i | LastWith(all, key, i) && i < n
        ensures LastWith(front, key, i)
      {
        assert front[i] == all[i];
      }
      if key in all[n] {
        assert LastWith(all, key, n);
      } else if key in Merge(front) {
        var i :| LastWith(front, key, i);
        assert LastWith(all, key, i);
      }
    }
  }

  /** Labels of everything made for one object: operator labels, then the object's own. */
  function GetLabels(namespace: string, name: string, user: LabelSet): LabelSet {
    Merge([map[MANAGED_BY := OPERATOR_NAME], map[LABEL_NAME_KEY := namespace + "_" + name], user])
  }

  function SelectorLabels(component: string, name: string): LabelSet {
    map[PART_OF := APP_LABEL, COMPONENT := component, NAME := name]
  }

  /** Labels of a workload: its selector and the labels of its pods are this same set. */
  function WorkloadLabels(component: string, namespace: string, name: string, user: LabelSet): LabelSet {
    Merge([GetLabels(namespace, name, user), SelectorLabels(component, name)])
  }

  ghost predicate Selects(selector: LabelSet, pod: LabelSet) {
    forall k :: k in selector ==> k in pod && pod[k] == selector[k]
  }

  /** User labels cannot displace what tells the workloads of one namespace apart. */
  lemma IdentityLabelsWin(component: string, namespace: string, name: string, user: LabelSet)
    ensures var l := WorkloadLabels(component, namespace, name, user);
      && COMPONENT in l && l[COMPONENT] == component
      && NAME in l && l[NAME] == name
      && PART_OF in l && l[PART_OF] == APP_LABEL
  {
    var parts := [GetLabels(namespace, name, user), SelectorLabels(component, name)];
    forall key | key in SelectorLabels(component, name)
      ensures key in Merge(parts) && Merge(parts)[key] == SelectorLabels(component, name)[key]
    {
      MergeIsRightBiased(parts, key);
      assert LastWith(parts, key, 1);
    }
  }

  /**
   * With any user labels on either object, the selector of one workload picks the pods of
   * another exactly when they are the same workload of the same object, for objects of one
   * namespace whose labels agree when they are the same object.
   */
  lemma SelectorPicksOwnPodsOnly(namespace: string,
                                 component: string, name: string, user: LabelSet,
                                 component': string, name': string, user': LabelSet)
    requires name == name' ==> user == user'
    ensures Selects(WorkloadLabels(component, namespace, name, user),
                    WorkloadLabels(component', namespace, name', user'))
            <==> component == component' && name == name'
  {
    IdentityLabelsWin(component, namespace, name, user);
    IdentityLabelsWin(component', namespace, name', user');
  }

  /** The object's own labels win over the operator's two, and all of them are there. */
  lemma ObjectLabels(namespace: string, name: string, user: LabelSet, key: string)
    ensures var l := GetLabels(namespace, name, user);
      && (key in l <==> key in user || key == "app.kubernetes.io/managed-by" || key == "lovelycat.io/v1alpha1")
      && (key in user ==> l[key] == user[key])
      && (key !in user && key == "app.kubernetes.io/managed-by" ==> l[key] == "redis-operator")
      && (key !in user && key == "lovelycat.io/v1alpha1" ==> l[key] == namespace + "_" + name)
  {
    var parts := [map[MANAGED_BY := OPERATOR_NAME], map[LABEL_NAME_KEY := namespace + "_" + name], user];
    assert MANAGED_BY[0] == 'a' && LABEL_NAME_KEY[0] == 'l';
    MergeIsRightBiased(parts, key);
    if key in user {
      assert LastWith(parts, key, 2);
    } else if key == LABEL_NAME_KEY {
      assert LastWith(parts, key, 1);
    } else if key == MANAGED_BY {
      assert LastWith(parts, key, 0);
    }
  }

  /** The three labels of a workload, over whatever the user chose. */
  lemma WorkloadLabelsSpelledOut(component: string, namespace: string, name: string, user: LabelSet)
    ensures var l := WorkloadLabels(component, namespace, name, user);
      && l == GetLabels(namespace, name, user)
        + map["app.kubernetes.io/part-of" := "redis-cluster", "app.kubernetes.io/component" := component, "app.kubernetes.io/name" := name]
  {
    var parts := [GetLabels(namespace, name, user), SelectorLabels(component, name)];
    assert parts[..1] == [GetLabels(namespace, name, user)];
    assert parts[..1][..0] == [];
    assert Merge(parts[..1]) == GetLabels(namespace, name, user);
  }
}
