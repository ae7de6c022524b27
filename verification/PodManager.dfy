/** The manager's control loop: one round compares the labelled pods with the configuration, deletes
    stale and failed ones and creates the missing managed ones. */
module PodManager {
  import opened Options
  import opened Text

  datatype Phase = Pending | Running | Succeeded | Failed | Unknown

  /** `shard` is the shard index that the pod's arguments were made for, if the manager made it. */
  datatype Pod = Pod(annotations: map<string, string>, labels: map<string, string>, phase: Phase, shard: Option<nat>)

  datatype Template = Template(annotations: map<string, string>, labels: map<string, string>)

  /** What a round works towards: the application name, the number of pods, and the annotations that
      identify the current pod template and shard configuration. */
  datatype Goal = Goal(app: string, podCount: int, version: string, shardHash: int, template: Template)

  /** Calls that fail in this round: getting the template, the shard hash or the list of pods, deletions,
      and creations or the steps that prepare them. */
  datatype Faults = Faults(
    template: bool,
    shardHash: bool,
    list: bool,
    deletes: set<string>,
    creates: set<string>,
    container: bool)

  const NO_FAULTS := Faults(false, false, false, {}, {}, false)

  const APP_LABEL := "app"

  function Annotations(g: Goal): map<string, string> {
    map["podTemplateResourceVersion" := g.version, "shardConfigHash" := IntToString(g.shardHash)]
  }

  function Count(g: Goal): nat {
    if g.podCount < 0 then 0 else g.podCount
  }

  function NameOf(g: Goal, i: nat): string {
    g.app + "-" + NatToString(i)
  }

  predicate Labelled(g: Goal, pod: Pod) {
    APP_LABEL in pod.labels && pod.labels[APP_LABEL] == g.app
  }

  /** A missing annotation reads as the empty string. */
  function Annotation(pod: Pod, key: string): string {
    if key in pod.annotations then pod.annotations[key] else ""
  }

  predicate Stale(g: Goal, pod: Pod) {
    exists key :: key in Annotations(g) && Annotation(pod, key) != Annotations(g)[key]
  }

  predicate Doomed(g: Goal, pod: Pod) {
    Labelled(g, pod) && (Stale(g, pod) || pod.phase == Failed)
  }

  function NewPod(g: Goal, i: nat): Pod {
    Pod(g.template.annotations + Annotations(g), g.template.labels + map[APP_LABEL := g.app], Pending, Some(i))
  }

  /** The pods that survive the deletions of a round. */
  function Kept(g: Goal, pods: map<string, Pod>): map<string, Pod> {
    map name | name in pods && !Doomed(g, pods[name]) :: pods[name]
  }

  /** The first `n` managed names, filled in where they are free. */
  function Filled(g: Goal, pods: map<string, Pod>, n: nat): map<string, Pod> {
    if n == 0 then pods
    else
      var before := Filled(g, pods, n - 1);
      if NameOf(g, n - 1) in before then before else before[NameOf(g, n - 1) := NewPod(g, n - 1)]
  }

  function AfterRound(g: Goal, pods: map<string, Pod>): map<string, Pod> {
    Filled(g, Kept(g, pods), Count(g))
  }

  lemma {:induction false} NamesDiffer(g: Goal, i: nat, j: nat)
    ensures NameOf(g, i) == NameOf(g, j) ==> i == j
  {
    var prefix := g.app + "-";
    assert NameOf(g, i)[|prefix|..] == NatToString(i) && NameOf(g, j)[|prefix|..] == NatToString(j);
    NatToStringInjective(i, j);
  }

  lemma {:induction false} NewPodIsCurrent(g: Goal, i: nat)
    ensures Labelled(g, NewPod(g, i)) && !Doomed(g, NewPod(g, i))
  {
  }

  // ---- what a round achieves, in the terms of the pods

  /** The pod carries the label of the application. */
  ghost predicate BelongsTo(g: Goal, pod: Pod) {
    "app" in pod.labels && pod.labels["app"] == g.app
  }

  /** The annotation has this value; a missing one counts as empty. */
  ghost predicate Carries(pod: Pod, key: string, value: string) {
    if key in pod.annotations then pod.annotations[key] == value else value == ""
  }

  /** Made from the current template for the current shard configuration, and not failed. */
  ghost predicate InOrder(g: Goal, pod: Pod) {
    Carries(pod, "podTemplateResourceVersion", g.version) &&
    Carries(pod, "shardConfigHash", IntToString(g.shardHash)) && pod.phase != Failed
  }

  /** The pod that the manager makes for a shard: the template's labels and annotations, except that the
      application, the version of the template and the shard configuration are its own. */
  ghost predicate MadeFor(g: Goal, i: nat, pod: Pod) {
    pod.shard == Some(i) && pod.phase == Pending && BelongsTo(g, pod) && InOrder(g, pod) &&
    pod.labels.Keys == g.template.labels.Keys + {"app"} &&
    pod.annotations.Keys == g.template.annotations.Keys + {"podTemplateResourceVersion", "shardConfigHash"} &&
    (forall key :: key in g.template.labels && key != "app" ==> pod.labels[key] == g.template.labels[key]) &&
    forall key :: key in g.template.annotations && key !in {"podTemplateResourceVersion", "shardConfigHash"} ==>
      pod.annotations[key] == g.template.annotations[key]
  }

  /** The pod has a managed name and was made for the shard of that name. */
  ghost predicate Managed(g: Goal, name: string, pod: Pod) {
    exists i: nat :: i < g.podCount && name == g.app + "-" + NatToString(i) && MadeFor(g, i, pod)
  }

  /** The pod is not the manager's, or it is in order. */
  ghost predicate Stays(g: Goal, pod: Pod) {
    BelongsTo(g, pod) ==> InOrder(g, pod)
  }

  /** Only pods of the application that are out of order may go, and nothing is new. */
  ghost predicate OnlyDeletes(g: Goal, before: map<string, Pod>, after: map<string, Pod>) {
    (forall name :: name in before && Stays(g, before[name]) ==> name in after) &&
    forall name :: name in after ==> name in before && after[name] == before[name]
  }

  /** Only pods of the application that are out of order may go, and what is new has a managed name and was
      made for its shard. */
  ghost predicate OnlyImproves(g: Goal, before: map<string, Pod>, after: map<string, Pod>) {
    (forall name :: name in before && Stays(g, before[name]) ==> name in after && after[name] == before[name]) &&
    (forall name :: name in after && !(name in before && after[name] == before[name]) ==>
      Managed(g, name, after[name]))
  }

  /** And they have gone: every pod of the application is in order, and every managed name is taken. */
  ghost predicate Reached(g: Goal, before: map<string, Pod>, after: map<string, Pod>) {
    OnlyImproves(g, before, after) && (forall name :: name in after ==> Stays(g, after[name])) &&
    forall i: nat :: i < g.podCount ==> g.app + "-" + NatToString(i) in after
  }

  /** A managed name is held by a pod that is not the manager's, which the round does not see. */
  ghost predicate Squatted(g: Goal, pods: map<string, Pod>) {
    exists i: nat :: i < g.podCount &&
      var name := g.app + "-" + NatToString(i); name in pods && !BelongsTo(g, pods[name])
  }

  /** Each managed name is held by a pod of the application, which is in order. */
  ghost predicate AllRunning(g: Goal, pods: map<string, Pod>) {
    forall i: nat :: i < g.podCount ==>
      var name := g.app + "-" + NatToString(i);
      name in pods && BelongsTo(g, pods[name]) && InOrder(g, pods[name])
  }

  lemma {:induction false} DoomedIs(g: Goal, pod: Pod)
    ensures Labelled(g, pod) <==> BelongsTo(g, pod)
    ensures Doomed(g, pod) <==> BelongsTo(g, pod) && !InOrder(g, pod)
  {
    assert "podTemplateResourceVersion" in Annotations(g) && "shardConfigHash" in Annotations(g);
  }

  lemma {:induction false} NewPodIs(g: Goal, i: nat)
    ensures MadeFor(g, i, NewPod(g, i))
  {
  }

  // ---- the round as a function

  lemma {:induction false} FilledNames(g: Goal, pods: map<string, Pod>, n: nat)
    ensures forall name :: name in pods ==> name in Filled(g, pods, n) && Filled(g, pods, n)[name] == pods[name]
    ensures forall i: nat :: i < n ==> NameOf(g, i) in Filled(g, pods, n)
    ensures forall name :: name in Filled(g, pods, n) && name !in pods ==>
      exists i: nat :: i < n && name == NameOf(g, i) && Filled(g, pods, n)[name] == NewPod(g, i)
    decreases n
  {
    if n > 0 {
      FilledNames(g, pods, n - 1);
      var before, after := Filled(g, pods, n - 1), Filled(g, pods, n);
      forall name | name in after && name !in pods
        ensures exists i: nat :: i < n && name == NameOf(g, i) && after[name] == NewPod(g, i)
      {
        if name in before {
          var i: nat :| i < n - 1 && name == NameOf(g, i) && before[name] == NewPod(g, i);
          assert after[name] == NewPod(g, i);
        }
      }
    }
  }

  lemma {:induction false} FilledIsStable(g: Goal, pods: map<string, Pod>, n: nat)
    requires forall i: nat :: i < n ==> NameOf(g, i) in pods
    ensures Filled(g, pods, n) == pods
    decreases n
  {
    if n > 0 { FilledIsStable(g, pods, n - 1); }
  }

  /** One round reaches the goal: every managed name is present, every labelled pod is current and not
      failed, the pods that were in order are untouched, and the pods that are new have a managed name
      and the shard index of that name. */
  lemma {:induction false} RoundReachesGoal(g: Goal, pods: map<string, Pod>)
    ensures Reached(g, pods, AfterRound(g, pods))
  {
    hide AfterRound, Doomed, InOrder, BelongsTo, MadeFor, NewPod;
    var after := AfterRound(g, pods);
    RoundIs(g, pods);
    forall name | name in pods { DoomedIs(g, pods[name]); }
    forall name | name in after { DoomedIs(g, after[name]); }
    forall name | name in after && !(name in pods && after[name] == pods[name])
      ensures Managed(g, name, after[name])
    {
      var i: nat :| i < g.podCount && name == NameOf(g, i) && after[name] == NewPod(g, i);
      NewPodIs(g, i);
    }
    forall i: nat | i < g.podCount ensures g.app + "-" + NatToString(i) in after {
      assert NameOf(g, i) in after;
    }
  }

  lemma {:induction false} RoundIs(g: Goal, pods: map<string, Pod>)
    ensures
      var after := AfterRound(g, pods);
      && (forall i: nat :: i < g.podCount ==> NameOf(g, i) in after)
      && (forall name :: name in after ==> !Doomed(g, after[name]))
      && (forall name :: name in pods && !Doomed(g, pods[name]) ==> name in after && after[name] == pods[name])
      && (forall name :: name in after && (name !in pods || Doomed(g, pods[name])) ==>
           exists i: nat :: i < g.podCount && name == NameOf(g, i) && after[name] == NewPod(g, i))
  {
    var n := Count(g);
    FilledNames(g, Kept(g, pods), n);
    var after := AfterRound(g, pods);
    forall name | name in after && (name !in pods || Doomed(g, pods[name]))
      ensures exists i: nat :: i < g.podCount && name == NameOf(g, i) && after[name] == NewPod(g, i)
    {
      assert name !in Kept(g, pods);
    }
    forall name | name in after ensures !Doomed(g, after[name]) {
      if name !in Kept(g, pods) {
        var i: nat :| i < n && name == NameOf(g, i) && after[name] == NewPod(g, i);
        NewPodIsCurrent(g, i);
      }
    }
  }

  /** A second round with the same goal finds nothing to delete or create. */
  lemma {:induction false} SecondRoundDoesNothing(g: Goal, pods: map<string, Pod>)
    ensures
      var after := AfterRound(g, pods);
      Kept(g, after) == after && AfterRound(g, after) == after
  {
    RoundIs(g, pods);
    var after := AfterRound(g, pods);
    assert Kept(g, after) == after;
    FilledIsStable(g, after, Count(g));
  }

  /** The pods of the manager's namespace. */
  class Cluster {
    var pods: map<string, Pod>

    /** The names of the labelled pods, in any order. */
    method List(g: Goal) returns (names: seq<string>)
      ensures forall name :: name in names <==> name in pods && Labelled(g, pods[name])
      ensures forall i, j :: 0 <= i < j < |names| ==> names[i] != names[j]
    {
      names := [];
      var rest := pods.Keys;
      while rest != {}
        invariant rest <= pods.Keys
        invariant forall name :: name in names <==> name in pods && name !in rest && Labelled(g, pods[name])
        invariant forall i, j :: 0 <= i < j < |names| ==> names[i] != names[j]
        decreases rest
      {
        var name :| name in rest;
        if Labelled(g, pods[name]) {
          names := names + [name];
        }
        rest := rest - {name};
      }
    }

    method Delete(name: string, fails: bool) returns (ok: bool)
      modifies this
      ensures ok <==> !fails
      ensures pods == if fails then old(pods) else old(pods) - {name}
    {
      if fails {
        return false;
      }
      pods := pods - {name};
      return true;
    }

    /** A name that is taken cannot be created. */
    method Create(name: string, pod: Pod, fails: bool) returns (ok: bool)
      modifies this
      ensures ok <==> !fails && name !in old(pods)
      ensures pods == if ok then old(pods)[name := pod] else old(pods)
    {
      if fails || name in pods {
        return false;
      }
      pods := pods[name := pod];
      return true;
    }
  }

  method GetPodNames(g: Goal) returns (names: seq<string>)
    ensures |names| == Count(g)
    ensures forall i :: 0 <= i < |names| ==> names[i] == g.app + "-" + NatToString(i) == NameOf(g, i)
    ensures forall i, j :: 0 <= i < j < |names| ==> names[i] != names[j]
  {
    names := [];
    var i := 0;
    while i < g.podCount
      invariant 0 <= i && |names| == i && (i <= g.podCount || i == 0)
      invariant forall j :: 0 <= j < i ==> names[j] == NameOf(g, j)
    {
      names := names + [NameOf(g, i)];
      i := i + 1;
    }
    forall j, k | 0 <= j < k < |names| ensures names[j] != names[k] {
      NamesDiffer(g, j, k);
    }
  }

  /** The names that the round counts as existing. */
  predicate Seen(g: Goal, pods: map<string, Pod>, name: string) {
    name in pods && Labelled(g, pods[name]) && !Doomed(g, pods[name])
  }

  /** Whatever fails, a round only deletes doomed pods and only adds new pods under managed names. */
  ghost predicate Careful(g: Goal, before: map<string, Pod>, after: map<string, Pod>) {
    (forall name :: name in before && !Doomed(g, before[name]) ==> name in after && after[name] == before[name]) &&
    (forall name :: name in after ==>
      (name in before && after[name] == before[name]) ||
      exists i: nat :: i < g.podCount && name == NameOf(g, i) && after[name] == NewPod(g, i))
  }

  lemma {:induction false} CarefulCreate(g: Goal, before: map<string, Pod>, after: map<string, Pod>, i: nat)
    requires Careful(g, before, after) && i < g.podCount && NameOf(g, i) !in after
    ensures Careful(g, before, after[NameOf(g, i) := NewPod(g, i)])
  {
  }

  lemma {:induction false} CarefulImproves(g: Goal, before: map<string, Pod>, after: map<string, Pod>)
    requires Careful(g, before, after)
    ensures OnlyImproves(g, before, after)
  {
    hide Doomed, InOrder, BelongsTo, MadeFor, NewPod;
    forall name | name in before { DoomedIs(g, before[name]); }
    forall name | name in after && !(name in before && after[name] == before[name])
      ensures Managed(g, name, after[name])
    {
      var i: nat :| i < g.podCount && name == NameOf(g, i) && after[name] == NewPod(g, i);
      NewPodIs(g, i);
    }
  }

  /** The state of one managed name just before the round looks at it. */
  lemma {:induction false} NextName(g: Goal, pods: map<string, Pod>, i: nat)
    ensures
      var name, now := NameOf(g, i), Filled(g, Kept(g, pods), i);
      && (name in now <==> name in Kept(g, pods))
      && (name in now && !Seen(g, pods, name) ==> !Labelled(g, pods[name]))
      && (Seen(g, pods, name) ==> name in now && Labelled(g, pods[name]))
      && (SquattedBelow(g, pods, i + 1) <==>
          SquattedBelow(g, pods, i) || (name in pods && !Labelled(g, pods[name])))
  {
    FilledNames(g, Kept(g, pods), i);
    var name, now := NameOf(g, i), Filled(g, Kept(g, pods), i);
    if name in now && name !in Kept(g, pods) {
      var j: nat :| j < i && name == NameOf(g, j) && now[name] == NewPod(g, j);
      NamesDiffer(g, i, j);
    }
  }

  predicate SquattedBelow(g: Goal, pods: map<string, Pod>, n: nat) {
    exists i: nat :: i < n && NameOf(g, i) in pods && !Labelled(g, pods[NameOf(g, i)])
  }

  lemma {:induction false} NobodyBelow(g: Goal, pods: map<string, Pod>)
    ensures !SquattedBelow(g, pods, 0) && Filled(g, Kept(g, pods), 0) == Kept(g, pods)
  {
  }

  lemma {:induction false} SquattedBelowAll(g: Goal, pods: map<string, Pod>)
    ensures SquattedBelow(g, pods, Count(g)) <==> Squatted(g, pods)
  {
    hide Labelled, BelongsTo;
    forall name | name in pods { DoomedIs(g, pods[name]); }
    if SquattedBelow(g, pods, Count(g)) {
      var i: nat :| i < Count(g) && NameOf(g, i) in pods && !Labelled(g, pods[NameOf(g, i)]);
      assert g.app + "-" + NatToString(i) in pods;
    }
    if Squatted(g, pods) {
      var i: nat :| i < g.podCount && var name := g.app + "-" + NatToString(i);
        name in pods && !BelongsTo(g, pods[name]);
      assert NameOf(g, i) in pods;
    }
  }

  lemma {:induction false} ReachedWithoutSquatters(g: Goal, before: map<string, Pod>, after: map<string, Pod>)
    requires Reached(g, before, after) && !Squatted(g, before)
    ensures AllRunning(g, after)
  {
    hide BelongsTo, InOrder;
    forall i: nat | i < g.podCount
      ensures var name := g.app + "-" + NatToString(i); BelongsTo(g, after[name]) && InOrder(g, after[name])
    {
      var name := g.app + "-" + NatToString(i);
      if !(name in before && after[name] == before[name]) { ManagedBelongs(g, name, after[name]); }
    }
  }

  lemma {:induction false} ManagedBelongs(g: Goal, name: string, pod: Pod)
    requires Managed(g, name, pod)
    ensures BelongsTo(g, pod)
  {
  }

  lemma {:induction false} Untouched(g: Goal, pods: map<string, Pod>)
    ensures Careful(g, pods, pods) && OnlyImproves(g, pods, pods)
  {
  }

  /** The pods left after the listed names have been looked at. */
  ghost function Survivors(g: Goal, pods: map<string, Pod>, names: seq<string>): map<string, Pod> {
    map name | name in pods && !(name in names && Doomed(g, pods[name])) :: pods[name]
  }

  lemma {:induction false} SurvivorsStep(g: Goal, pods: map<string, Pod>, names: seq<string>, name: string)
    requires name in pods
    ensures Survivors(g, pods, names + [name]) ==
      if Doomed(g, pods[name]) then Survivors(g, pods, names) - {name} else Survivors(g, pods, names)
    ensures name !in names ==> name in Survivors(g, pods, names) && Survivors(g, pods, names)[name] == pods[name]
  {
  }

  lemma {:induction false} SurvivorsAre(g: Goal, pods: map<string, Pod>, names: seq<string>)
    requires forall name :: name in names ==> name in pods
    ensures Careful(g, pods, Survivors(g, pods, names))
    ensures names == [] ==> Survivors(g, pods, names) == pods
    ensures (forall name :: name in pods ==> (Labelled(g, pods[name]) <==> name in names)) ==>
      Survivors(g, pods, names) == Kept(g, pods)
  {
  }

  lemma {:induction false} SurvivorsStay(g: Goal, pods: map<string, Pod>, names: seq<string>)
    ensures OnlyDeletes(g, pods, Survivors(g, pods, names))
  {
    hide Doomed, BelongsTo, InOrder;
    forall name | name in pods { DoomedIs(g, pods[name]); }
  }

  lemma {:induction false} KeptStay(g: Goal, pods: map<string, Pod>)
    ensures forall name :: name in Kept(g, pods) ==> Stays(g, Kept(g, pods)[name])
  {
    hide Doomed, BelongsTo, InOrder;
    forall name | name in pods { DoomedIs(g, pods[name]); }
  }

  method DeleteDoomed(g: Goal, cluster: Cluster, faults: Faults) returns (failed: bool, podExists: map<string, bool>)
    modifies cluster
    ensures Careful(g, old(cluster.pods), cluster.pods)
    ensures !failed ==> cluster.pods == Kept(g, old(cluster.pods))
    ensures OnlyDeletes(g, old(cluster.pods), cluster.pods)
    ensures !failed ==> forall name :: name in cluster.pods ==> Stays(g, cluster.pods[name])
    ensures faults.list ==> failed && cluster.pods == old(cluster.pods)
    ensures !faults.list && faults.deletes == {} ==> !failed
    ensures forall i: nat :: i < g.podCount ==> NameOf(g, i) in podExists
    ensures !failed ==> forall name :: name in podExists ==> (podExists[name] <==> Seen(g, old(cluster.pods), name))
  {
    hide Careful, Survivors, Kept, OnlyDeletes, Stays;
    ghost var before := cluster.pods;
    SurvivorsAre(g, before, []);
    SurvivorsStay(g, before, []);
    var podNames := GetPodNames(g);
    podExists := map name | name in podNames :: false;
    assert forall i: nat :: i < g.podCount ==> podNames[i] in podExists;
    if faults.list {
      return true, podExists;
    }
    var names := cluster.List(g);
    for k := 0 to |names|
      invariant forall i: nat :: i < g.podCount ==> NameOf(g, i) in podExists
      invariant cluster.pods == Survivors(g, before, names[..k])
      invariant forall name :: name in podExists ==>
        (podExists[name] <==> name in names[..k] && !Doomed(g, before[name]))
    {
      var name := names[k];
      assert names[..k + 1] == names[..k] + [name];
      assert name in names && name !in names[..k];
      SurvivorsAre(g, before, names[..k]);
      SurvivorsStep(g, before, names[..k], name);
      var pod := cluster.pods[name];
      var deletePod := false;
      if Stale(g, pod) {
        deletePod := true;
      }
      if pod.phase == Failed {
        deletePod := true;
      }
      if deletePod {
        var ok := cluster.Delete(name, name in faults.deletes);
        if !ok {
          SurvivorsStay(g, before, names[..k]);
          return true, podExists;
        }
      } else if name in podExists {
        podExists := podExists[name := true];
      }
    }
    assert names[..|names|] == names;
    SurvivorsAre(g, before, names);
    SurvivorsStay(g, before, names);
    KeptStay(g, before);
    return false, podExists;
  }

  /** One round. If it reports no error it has reached the goal, whatever failed. Without failing
      calls it always reaches the goal, and reports an error exactly when an unlabelled pod holds a
      managed name: then its attempt to create that pod fails in every round. A round that cannot read
      what it needs changes nothing. */
  method CreatePods(g: Goal, cluster: Cluster, faults: Faults) returns (failed: bool)
    modifies cluster
    ensures OnlyImproves(g, old(cluster.pods), cluster.pods)
    ensures !failed ==> Reached(g, old(cluster.pods), cluster.pods) && AllRunning(g, cluster.pods)
    ensures faults == NO_FAULTS ==>
      Reached(g, old(cluster.pods), cluster.pods) && (failed <==> Squatted(g, old(cluster.pods)))
    ensures !failed || faults == NO_FAULTS ==> cluster.pods == AfterRound(g, old(cluster.pods))
    ensures faults.template || faults.shardHash || faults.list ==> failed && cluster.pods == old(cluster.pods)
  {
    hide Careful, OnlyImproves, Reached, AllRunning, Squatted, SquattedBelow;
    ghost var before := cluster.pods;
    if faults.template || faults.shardHash {
      Untouched(g, before);
      return true;
    }
    var podExists;
    failed, podExists := DeleteDoomed(g, cluster, faults);
    CarefulImproves(g, before, cluster.pods);
    if failed {
      return;
    }
    NobodyBelow(g, before);
    var podNames := GetPodNames(g);
    for i := 0 to |podNames|
      invariant Careful(g, before, cluster.pods)
      invariant !failed || faults.creates == {} ==> cluster.pods == Filled(g, Kept(g, before), i)
      invariant !failed ==> !SquattedBelow(g, before, i)
      invariant faults.creates == {} ==> (failed <==> SquattedBelow(g, before, i))
    {
      var name := podNames[i];
      NextName(g, before, i);
      if !podExists[name] {
        if faults.container {
          CarefulImproves(g, before, cluster.pods);
          return true;
        }
        if name !in cluster.pods { CarefulCreate(g, before, cluster.pods, i); }
        var ok := cluster.Create(name, NewPod(g, i), name in faults.creates);
        if !ok {
          failed := true;
        }
      }
    }
    CarefulImproves(g, before, cluster.pods);
    RoundReachesGoal(g, before);
    SquattedBelowAll(g, before);
    if !failed { ReachedWithoutSquatters(g, before, cluster.pods); }
  }
}
