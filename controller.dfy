/**
 * Owner resolver: maps each pod to its top-level controller by a bounded
 * owner walk (pod, then at most its ReplicaSet), then deduplicates the
 * controllers by their `kind/namespace/name` key.
 */
module ControllerDiscovery {
  import opened Wrappers
  import opened Common
  import opened Cluster
  import opened Collect

  /** The first owner of the pod is a ReplicaSet, so resolution fetches it. */
  predicate OwnedByReplicaSet(pod: Pod)
  {
    |pod.owners| > 0 && pod.owners[0].kind == KindReplicaSet
  }

  function ReplicaSetId(pod: Pod): ObjectId
    requires |pod.owners| > 0
  {
    ObjectId(pod.namespace, pod.owners[0].name)
  }

  /**
   * The controller of `pod`: the pod itself when it has no owner; for a
   * ReplicaSet owner, that ReplicaSet's own first owner if it has one, else
   * the ReplicaSet; any other first owner as it is. The result always lies
   * in the pod's namespace, and only a failed ReplicaSet fetch is an error.
   */
  function FindController(snap: Snapshot, pod: Pod): (r: Result<ControllerRef, DiscoveryError>)
    ensures r.Success? ==> r.value.namespace == pod.namespace
    ensures r.Failure? <==> OwnedByReplicaSet(pod) && ReplicaSetId(pod) !in snap.replicaSets
    ensures r.Failure? ==> r.error == GetReplicaSetFailed(pod.namespace, pod.owners[0].name)
  {
    if |pod.owners| == 0 then
      Success(ControllerRef(KindPod, pod.namespace, pod.name))
    else
      var owner := pod.owners[0];
      if owner.kind == KindReplicaSet then
        var id := ObjectId(pod.namespace, owner.name);
        if id !in snap.replicaSets then
          Failure(GetReplicaSetFailed(pod.namespace, owner.name))
        else
          var rs := snap.replicaSets[id];
          if |rs.owners| > 0 then
            Success(ControllerRef(rs.owners[0].kind, pod.namespace, rs.owners[0].name))
          else
            Success(ControllerRef(KindReplicaSet, pod.namespace, rs.name))
      else
        Success(ControllerRef(owner.kind, pod.namespace, owner.name))
  }

  /** The four outcomes of a successful resolution. */
  lemma FindControllerCases(snap: Snapshot, pod: Pod)
    ensures |pod.owners| == 0 ==>
      FindController(snap, pod) == Success(ControllerRef(KindPod, pod.namespace, pod.name))
    ensures OwnedByReplicaSet(pod) && ReplicaSetId(pod) in snap.replicaSets ==>
      var rs := snap.replicaSets[ReplicaSetId(pod)];
      FindController(snap, pod)
      == if |rs.owners| > 0 then Success(ControllerRef(rs.owners[0].kind, pod.namespace, rs.owners[0].name))
         else Success(ControllerRef(KindReplicaSet, pod.namespace, rs.name))
    ensures |pod.owners| > 0 && !OwnedByReplicaSet(pod) ==>
      FindController(snap, pod) == Success(ControllerRef(pod.owners[0].kind, pod.namespace, pod.owners[0].name))
  {
  }

  /** Owner references after the first, of the pod and of its ReplicaSet, are ignored. */
  lemma OnlyFirstOwnersMatter(snap: Snapshot, pod: Pod, extra: seq<OwnerRef>, rsExtra: seq<OwnerRef>)
    requires |pod.owners| > 0
    ensures FindController(snap, pod) == FindController(snap, pod.(owners := [pod.owners[0]] + extra))
    ensures OwnedByReplicaSet(pod) && ReplicaSetId(pod) in snap.replicaSets &&
            |snap.replicaSets[ReplicaSetId(pod)].owners| > 0 ==>
      var rs := snap.replicaSets[ReplicaSetId(pod)];
      var snap' := snap.(replicaSets := snap.replicaSets[ReplicaSetId(pod) := rs.(owners := [rs.owners[0]] + rsExtra)]);
      FindController(snap, pod) == FindController(snap', pod)
  {
  }

  /**
   * `ctrls` is a valid answer for `pods`: no key twice, every controller
   * the resolution of some pod, and every pod's controller represented by
   * one with its key.
   */
  ghost predicate Deduplicated(snap: Snapshot, pods: seq<Pod>, ctrls: seq<ControllerRef>)
  {
    && (forall i, j :: 0 <= i < j < |ctrls| ==> ControllerKey(ctrls[i]) != ControllerKey(ctrls[j]))
    && (forall j :: 0 <= j < |ctrls| ==> ResolvesSome(snap, pods, ctrls[j]))
    && (forall i :: 0 <= i < |pods| ==>
          FindController(snap, pods[i]).Success? && Represented(ctrls, FindController(snap, pods[i]).value))
  }

  /** Some element of `ctrls` has the key of `c`. */
  ghost predicate Represented(ctrls: seq<ControllerRef>, c: ControllerRef)
  {
    exists j :: 0 <= j < |ctrls| && ControllerKey(ctrls[j]) == ControllerKey(c)
  }

  /** Some pod of `pods` resolves to `c`. */
  ghost predicate ResolvesSome(snap: Snapshot, pods: seq<Pod>, c: ControllerRef)
  {
    exists i :: 0 <= i < |pods| && FindController(snap, pods[i]) == Success(c)
  }

  /**
   * Resolves every pod in order and collects the controllers under their
   * keys; the first failed resolution aborts with its error.
   */
  method FindControllers(snap: Snapshot, pods: seq<Pod>) returns (r: Result<seq<ControllerRef>, DiscoveryError>)
    ensures r.Failure? <==> exists i :: 0 <= i < |pods| && FindController(snap, pods[i]).Failure?
    ensures r.Failure? ==> exists i :: 0 <= i < |pods| && FindController(snap, pods[i]) == Failure(r.error)
                                     && forall j :: 0 <= j < i ==> FindController(snap, pods[j]).Success?
    ensures r.Success? ==> Deduplicated(snap, pods, r.value)
  {
    var controllers: map<string, ControllerRef> := map[];
    for i := 0 to |pods|
      invariant forall j :: 0 <= j < i ==> FindController(snap, pods[j]).Success?
      invariant forall k :: k in controllers ==>
                  ControllerKey(controllers[k]) == k && ResolvesSome(snap, pods, controllers[k])
      invariant forall j :: 0 <= j < i ==> ControllerKey(FindController(snap, pods[j]).value) in controllers
    {
      var ctrl := FindController(snap, pods[i]);
      if ctrl.Failure? {
        // logged as a warning
        return Failure(ctrl.error);
      }
      var key := ControllerKey(ctrl.value);
      controllers := controllers[key := ctrl.value];
    }
    var values;
    ghost var keys;
    values, keys := CollectValues(controllers);
    CollectedControllersDeduplicated(snap, pods, controllers, values, keys);
    return Success(values);
  }

  lemma CollectedControllersDeduplicated(snap: Snapshot, pods: seq<Pod>, m: map<string, ControllerRef>,
                                         values: seq<ControllerRef>, keys: seq<string>)
    requires forall k :: k in m ==> ControllerKey(m[k]) == k && ResolvesSome(snap, pods, m[k])
    requires forall i :: 0 <= i < |pods| ==>
               FindController(snap, pods[i]).Success? && ControllerKey(FindController(snap, pods[i]).value) in m
    requires |keys| == |values|
    requires forall i, j :: 0 <= i < j < |keys| ==> keys[i] != keys[j]
    requires forall i :: 0 <= i < |keys| ==> keys[i] in m && values[i] == m[keys[i]]
    requires forall k :: k in m ==> k in keys
    ensures Deduplicated(snap, pods, values)
  {
    forall j | 0 <= j < |values| ensures ResolvesSome(snap, pods, values[j]) {
      assert values[j] == m[keys[j]];
    }
    forall i | 0 <= i < |pods|
      ensures Represented(values, FindController(snap, pods[i]).value)
    {
      var k := ControllerKey(FindController(snap, pods[i]).value);
      var j :| 0 <= j < |keys| && keys[j] == k;
      assert values[j] == m[keys[j]];
    }
  }

  // ---------------------------------------------------------------------
  // Properties of a deduplicated controller list

  /** With well-formed names, the list holds exactly the pods' controllers, each once. */
  lemma DeduplicatedExactly(snap: Snapshot, pods: seq<Pod>, ctrls: seq<ControllerRef>, c: ControllerRef)
    requires Deduplicated(snap, pods, ctrls)
    requires forall i :: 0 <= i < |pods| ==> WellNamed(FindController(snap, pods[i]).value)
    ensures c in ctrls <==> ResolvesSome(snap, pods, c)
  {
    if ResolvesSome(snap, pods, c) {
      var i :| 0 <= i < |pods| && FindController(snap, pods[i]) == Success(c);
      var j :| 0 <= j < |ctrls| && ControllerKey(ctrls[j]) == ControllerKey(c);
      assert ResolvesSome(snap, pods, ctrls[j]);
      var i' :| 0 <= i' < |pods| && FindController(snap, pods[i']) == Success(ctrls[j]);
      ControllerKeyInjective(ctrls[j], c);
    }
  }

  /** N > 0 pods that all resolve to one controller yield exactly that one reference. */
  lemma OneControllerOneRef(snap: Snapshot, pods: seq<Pod>, ctrls: seq<ControllerRef>, c: ControllerRef)
    requires Deduplicated(snap, pods, ctrls)
    requires |pods| > 0
    requires forall i :: 0 <= i < |pods| ==> FindController(snap, pods[i]) == Success(c)
    ensures ctrls == [c]
  {
    assert Represented(ctrls, FindController(snap, pods[0]).value);
    forall k | 0 <= k < |ctrls| ensures ctrls[k] == c && k == 0 {
      assert ResolvesSome(snap, pods, ctrls[k]);
      assert ControllerKey(ctrls[k]) == ControllerKey(ctrls[0]);
    }
    assert ctrls[|ctrls| - 1] == c && |ctrls| - 1 == 0;
  }

  /** When there are pods to resolve and resolution succeeds, there is a controller. */
  lemma ControllersForPods(snap: Snapshot, pods: seq<Pod>, ctrls: seq<ControllerRef>)
    requires Deduplicated(snap, pods, ctrls)
    requires |pods| > 0
    ensures |ctrls| > 0
  {
    assert Represented(ctrls, FindController(snap, pods[0]).value);
  }
}
