/**
 * Pod locator: the non-terminal pods that mount any of the target claims,
 * deduplicated by their `namespace/name` key.
 */
module PodDiscovery {
  import opened Wrappers
  import opened Common
  import opened Cluster
  import opened PvcDiscovery
  import opened Collect

  /** Succeeded and Failed pods are finished and never scaled down. */
  predicate Terminal(p: Pod)
  {
    p.phase == Succeeded || p.phase == Failed
  }

  /** The volume has a PVC source whose claim is one of `pvcs`. */
  predicate UsesClaim(v: Volume, pvcs: seq<string>)
  {
    v.claimName.Some? && v.claimName.value in pvcs
  }

  predicate MountsAny(p: Pod, pvcs: seq<string>)
  {
    exists i :: 0 <= i < |p.volumes| && UsesClaim(p.volumes[i], pvcs)
  }

  predicate Selected(p: Pod, pvcs: seq<string>)
  {
    !Terminal(p) && MountsAny(p, pvcs)
  }

  /** The deduplication key `namespace/name`. */
  function PodKey(p: Pod): string
  {
    Join(p.namespace, p.name)
  }

  /** Some namespace of the claim map cannot be listed. */
  predicate ListingFails(snap: Snapshot, pvcsPerNs: Claims)
  {
    exists ns :: ns in pvcsPerNs && ns !in snap.podLists
  }

  /** `p` is listed in `ns`, a namespace of the claim map, and qualifies against its claims. */
  predicate Candidate(snap: Snapshot, pvcsPerNs: Claims, ns: string, p: Pod)
  {
    ns in pvcsPerNs && ns in snap.podLists && p in snap.podLists[ns] && Selected(p, pvcsPerNs[ns])
  }

  /** `p` qualifies in some namespace of the claim map. */
  ghost predicate IsCandidate(snap: Snapshot, pvcsPerNs: Claims, p: Pod)
  {
    exists ns :: Candidate(snap, pvcsPerNs, ns, p)
  }

  /**
   * `pods` is a valid answer: no key twice, every pod a candidate, and every
   * candidate represented by a pod with its key.
   */
  ghost predicate Located(snap: Snapshot, pvcsPerNs: Claims, pods: seq<Pod>)
  {
    && (forall i, j :: 0 <= i < j < |pods| ==> PodKey(pods[i]) != PodKey(pods[j]))
    && (forall i :: 0 <= i < |pods| ==> IsCandidate(snap, pvcsPerNs, pods[i]))
    && (forall ns, p :: Candidate(snap, pvcsPerNs, ns, p) ==>
          exists i :: 0 <= i < |pods| && PodKey(pods[i]) == PodKey(p))
  }

  /** The map being filled: keyed by each pod's own key, holding candidates only. */
  ghost predicate SoundMap(snap: Snapshot, pvcsPerNs: Claims, m: map<string, Pod>)
  {
    forall k :: k in m ==> PodKey(m[k]) == k && IsCandidate(snap, pvcsPerNs, m[k])
  }

  /**
   * Lists the pods of every namespace of the claim map and keeps those that
   * are not terminal and mount one of that namespace's claims. Fails as soon
   * as one listing fails.
   */
  method FindPodsUsingPVCs(snap: Snapshot, pvcsPerNs: Claims) returns (r: Result<seq<Pod>, DiscoveryError>)
    ensures r.Failure? <==> ListingFails(snap, pvcsPerNs)
    ensures r.Failure? ==> r.error.ListPodsFailed? && r.error.namespace in pvcsPerNs
                           && r.error.namespace !in snap.podLists
    ensures r.Success? ==> Located(snap, pvcsPerNs, r.value)
    ensures pvcsPerNs == map[] ==> r == Success([])
  {
    var pods: map<string, Pod> := map[];
    var remaining := pvcsPerNs.Keys;
    while remaining != {}
      invariant remaining <= pvcsPerNs.Keys
      invariant forall ns :: ns in pvcsPerNs && ns !in remaining ==> ns in snap.podLists
      invariant SoundMap(snap, pvcsPerNs, pods)
      invariant forall ns, p :: ns !in remaining && Candidate(snap, pvcsPerNs, ns, p) ==> PodKey(p) in pods
      invariant pvcsPerNs == map[] ==> pods == map[]
      decreases remaining
    {
      var ns :| ns in remaining;
      remaining := remaining - {ns};
      if ns !in snap.podLists {
        return Failure(ListPodsFailed(ns));
      }
      var podList := snap.podLists[ns];
      var pvcs := pvcsPerNs[ns];
      for i := 0 to |podList|
        invariant SoundMap(snap, pvcsPerNs, pods)
        invariant forall ns', p :: ns' != ns && ns' !in remaining && Candidate(snap, pvcsPerNs, ns', p)
                                   ==> PodKey(p) in pods
        invariant forall j :: 0 <= j < i && Selected(podList[j], pvcs) ==> PodKey(podList[j]) in pods
      {
        var pod := podList[i];
        if pod.phase == Succeeded || pod.phase == Failed {
          continue;
        }
        ghost var before := pods;
        var v := 0;
        while v < |pod.volumes|
          invariant 0 <= v <= |pod.volumes|
          invariant forall l :: 0 <= l < v ==> !UsesClaim(pod.volumes[l], pvcs)
          invariant pods == before
        {
          var vol := pod.volumes[v];
          if vol.claimName.Some? && vol.claimName.value in pvcs {
            assert UsesClaim(pod.volumes[v], pvcs);
            assert Candidate(snap, pvcsPerNs, ns, pod);
            assert IsCandidate(snap, pvcsPerNs, pod);
            pods := pods[PodKey(pod) := pod];
            break;  // one matching volume is enough
          }
          v := v + 1;
        }
      }
      forall p | Candidate(snap, pvcsPerNs, ns, p) ensures PodKey(p) in pods {
        var j :| 0 <= j < |podList| && podList[j] == p;
      }
    }
    var values;
    ghost var keys;
    values, keys := CollectValues(pods);
    CollectedPodsLocated(snap, pvcsPerNs, pods, values, keys);
    return Success(values);
  }

  /** The values of a sound, complete pod map form a located pod list. */
  lemma CollectedPodsLocated(snap: Snapshot, pvcsPerNs: Claims, m: map<string, Pod>,
                             values: seq<Pod>, keys: seq<string>)
    requires SoundMap(snap, pvcsPerNs, m)
    requires forall ns, p :: Candidate(snap, pvcsPerNs, ns, p) ==> PodKey(p) in m
    requires |keys| == |values|
    requires forall i, j :: 0 <= i < j < |keys| ==> keys[i] != keys[j]
    requires forall i :: 0 <= i < |keys| ==> keys[i] in m && values[i] == m[keys[i]]
    requires forall k :: k in m ==> k in keys
    ensures Located(snap, pvcsPerNs, values)
    ensures m == map[] ==> values == []
  {
    if |keys| > 0 {
      assert keys[0] in m;
    }
    forall i, j | 0 <= i < j < |values| ensures PodKey(values[i]) != PodKey(values[j]) {
      assert PodKey(values[i]) == keys[i] && PodKey(values[j]) == keys[j];
    }
    forall i | 0 <= i < |values| ensures IsCandidate(snap, pvcsPerNs, values[i]) {
      assert values[i] == m[keys[i]];
    }
    forall ns, p | Candidate(snap, pvcsPerNs, ns, p)
      ensures exists i :: 0 <= i < |values| && PodKey(values[i]) == PodKey(p)
    {
      var i :| 0 <= i < |keys| && keys[i] == PodKey(p);
      assert values[i] == m[keys[i]];
    }
  }

  // ---------------------------------------------------------------------
  // Properties of a located pod list

  /** A Succeeded or Failed pod is never in the result, whatever it mounts. */
  lemma TerminalNeverLocated(snap: Snapshot, pvcsPerNs: Claims, pods: seq<Pod>, p: Pod)
    requires Located(snap, pvcsPerNs, pods)
    requires Terminal(p)
    ensures p !in pods
  {
  }

  /** A pod appears at most once, however many of its volumes match. */
  lemma LocatedOnce(snap: Snapshot, pvcsPerNs: Claims, pods: seq<Pod>, i: nat, j: nat)
    requires Located(snap, pvcsPerNs, pods)
    requires i < |pods| && j < |pods| && pods[i] == pods[j]
    ensures i == j
  {
  }

  /** `p` appears in some namespace's pod listing. */
  predicate Listed(snap: Snapshot, p: Pod)
  {
    exists ns :: ns in snap.podLists && p in snap.podLists[ns]
  }

  /** Within the listings, a `namespace/name` key determines the pod. */
  ghost predicate UniquePodKeys(snap: Snapshot)
  {
    forall p, q :: Listed(snap, p) && Listed(snap, q) && PodKey(p) == PodKey(q) ==> p == q
  }

  /**
   * With unique keys the result is exactly the set of candidates: a listed,
   * non-terminal pod is returned iff one of its volumes names a claim of its
   * namespace.
   */
  lemma LocatedExactly(snap: Snapshot, pvcsPerNs: Claims, pods: seq<Pod>, p: Pod)
    requires Located(snap, pvcsPerNs, pods)
    requires UniquePodKeys(snap)
    ensures p in pods <==> IsCandidate(snap, pvcsPerNs, p)
  {
    if ns :| Candidate(snap, pvcsPerNs, ns, p) {
      var i :| 0 <= i < |pods| && PodKey(pods[i]) == PodKey(p);
      assert IsCandidate(snap, pvcsPerNs, pods[i]);
      var ns' :| Candidate(snap, pvcsPerNs, ns', pods[i]);
      assert Listed(snap, p) && Listed(snap, pods[i]);
    }
  }
}
