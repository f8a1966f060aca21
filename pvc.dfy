/**
 * Volume filter: selects PersistentVolumeClaims by storage class and groups
 * their names by namespace, either from one namespace's claim listing or
 * from the cluster-wide volume listing through each volume's claim reference.
 */
module PvcDiscovery {
  import opened Wrappers
  import opened Cluster

  datatype PvcFilter = PvcFilter(namespace: string, storageClass: string)

  /** Claim names per namespace. */
  type Claims = map<string, seq<string>>

  /**
   * An empty filter matches everything, an absent class matches only the
   * empty filter, and a present class matches a filter equal to it.
   */
  function MatchesStorageClass(storageClassName: Option<string>, filter: string): (b: bool)
    ensures b <==> filter == "" || storageClassName == Some(filter)
  {
    if filter == "" then true
    else if storageClassName.None? then false
    else storageClassName.value == filter
  }

  // ---------------------------------------------------------------------
  // Specification: grouping a listing-ordered sequence of claims

  /** The names of the claims in `entries` that live in `ns`, in listing order. */
  function NamesIn(entries: seq<ObjectId>, ns: string): seq<string>
  {
    if entries == [] then []
    else
      var last := entries[|entries| - 1];
      NamesIn(entries[..|entries| - 1], ns) + (if last.namespace == ns then [last.name] else [])
  }

  function Namespaces(entries: seq<ObjectId>): set<string>
  {
    set e | e in entries :: e.namespace
  }

  /** Every namespace that occurs, mapped to its claims in listing order. */
  function Grouped(entries: seq<ObjectId>): Claims
  {
    map ns | ns in Namespaces(entries) :: NamesIn(entries, ns)
  }

  /** The claims of the listed PVCs that pass the filter, in listing order. */
  function PvcClaims(pvcs: seq<Pvc>, storageClass: string): seq<ObjectId>
  {
    if pvcs == [] then []
    else
      var pvc := pvcs[|pvcs| - 1];
      PvcClaims(pvcs[..|pvcs| - 1], storageClass)
        + (if MatchesStorageClass(pvc.storageClassName, storageClass)
           then [ObjectId(pvc.namespace, pvc.name)] else [])
  }

  /** The claims referenced by the listed PVs that pass the filter and carry a claim reference. */
  function PvClaims(pvs: seq<Pv>, storageClass: string): seq<ObjectId>
  {
    if pvs == [] then []
    else
      var pv := pvs[|pvs| - 1];
      PvClaims(pvs[..|pvs| - 1], storageClass)
        + (if MatchesStorageClass(Some(pv.storageClassName), storageClass) && pv.claimRef.Some?
           then [ObjectId(pv.claimRef.value.namespace, pv.claimRef.value.name)] else [])
  }

  function ClaimsInNamespace(snap: Snapshot, namespace: string, storageClass: string): Result<Claims, DiscoveryError>
  {
    if namespace in snap.pvcLists then Success(Grouped(PvcClaims(snap.pvcLists[namespace], storageClass)))
    else Failure(ListPvcsFailed(namespace))
  }

  function ClaimsFromPvs(snap: Snapshot, storageClass: string): Result<Claims, DiscoveryError>
  {
    match snap.pvList
    case None => Failure(ListPvsFailed)
    case Some(pvs) => Success(Grouped(PvClaims(pvs, storageClass)))
  }

  /** What discovery yields: the namespace listing when a namespace is given, else the PV listing. */
  function Discover(snap: Snapshot, filter: PvcFilter): Result<Claims, DiscoveryError>
  {
    if filter.namespace != "" then ClaimsInNamespace(snap, filter.namespace, filter.storageClass)
    else ClaimsFromPvs(snap, filter.storageClass)
  }

  // ---------------------------------------------------------------------
  // Lemmas about the specification

  lemma {:induction false} NamesInMembership(entries: seq<ObjectId>, ns: string, name: string)
    ensures name in NamesIn(entries, ns) <==> ObjectId(ns, name) in entries
  {
    if entries != [] {
      var init := entries[..|entries| - 1];
      NamesInMembership(init, ns, name);
      assert entries == init + [entries[|entries| - 1]];
    }
  }

  /** A namespace is grouped exactly when a claim lives in it, and then it has at least one name. */
  lemma GroupedKeys(entries: seq<ObjectId>, ns: string)
    ensures ns in Grouped(entries) <==> exists e :: e in entries && e.namespace == ns
    ensures ns in Grouped(entries) ==> |Grouped(entries)[ns]| > 0
  {
    if ns in Grouped(entries) {
      var e :| e in entries && e.namespace == ns;
      NamesInMembership(entries, ns, e.name);
    }
  }

  /** A claim name is grouped under `ns` exactly when that claim is in `entries`. */
  lemma GroupedMembership(entries: seq<ObjectId>, ns: string, name: string)
    ensures (ns in Grouped(entries) && name in Grouped(entries)[ns]) <==> ObjectId(ns, name) in entries
  {
    NamesInMembership(entries, ns, name);
  }

  /** The grouped map is empty exactly when there is nothing to group. */
  lemma GroupedEmpty(entries: seq<ObjectId>)
    ensures Grouped(entries) == map[] <==> entries == []
  {
    if entries != [] {
      assert entries[0].namespace in Grouped(entries);
    }
  }

  /** Appending one claim extends exactly its namespace's list (Go's `m[ns] = append(m[ns], name)`). */
  lemma GroupedSnoc(entries: seq<ObjectId>, x: ObjectId)
    ensures Grouped(entries + [x])
         == Grouped(entries)[x.namespace := GetOr(Grouped(entries), x.namespace, []) + [x.name]]
  {
    var e' := entries + [x];
    var g := Grouped(entries);
    var r := g[x.namespace := GetOr(g, x.namespace, []) + [x.name]];
    assert e'[..|e'| - 1] == entries;
    assert Namespaces(e') == Namespaces(entries) + {x.namespace};
    if x.namespace !in Namespaces(entries) && NamesIn(entries, x.namespace) != [] {
      var n := NamesIn(entries, x.namespace)[0];
      NamesInMembership(entries, x.namespace, n);
    }
    forall ns | ns in Namespaces(e') ensures Grouped(e')[ns] == r[ns] {
      assert NamesIn(e', ns) == NamesIn(entries, ns) + (if x.namespace == ns then [x.name] else []);
    }
    assert Grouped(e').Keys == r.Keys;
  }

  /** One more PVC of the listing extends the claims by at most that PVC. */
  lemma PvcClaimsStep(pvcs: seq<Pvc>, storageClass: string, i: nat)
    requires i < |pvcs|
    ensures PvcClaims(pvcs[..i + 1], storageClass)
         == PvcClaims(pvcs[..i], storageClass)
            + (if MatchesStorageClass(pvcs[i].storageClassName, storageClass)
               then [ObjectId(pvcs[i].namespace, pvcs[i].name)] else [])
  {
    assert pvcs[..i + 1][..i] == pvcs[..i];
  }

  /** One more PV of the listing extends the claims by at most its claim reference. */
  lemma PvClaimsStep(pvs: seq<Pv>, storageClass: string, i: nat)
    requires i < |pvs|
    ensures PvClaims(pvs[..i + 1], storageClass)
         == PvClaims(pvs[..i], storageClass)
            + (if MatchesStorageClass(Some(pvs[i].storageClassName), storageClass) && pvs[i].claimRef.Some?
               then [ObjectId(pvs[i].claimRef.value.namespace, pvs[i].claimRef.value.name)] else [])
  {
    assert pvs[..i + 1][..i] == pvs[..i];
  }

  lemma {:induction false} PvcClaimsMembership(pvcs: seq<Pvc>, storageClass: string, c: ObjectId)
    ensures c in PvcClaims(pvcs, storageClass)
        <==> exists pvc :: pvc in pvcs && pvc.namespace == c.namespace && pvc.name == c.name
                           && MatchesStorageClass(pvc.storageClassName, storageClass)
  {
    if pvcs != [] {
      var init := pvcs[..|pvcs| - 1];
      PvcClaimsMembership(init, storageClass, c);
      assert pvcs == init + [pvcs[|pvcs| - 1]];
    }
  }

  lemma {:induction false} PvClaimsMembership(pvs: seq<Pv>, storageClass: string, c: ObjectId)
    ensures c in PvClaims(pvs, storageClass)
        <==> exists pv :: pv in pvs && MatchesStorageClass(Some(pv.storageClassName), storageClass)
                          && pv.claimRef == Some(ClaimRef(c.namespace, c.name))
  {
    if pvs != [] {
      var init := pvs[..|pvs| - 1];
      PvClaimsMembership(init, storageClass, c);
      assert pvs == init + [pvs[|pvs| - 1]];
    }
  }

  /**
   * Namespace mode: a name is returned under `ns` exactly when a listed PVC
   * of that namespace and name passes the storage-class filter.
   */
  lemma InNamespaceMembership(snap: Snapshot, namespace: string, storageClass: string, ns: string, name: string)
    requires namespace in snap.pvcLists
    ensures var m := ClaimsInNamespace(snap, namespace, storageClass).value;
      (ns in m && name in m[ns])
      <==> exists pvc :: pvc in snap.pvcLists[namespace] && pvc.namespace == ns && pvc.name == name
                         && MatchesStorageClass(pvc.storageClassName, storageClass)
  {
    var entries := PvcClaims(snap.pvcLists[namespace], storageClass);
    GroupedMembership(entries, ns, name);
    PvcClaimsMembership(snap.pvcLists[namespace], storageClass, ObjectId(ns, name));
  }

  /**
   * Cluster mode: a name is returned under `ns` exactly when a listed PV that
   * passes the filter is bound to that claim; PVs without a claim reference
   * contribute nothing and cause no error.
   */
  lemma FromPvsMembership(snap: Snapshot, storageClass: string, ns: string, name: string)
    requires snap.pvList.Some?
    ensures ClaimsFromPvs(snap, storageClass).Success?
    ensures var m := ClaimsFromPvs(snap, storageClass).value;
      (ns in m && name in m[ns])
      <==> exists pv :: pv in snap.pvList.value && MatchesStorageClass(Some(pv.storageClassName), storageClass)
                        && pv.claimRef == Some(ClaimRef(ns, name))
  {
    var entries := PvClaims(snap.pvList.value, storageClass);
    GroupedMembership(entries, ns, name);
    PvClaimsMembership(snap.pvList.value, storageClass, ObjectId(ns, name));
  }

  /** Discovery fails exactly when the listing it dispatches to fails. */
  lemma DiscoverFails(snap: Snapshot, filter: PvcFilter)
    ensures Discover(snap, filter).Failure?
        <==> (if filter.namespace != "" then filter.namespace !in snap.pvcLists else snap.pvList.None?)
    ensures Discover(snap, filter).Failure? ==>
              Discover(snap, filter).error
              == (if filter.namespace != "" then ListPvcsFailed(filter.namespace) else ListPvsFailed)
  {
  }

  // ---------------------------------------------------------------------
  // The discovery operations

  /** Lists the namespace's PVCs and groups the matching ones by their own namespace. */
  method FindPVCsInNamespace(snap: Snapshot, namespace: string, storageClass: string)
    returns (r: Result<Claims, DiscoveryError>)
    ensures r == ClaimsInNamespace(snap, namespace, storageClass)
  {
    var pvcsPerNs: Claims := map[];
    if namespace !in snap.pvcLists {
      return Failure(ListPvcsFailed(namespace));
    }
    var pvcList := snap.pvcLists[namespace];
    for i := 0 to |pvcList|
      invariant pvcsPerNs == Grouped(PvcClaims(pvcList[..i], storageClass))
    {
      var pvc := pvcList[i];
      PvcClaimsStep(pvcList, storageClass, i);
      if !MatchesStorageClass(pvc.storageClassName, storageClass) {
        assert PvcClaims(pvcList[..i + 1], storageClass) == PvcClaims(pvcList[..i], storageClass);
        continue;
      }
      GroupedSnoc(PvcClaims(pvcList[..i], storageClass), ObjectId(pvc.namespace, pvc.name));
      pvcsPerNs := pvcsPerNs[pvc.namespace := GetOr(pvcsPerNs, pvc.namespace, []) + [pvc.name]];
      assert PvcClaims(pvcList[..i + 1], storageClass) == PvcClaims(pvcList[..i], storageClass) + [ObjectId(pvc.namespace, pvc.name)];
    }
    assert pvcList[..|pvcList|] == pvcList;
    return Success(pvcsPerNs);
  }

  /** Lists all PVs and groups the claims of the matching, bound ones by claim namespace. */
  method FindPVCsFromPVs(snap: Snapshot, storageClass: string)
    returns (r: Result<Claims, DiscoveryError>)
    ensures r == ClaimsFromPvs(snap, storageClass)
  {
    var pvcsPerNs: Claims := map[];
    if snap.pvList.None? {
      return Failure(ListPvsFailed);
    }
    var pvList := snap.pvList.value;
    for i := 0 to |pvList|
      invariant pvcsPerNs == Grouped(PvClaims(pvList[..i], storageClass))
    {
      var pv := pvList[i];
      PvClaimsStep(pvList, storageClass, i);
      if !MatchesStorageClass(Some(pv.storageClassName), storageClass) {
        assert PvClaims(pvList[..i + 1], storageClass) == PvClaims(pvList[..i], storageClass);
        continue;
      }
      if pv.claimRef.None? {
        // logged as a warning and skipped
        assert PvClaims(pvList[..i + 1], storageClass) == PvClaims(pvList[..i], storageClass);
        continue;
      }
      var namespace := pv.claimRef.value.namespace;
      var name := pv.claimRef.value.name;
      GroupedSnoc(PvClaims(pvList[..i], storageClass), ObjectId(namespace, name));
      pvcsPerNs := pvcsPerNs[namespace := GetOr(pvcsPerNs, namespace, []) + [name]];
      assert PvClaims(pvList[..i + 1], storageClass) == PvClaims(pvList[..i], storageClass) + [ObjectId(namespace, name)];
    }
    assert pvList[..|pvList|] == pvList;
    return Success(pvcsPerNs);
  }

  /** Dispatches on the namespace filter. */
  method FindPVCs(snap: Snapshot, filter: PvcFilter) returns (r: Result<Claims, DiscoveryError>)
    ensures r == Discover(snap, filter)
  {
    if filter.namespace != "" {
      r := FindPVCsInNamespace(snap, filter.namespace, filter.storageClass);
      return;
    }
    r := FindPVCsFromPVs(snap, filter.storageClass);
  }
}
