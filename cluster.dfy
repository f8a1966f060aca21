/**
 * The Kubernetes objects the plugin reads, reduced to the fields its logic
 * looks at, and an immutable snapshot of the API server's read endpoints.
 * Every listing or fetch is a partial lookup: an absent key (or `None`)
 * stands for a call that returned an error.
 */
module Cluster {
  import opened Wrappers

  /** A PersistentVolumeClaim; `storageClassName` is a nullable pointer in the API. */
  datatype Pvc = Pvc(namespace: string, name: string, storageClassName: Option<string>)

  /** The claim a PersistentVolume is bound to. */
  datatype ClaimRef = ClaimRef(namespace: string, name: string)

  /** A PersistentVolume; its storage class is a plain string, its claim reference nullable. */
  datatype Pv = Pv(name: string, storageClassName: string, claimRef: Option<ClaimRef>)

  datatype PodPhase = Pending | Running | Succeeded | Failed | Unknown

  /** A pod volume; `claimName` is set exactly when the volume has a PVC source. */
  datatype Volume = Volume(name: string, claimName: Option<string>)

  /** An owner reference: the owning object's kind and name (same namespace). */
  datatype OwnerRef = OwnerRef(kind: string, name: string)

  datatype Pod = Pod(namespace: string, name: string, phase: PodPhase,
                     volumes: seq<Volume>, owners: seq<OwnerRef>)

  datatype ReplicaSet = ReplicaSet(name: string, owners: seq<OwnerRef>)

  /** (namespace, name) of a namespaced object. */
  datatype ObjectId = ObjectId(namespace: string, name: string)

  datatype Snapshot = Snapshot(
    pvcLists: map<string, seq<Pvc>>,        // PVCs(ns).List
    pvList: Option<seq<Pv>>,                 // PersistentVolumes().List
    podLists: map<string, seq<Pod>>,        // Pods(ns).List
    replicaSets: map<ObjectId, ReplicaSet>)  // ReplicaSets(ns).Get(name)

  /** The errors of the discovery phase, each naming the call that failed. */
  datatype DiscoveryError =
    | ListPvcsFailed(namespace: string)
    | ListPvsFailed
    | ListPodsFailed(namespace: string)
    | GetReplicaSetFailed(namespace: string, name: string)
}
