# kubectl-unmount-pvs, modelled in Dafny

`kubectl unmount-pvs` releases PersistentVolumes by stopping the workloads that
mount them. It has four stages:

1. **Claims.** It finds the matching PersistentVolumeClaims: those in one
   namespace, or across the cluster through the PersistentVolumes' claim
   references, filtered by storage class. An explicit claim name skips this
   search.
2. **Pods.** It finds the non-terminated pods that mount one of those claims.
3. **Controllers.** It resolves each pod to its top-level controller by a
   bounded owner walk: the pod itself, its owner, or the owner of its
   ReplicaSet. The controllers are deduplicated by `kind/namespace/name`.
4. **Scale down.** It prints the controllers, asks for a typed `yes` unless
   told to skip the prompt, and then scales each one down. Deployments,
   StatefulSets and ReplicaSets go to zero replicas, standalone pods are
   deleted, and DaemonSets and unknown kinds are skipped. A failure does not
   stop the batch; failures are counted and reported at the end. A dry run
   changes nothing.

How the model is built:

- The cluster's read side is an immutable `Cluster.Snapshot`. A listing or
  fetch that fails is a missing map entry, or `None` for the PV listing.
- The write side is a class, `Scaling.ScaleApi`. It holds the scale table and
  the set of live pods, which `UpdateScale` and `Delete` change in place, and
  a ghost log of every mutating request sent.
- Go's map iteration order is unspecified, so three things are left open:
  - which namespace is visited first is picked nondeterministically;
  - `slices.Collect(maps.Values(m))` returns the values in any order;
  - pod and controller results are therefore specified by what they contain,
    never by their order.

Modules, one per source file:

- `Wrappers`: Option and Result.
- `Common`: `pkg/common/types.go`, plus the dedup keys.
- `Cluster`: the API objects.
- `PvcDiscovery`: `pkg/discovery/pvc.go`.
- `Collect`: an unordered map-values collection.
- `PodDiscovery`: `pkg/discovery/pod.go`.
- `ControllerDiscovery`: `pkg/discovery/controller.go`.
- `Scaling`: `pkg/scaling/scaler.go`.
- `Plugin`: `ConfigFlags`, `run` and `confirmAction` of `pkg/plugin/plugin.go`, and the options `cmd/plugin/main.go` builds.

## Model

| member | source | states |
|---|---|---|
| Common.ControllerKeyInjective | pkg/discovery/controller.go:73-74 | For names without '/', two controllers share the `kind/namespace/name` key exactly when they are the same controller. |
| PvcDiscovery.MatchesStorageClass | pkg/discovery/pvc.go:72-80 | A claim passes the filter exactly when the filter is empty or the claim's storage class is set and equal to it. A nil class never matches a non-empty filter. |
| PvcDiscovery.NamesInMembership | pkg/discovery/pvc.go:41 | A name is in a namespace's appended list exactly when that (namespace, name) was appended. |
| PvcDiscovery.GroupedKeys | pkg/discovery/pvc.go:41 | A namespace is a key of the claim map exactly when some claim lives in it, and its list is then non-empty. |
| PvcDiscovery.GroupedMembership | pkg/discovery/pvc.go:41 | A name is listed under a namespace exactly when that claim was appended. |
| PvcDiscovery.GroupedEmpty | pkg/discovery/pvc.go:30-44 | The claim map is empty exactly when no claim passed the filters. |
| PvcDiscovery.GroupedSnoc | pkg/discovery/pvc.go:41 | Appending one claim extends exactly its own namespace's list by that name and leaves every other namespace unchanged. |
| PvcDiscovery.PvcClaimsMembership | pkg/discovery/pvc.go:37-42 | A claim is kept from the PVC listing exactly when a listed PVC with that namespace and name passes the storage-class filter. |
| PvcDiscovery.PvClaimsMembership | pkg/discovery/pvc.go:56-67 | A claim is kept from the PV listing exactly when a listed PV passes the filter and has a claim reference to it. PVs without a claim reference are skipped. |
| PvcDiscovery.InNamespaceMembership | pkg/discovery/pvc.go:29-45 | Namespace mode succeeds when the listing succeeds. It then returns a name under a namespace exactly when a matching listed PVC has that namespace and name. |
| PvcDiscovery.FromPvsMembership | pkg/discovery/pvc.go:48-70 | Cluster mode never fails once the PV listing succeeds. It then returns a name under a namespace exactly when a matching PV is bound to that claim. |
| PvcDiscovery.DiscoverFails | pkg/discovery/pvc.go:18-26 | Discovery fails exactly when the listing it dispatches to fails: PVCs of the namespace when one is given, else PVs. The error names that listing. |
| PvcDiscovery.FindPVCsInNamespace | pkg/discovery/pvc.go:29-45 | A loop over the listing, with `continue` on a filter mismatch. Its result equals the grouped matching PVCs, or the listing error. |
| PvcDiscovery.FindPVCsFromPVs | pkg/discovery/pvc.go:48-70 | A loop over the PV listing that skips mismatched PVs and PVs without a claim reference. Its result equals the grouped claim references, or the listing error. |
| PvcDiscovery.FindPVCs | pkg/discovery/pvc.go:18-26 | Dispatches on the namespace filter. Its result equals the discovery specification. |
| Collect.CollectValues | pkg/discovery/pod.go:38 | Returns each value of the map exactly once, one per key, in an unspecified order. |
| PodDiscovery.FindPodsUsingPVCs | pkg/discovery/pod.go:15-39 | Fails exactly when some claimed namespace's pod listing fails, with a listing error for such a namespace. On success the pods have distinct `namespace/name` keys, each is a non-terminal listed pod mounting a claim of its namespace, and every such pod is represented. An empty claim map gives no pods. |
| PodDiscovery.TerminalNeverLocated | pkg/discovery/pod.go:25-27 | A Succeeded or Failed pod is never returned. |
| PodDiscovery.LocatedOnce | pkg/discovery/pod.go:30-32 | No pod is returned twice, however many of its volumes match. |
| PodDiscovery.LocatedExactly | pkg/discovery/pod.go:15-39 | When keys identify listed pods, a pod is returned exactly when it is listed, non-terminal and mounts one of its namespace's claims. |
| ControllerDiscovery.FindController | pkg/discovery/controller.go:16-61 | The controller lies in the pod's namespace. Resolution fails exactly when the first owner is a ReplicaSet that cannot be fetched, with that fetch's error. |
| ControllerDiscovery.FindControllerCases | pkg/discovery/controller.go:18-60 | Each outcome: no owner gives the pod itself; a fetched ReplicaSet gives its first owner, or the ReplicaSet when it has none; any other first owner is returned as it is. |
| ControllerDiscovery.OnlyFirstOwnersMatter | pkg/discovery/controller.go:27-45 | Owner references after the first, of the pod or of its ReplicaSet, do not change the result. |
| ControllerDiscovery.FindControllers | pkg/discovery/controller.go:63-78 | Fails exactly when some pod's resolution fails, with the error of the first failing pod. Otherwise the controllers have distinct keys, each resolves some pod, and every pod's controller is represented. |
| ControllerDiscovery.DeduplicatedExactly | pkg/discovery/controller.go:66-77 | With well-formed names, a controller is in the list exactly when some pod resolves to it. |
| ControllerDiscovery.OneControllerOneRef | pkg/discovery/controller.go:66-77 | Any positive number of pods that all resolve to one controller yield that single reference. |
| ControllerDiscovery.ControllersForPods | pkg/plugin/plugin.go:94-101 | When there is at least one pod and resolution succeeds, there is at least one controller. |
| Scaling.Dispatch | pkg/scaling/scaler.go:29-51 | A dry run skips every kind. Otherwise Deployment, StatefulSet and ReplicaSet scale to zero, Pod is deleted, DaemonSet is skipped with a warning and success, and every other kind is skipped the same way as unsupported. Each case is stated in both directions. |
| Scaling.ScaleControllerToZero | pkg/scaling/scaler.go:58-78 | Error and new server state match the scale-to-zero effect: a failed get sends nothing, zero replicas is a successful no-op, otherwise one update to zero is sent and either applied or reported. |
| Scaling.DeleteStandalonePod | pkg/scaling/scaler.go:80-87 | Sends one delete. The pod is gone on success; failure is reported with nothing changed. |
| Scaling.Scaler.ScaleDown | pkg/scaling/scaler.go:29-51 | Error, new scale table, live pods and sent requests all match the specification for the dispatched action. |
| Scaling.DryRunChangesNothing | pkg/scaling/scaler.go:30-33 | A dry run succeeds for every controller, sends nothing and changes nothing. |
| Scaling.SkippedKindsChangeNothing | pkg/scaling/scaler.go:44-49 | DaemonSets and unknown kinds succeed without sending anything. |
| Scaling.ScaleToZeroOutcome | pkg/scaling/scaler.go:58-78 | The three cases of scaling to zero: a missing scale is an error with nothing sent; already at zero is success with nothing sent; otherwise exactly one update to zero is sent, and it succeeds exactly when writes are accepted. No pod changes. |
| Scaling.DeletePodOutcome | pkg/scaling/scaler.go:80-87 | Deleting a standalone pod sends one delete and removes exactly that pod. It succeeds exactly when the pod is live and writes are accepted. |
| Scaling.ScaleDownFrame | pkg/scaling/scaler.go:35-43 | A call changes nothing the server holds about any other controller. |
| Scaling.ScaleDownShrinks | pkg/scaling/scaler.go:35-43 | A call never adds a scale entry or a pod. |
| Scaling.OutcomeDependsOnView | pkg/scaling/scaler.go:29-51 | Whether a call fails depends only on the server's state for that controller. |
| Scaling.ScaleDownIdempotent | pkg/scaling/scaler.go:64-68 | After a successful scale-down, a second call succeeds without sending anything, so two calls write at most once. |
| Scaling.Batch | pkg/plugin/plugin.go:119-128 | The batch specification: it never adds scale entries or pods, and it counts at most one failure per controller. |
| Scaling.BatchFrame | pkg/plugin/plugin.go:122-128 | Controllers outside the batch look the same after it. |
| Scaling.BatchFailures | pkg/plugin/plugin.go:121-131 | Over distinct controllers, the failure count equals the number of controllers that would fail on their own. One failure does not change whether any other controller fails. |
| Scaling.BatchReachesEveryHealthyController | pkg/plugin/plugin.go:122-128 | Outside a dry run, every controller is attempted: each listed scalable controller with a scale and accepted writes ends at zero, and each such standalone pod is deleted, whatever else failed. |
| Scaling.DryRunBatch | pkg/plugin/plugin.go:119-132 | A dry-run batch changes nothing, sends nothing and reports no failure. |
| Plugin.ReadLine | pkg/plugin/plugin.go:160-164 | The text up to and including the first newline; absent exactly when the input has no newline. |
| Plugin.ConfirmationWord | pkg/plugin/plugin.go:166-167 | After lower-casing and trimming Unicode white space, the response is `yes` exactly when the line is `yes` in any case, surrounded only by white space. |
| Plugin.ConfirmAction | pkg/plugin/plugin.go:153-168 | Skipping the prompt confirms. Otherwise input without a newline is an error, and the answer is true exactly when the first line is a padded `yes`. |
| Plugin.SkipIgnoresInput | pkg/plugin/plugin.go:154-156 | When the prompt is skipped, the input is never consulted. |
| Plugin.OnlyFirstLineRead | pkg/plugin/plugin.go:160-161 | Only the first line of the input decides the answer. |
| Plugin.ConfigOf | pkg/plugin/plugin.go:57-134 | How a run reads its pointer options. A nil namespace or storage class is the empty filter, as the nil checks of the filter do. A nil or empty claim name means "discover". The prompt is skipped only when the confirmation flag is set and true; a dry run needs the flag set and true. |
| Plugin.ClaimStageAsWritten | pkg/plugin/plugin.go:57-81 | The claim stage as written, on the raw options. It panics exactly when `PVCName` is nil, or when an explicit claim is given with a nil `Namespace`. Whenever it does not panic, its outcome equals the corrected claim stage on the options as `ConfigOf` reads them. |
| Plugin.MainEntryDereferencesNil | cmd/plugin/main.go:48-53 | The options the command builds leave `PVCName` nil, so the claim stage as written panics on every cluster, before any listing. |
| Plugin.MainEntryDiscovers | pkg/plugin/plugin.go:66-76 | Read with the nil check, the command's options search for claims with the filter made of the namespace and storage class. |
| Plugin.ClaimsFor | pkg/plugin/plugin.go:66-81 | An explicit claim name yields exactly that claim in the given namespace, without discovery. |
| Plugin.ScaleAll | pkg/plugin/plugin.go:119-128 | A loop over the controllers, continuing after each failure. The new server state, the sent requests and the error count equal the batch specification. |
| Plugin.ClaimStage | pkg/plugin/plugin.go:66-81 | The claim stage's outcome, in terms of the claim map the options call for. A failed search is the run's error. "No claims" ends the run exactly when the map is empty. The run otherwise continues with exactly that map. |
| Plugin.FindClaims | pkg/plugin/plugin.go:66-81 | A failed claim search becomes the run's error and an empty claim map ends the run with "no claims"; otherwise the result is exactly the claim map of the specification. |
| Plugin.FindTargetsFor | pkg/plugin/plugin.go:83-102 | A failed pod listing is reported with a namespace of the claim map that cannot be listed. Otherwise the pods are exactly the listed non-terminal pods mounting a claim of their namespace, one per `namespace/name` key, and none ends the run. The controller stage fails exactly when some pod cannot be resolved, with the error of the first such pod. On success the result is the non-empty deduplicated controllers of those pods. |
| Plugin.FindTargets | pkg/plugin/plugin.go:57-102 | The three stages in order: a claim-stage error or no claims ends the run as above; otherwise the pod and controller stages' promises hold for the claims found. |
| Plugin.TargetsOutcome | pkg/plugin/plugin.go:83-102 | Provided that a `namespace/name` key identifies one listed pod, stated in cluster terms. The outcome is "no pods" exactly when every listing succeeds and no listed non-terminal pod (any phase but Succeeded or Failed) mounts a claim of its namespace. It is success exactly when every listing succeeds, some such pod exists, and every such pod resolves to its controller. |
| Plugin.DiscoveryOutcome | pkg/plugin/plugin.go:66-102 | For the whole discovery: "no claims" exactly when the claim search finds none. Provided that a `namespace/name` key identifies one listed pod, the no-pods and success cases hold as above once claims are found. |
| Plugin.ConfirmAndScale | pkg/plugin/plugin.go:109-146 | After the controllers are printed: input failure and cancellation exactly as the confirmation decides, with nothing written. After yes, the server state and requests equal the batch specification, and the run reports that batch's failure count when it is positive, else completion; it waits only when not a dry run. A dry run writes nothing. It returns an error exactly when the answer cannot be read, or when the answer is yes and the batch counts a failure; an exit without error writes nothing unless it completes the batch. |
| Plugin.Run | pkg/plugin/plugin.go:54-149 | The discovery promises above hold for the options as read by `ConfigOf`. The no-controller exit never happens. The controllers are printed exactly when the prompt is reached, and the prompt and scaling promises above then hold. A run that stops before the prompt writes nothing. An exit that returns nil writes nothing unless it completes the batch. An error exit writes nothing unless it is the batch's. Once the controllers are printed, the run returns an error exactly when the answer cannot be read, or when the answer is yes and the batch counts a failure. |

## Findings

| source | as written | input that shows it | evidently intended | confidence | as-written member | corrected member |
|---|---|---|---|---|---|---|
| pkg/plugin/plugin.go:67 | `run` dereferences `cfg.PVCName` without a nil check, and cmd/plugin/main.go:48-53 never sets `PVCName` (no flag binds it). | Any invocation of the command, e.g. `--storage-class standard`: `PVCName` is nil when `run` reaches the claim stage. | A nil claim name means "no explicit claim", the same as the empty name the test at pkg/plugin/plugin_test.go:189 sets, so the claims are discovered by their filter. | not executed | Plugin.ClaimStageAsWritten, Plugin.MainEntryDereferencesNil | Plugin.ConfigOf, Plugin.MainEntryDiscovers |

## Left out

- `RunPlugin` (`pkg/plugin/plugin.go:32-52`) is left out. Reading the kubeconfig and building the clientset is I/O; the model starts from a snapshot and a scale table.
- The flag check in `cmd/plugin/main.go:37-39` and the rest of the CLI wiring (`cmd/plugin/cli/root.go`) are left out; they are argument parsing outside the core. Only the options the command of `cmd/plugin/main.go` builds are modelled, as `MainFlags`.
- The logger and the printing to stdout are not modelled. `Run` returns the printed controllers rather than rendering them; the `String` form of a controller reference is not modelled.
- Plugin.Run: the wait for the pods to disappear (`pkg/plugin/plugin.go:134-144`) polls a live cluster with a spinner. The model records only whether the wait happens (`Completed(waited)`), because time and re-listing are outside it.
- Plugin.Run: when a pod mounting a claim is owned by a DaemonSet or by an unknown kind, `ScaleDown` skips it with success (`pkg/scaling/scaler.go:44-49`). The pod keeps running, so the wait at `pkg/plugin/plugin.go:134-144` never ends and the program never returns, while the model reports `Completed(true)`.
- Plugin.ConfigOf: a nil `DryRun` is read as false, whereas `run` dereferences it (`pkg/plugin/plugin.go:120` and `134`) and would panic; `cmd/plugin/cli/root.go:39-42` leaves it nil, while `cmd/plugin/main.go:51` sets it. A nil `Namespace` is read as "", whereas `pkg/plugin/plugin.go:79` dereferences it; the kubeconfig flags always set it.
- The snapshot does not reflect the scaler's writes, and pods that a controller will remove are not tracked. Eventual consistency is left out.
- Plugin.ConfirmAction: `strings.ToLower` is modelled on ASCII letters only, since Unicode case mapping beyond ASCII is not modelled. The only read error modelled is end of input before a newline.
- Plugin.ClaimsFor: an unset `--namespace` is the empty string. With an explicit claim, the Kubernetes API treats that namespace as all namespaces, and the snapshot's listing under "" stands for that without being tied to the other listings.
- A deduplication key collides when a kind, namespace or name contains '/'. Kubernetes names cannot, so the injectivity lemmas assume well-formed names.
- The kind constants are the Kubernetes kind names. Their declarations are not among the modelled lines of `pkg/common/types.go`.
- `pkg/discovery/finder.go` (the Finder constructor), `pkg/logger` and `pkg/spinner` are not part of this model.
- Nothing is concurrent, and the context argument, cancellation and timeouts are left out.
