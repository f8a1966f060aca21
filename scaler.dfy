/**
 * Scaler: scales a controller to zero replicas, deletes a standalone pod,
 * or skips, by controller kind; a dry run skips everything. The API server
 * is an in-memory scale table and a set of live pods.
 */
module Scaling {
  import opened Wrappers
  import opened Common
  import opened Cluster

  /** The server state the scaler can change: replicas per scalable controller, and the live pods. */
  datatype ScaleState = ScaleState(replicas: map<ControllerRef, int>, live: set<ObjectId>)

  /** A mutating request sent to the server. */
  datatype Request = ScaleUpdate(target: ControllerRef, replicas: int) | PodDelete(pod: ObjectId)

  datatype ScaleError =
    | GetScaleFailed(ctrl: ControllerRef)
    | UpdateScaleFailed(ctrl: ControllerRef)
    | DeletePodFailed(ctrl: ControllerRef)

  /** What `ScaleDown` does with a controller. */
  datatype Action = DryRunSkip | ScaleToZero | Delete | Unscalable | Unsupported

  /** Kinds with a scale subresource. */
  predicate Scalable(kind: string)
  {
    kind == KindDeployment || kind == KindStatefulSet || kind == KindReplicaSet
  }

  /**
   * The dry-run check comes first; then Deployment, StatefulSet and
   * ReplicaSet scale to zero, Pod is deleted, DaemonSet and every other
   * kind are skipped.
   */
  function Dispatch(dryRun: bool, kind: string): (a: Action)
    ensures a == DryRunSkip <==> dryRun
    ensures a == ScaleToZero <==> !dryRun && Scalable(kind)
    ensures a == Delete <==> !dryRun && kind == KindPod
    ensures a == Unscalable <==> !dryRun && kind == KindDaemonSet
    ensures a == Unsupported <==> !dryRun && !Scalable(kind) && kind !in {KindPod, KindDaemonSet}
  {
    if dryRun then DryRunSkip
    else if kind == KindDeployment then ScaleToZero
    else if kind == KindStatefulSet then ScaleToZero
    else if kind == KindReplicaSet then ScaleToZero
    else if kind == KindPod then Delete
    else if kind == KindDaemonSet then Unscalable
    else Unsupported
  }

  function PodOf(ctrl: ControllerRef): ObjectId
  {
    ObjectId(ctrl.namespace, ctrl.name)
  }

  /** The outcome of one call: its error, the new server state and the requests it sent. */
  datatype Effect = Effect(err: Option<ScaleError>, next: ScaleState, sent: seq<Request>)

  /**
   * Get the scale (absent: error, nothing sent); at zero already, done;
   * otherwise send an update to zero, which the server applies unless it
   * refuses writes to this controller.
   */
  function ScaleToZeroEffect(st: ScaleState, refused: set<ControllerRef>, ctrl: ControllerRef): Effect
  {
    if ctrl !in st.replicas then Effect(Some(GetScaleFailed(ctrl)), st, [])
    else if st.replicas[ctrl] == 0 then Effect(None, st, [])
    else if ctrl in refused then Effect(Some(UpdateScaleFailed(ctrl)), st, [ScaleUpdate(ctrl, 0)])
    else Effect(None, st.(replicas := st.replicas[ctrl := 0]), [ScaleUpdate(ctrl, 0)])
  }

  /** Send a delete; it succeeds when the pod is live and writes to it are not refused. */
  function DeletePodEffect(st: ScaleState, refused: set<ControllerRef>, ctrl: ControllerRef): Effect
  {
    var pod := PodOf(ctrl);
    if pod in st.live && ctrl !in refused then Effect(None, st.(live := st.live - {pod}), [PodDelete(pod)])
    else Effect(Some(DeletePodFailed(ctrl)), st, [PodDelete(pod)])
  }

  function ScaleDownEffect(st: ScaleState, refused: set<ControllerRef>, dryRun: bool, ctrl: ControllerRef): Effect
  {
    match Dispatch(dryRun, ctrl.kind)
    case ScaleToZero => ScaleToZeroEffect(st, refused, ctrl)
    case Delete => DeletePodEffect(st, refused, ctrl)
    case _ => Effect(None, st, [])
  }

  // ---------------------------------------------------------------------
  // The API server and the scaler

  /** The server's scale table and pods; `refused` are the controllers whose writes it rejects. */
  class ScaleApi {
    var replicas: map<ControllerRef, int>
    var live: set<ObjectId>
    const refused: set<ControllerRef>
    ghost var requests: seq<Request>

    function State(): ScaleState
      reads this
    {
      ScaleState(replicas, live)
    }

    constructor (replicas: map<ControllerRef, int>, live: set<ObjectId>, refused: set<ControllerRef>)
      ensures State() == ScaleState(replicas, live) && this.refused == refused && requests == []
    {
      this.replicas := replicas;
      this.live := live;
      this.refused := refused;
      requests := [];
    }

    /** GetScale: the current replica count, or an error when the controller has no scale. */
    method GetScale(ctrl: ControllerRef) returns (r: Option<int>)
      ensures r.Some? <==> ctrl in replicas
      ensures r.Some? ==> r.value == replicas[ctrl]
    {
      if ctrl in replicas {
        return Some(replicas[ctrl]);
      }
      return None;
    }

    /** UpdateScale: applied unless the controller is gone or its writes are refused. */
    method UpdateScale(ctrl: ControllerRef, n: int) returns (ok: bool)
      modifies this
      ensures requests == old(requests) + [ScaleUpdate(ctrl, n)]
      ensures ok <==> ctrl in old(replicas) && ctrl !in refused
      ensures replicas == (if ok then old(replicas)[ctrl := n] else old(replicas))
      ensures live == old(live)
    {
      requests := requests + [ScaleUpdate(ctrl, n)];
      ok := ctrl in replicas && ctrl !in refused;
      if ok {
        replicas := replicas[ctrl := n];
      }
    }

    /** Pods(ns).Delete(name): fails when the pod is not live or writes to it are refused. */
    method Delete(pod: ObjectId) returns (ok: bool)
      modifies this
      ensures requests == old(requests) + [PodDelete(pod)]
      ensures ok <==> pod in old(live) && ControllerRef(KindPod, pod.namespace, pod.name) !in refused
      ensures live == (if ok then old(live) - {pod} else old(live))
      ensures replicas == old(replicas)
    {
      requests := requests + [PodDelete(pod)];
      ok := pod in live && ControllerRef(KindPod, pod.namespace, pod.name) !in refused;
      if ok {
        live := live - {pod};
      }
    }
  }

  method ScaleControllerToZero(api: ScaleApi, ctrl: ControllerRef) returns (err: Option<ScaleError>)
    modifies api
    ensures var e := ScaleToZeroEffect(old(api.State()), api.refused, ctrl);
      err == e.err && api.State() == e.next && api.requests == old(api.requests) + e.sent
  {
    var scale := api.GetScale(ctrl);
    if scale.None? {
      return Some(GetScaleFailed(ctrl));
    }
    var originalReplicas := scale.value;
    if originalReplicas == 0 {
      // already scaled to 0
      return None;
    }
    var ok := api.UpdateScale(ctrl, 0);
    if !ok {
      return Some(UpdateScaleFailed(ctrl));
    }
    return None;
  }

  method DeleteStandalonePod(api: ScaleApi, ctrl: ControllerRef) returns (err: Option<ScaleError>)
    requires ctrl.kind == KindPod
    modifies api
    ensures var e := DeletePodEffect(old(api.State()), api.refused, ctrl);
      err == e.err && api.State() == e.next && api.requests == old(api.requests) + e.sent
  {
    var ok := api.Delete(PodOf(ctrl));
    if !ok {
      return Some(DeletePodFailed(ctrl));
    }
    return None;
  }

  class Scaler {
    const api: ScaleApi
    const dryRun: bool

    constructor (api: ScaleApi, dryRun: bool)
      ensures this.api == api && this.dryRun == dryRun
    {
      this.api := api;
      this.dryRun := dryRun;
    }

    method ScaleDown(ctrl: ControllerRef) returns (err: Option<ScaleError>)
      modifies api
      ensures var e := ScaleDownEffect(old(api.State()), api.refused, dryRun, ctrl);
        err == e.err && api.State() == e.next && api.requests == old(api.requests) + e.sent
    {
      match Dispatch(dryRun, ctrl.kind)
      case DryRunSkip =>
        err := None;
      case ScaleToZero =>
        err := ScaleControllerToZero(api, ctrl);
      case Delete =>
        err := DeleteStandalonePod(api, ctrl);
      case Unscalable =>
        // warned: DaemonSets cannot be scaled
        err := None;
      case Unsupported =>
        // warned: unsupported controller type
        err := None;
    }
  }

  // ---------------------------------------------------------------------
  // Properties of one call

  /** A dry run succeeds for every kind and sends nothing. */
  lemma DryRunChangesNothing(st: ScaleState, refused: set<ControllerRef>, ctrl: ControllerRef)
    ensures ScaleDownEffect(st, refused, true, ctrl) == Effect(None, st, [])
  {
  }

  /** DaemonSets and unknown kinds succeed and send nothing. */
  lemma SkippedKindsChangeNothing(st: ScaleState, refused: set<ControllerRef>, dryRun: bool, ctrl: ControllerRef)
    requires !Scalable(ctrl.kind) && ctrl.kind != KindPod
    ensures ScaleDownEffect(st, refused, dryRun, ctrl) == Effect(None, st, [])
  {
  }

  /**
   * Scaling to zero: a missing scale is an error with nothing sent; a zero
   * count is success with nothing sent; otherwise exactly one update to zero
   * is sent, and either the controller is at zero or the call reports the
   * refusal. No other entry changes and no pod is touched.
   */
  lemma ScaleToZeroOutcome(st: ScaleState, refused: set<ControllerRef>, ctrl: ControllerRef)
    ensures var e := ScaleDownEffect(st, refused, false, ctrl);
      Scalable(ctrl.kind) ==>
        && (ctrl !in st.replicas ==> e == Effect(Some(GetScaleFailed(ctrl)), st, []))
        && (ctrl in st.replicas && st.replicas[ctrl] == 0 ==> e == Effect(None, st, []))
        && (ctrl in st.replicas && st.replicas[ctrl] != 0 ==>
              && e.sent == [ScaleUpdate(ctrl, 0)]
              && e.next.live == st.live
              && (e.err.None? <==> ctrl !in refused)
              && (e.err.Some? ==> e.err.value == UpdateScaleFailed(ctrl) && e.next == st)
              && (e.err.None? ==> e.next.replicas == st.replicas[ctrl := 0]))
  {
  }

  /** Deleting a standalone pod removes exactly that pod, or reports the failure and changes nothing. */
  lemma DeletePodOutcome(st: ScaleState, refused: set<ControllerRef>, ctrl: ControllerRef)
    requires ctrl.kind == KindPod
    ensures var e := ScaleDownEffect(st, refused, false, ctrl);
      && e.sent == [PodDelete(PodOf(ctrl))]
      && e.next.replicas == st.replicas
      && (e.err.None? <==> PodOf(ctrl) in st.live && ctrl !in refused)
      && e.next.live == (if e.err.None? then st.live - {PodOf(ctrl)} else st.live)
  {
  }

  /** What a call can observe of the server about `c`. */
  datatype View = View(scale: Option<int>, podLive: bool)

  function ViewOf(st: ScaleState, c: ControllerRef): View
  {
    View(if c in st.replicas then Some(st.replicas[c]) else None, c.kind == KindPod && PodOf(c) in st.live)
  }

  /** A call leaves every other controller's view as it was. */
  lemma ScaleDownFrame(st: ScaleState, refused: set<ControllerRef>, dryRun: bool, ctrl: ControllerRef, other: ControllerRef)
    requires other != ctrl
    ensures ViewOf(ScaleDownEffect(st, refused, dryRun, ctrl).next, other) == ViewOf(st, other)
  {
  }

  /** A call never adds scale entries or pods. */
  lemma ScaleDownShrinks(st: ScaleState, refused: set<ControllerRef>, dryRun: bool, ctrl: ControllerRef)
    ensures ScaleDownEffect(st, refused, dryRun, ctrl).next.replicas.Keys == st.replicas.Keys
    ensures ScaleDownEffect(st, refused, dryRun, ctrl).next.live <= st.live
  {
  }

  /** A call's outcome depends on the server only through the controller's own view. */
  lemma OutcomeDependsOnView(st: ScaleState, st': ScaleState, refused: set<ControllerRef>, dryRun: bool, ctrl: ControllerRef)
    requires ViewOf(st, ctrl) == ViewOf(st', ctrl)
    ensures ScaleDownEffect(st, refused, dryRun, ctrl).err == ScaleDownEffect(st', refused, dryRun, ctrl).err
  {
  }

  /**
   * Idempotence: once a scalable controller has been scaled down
   * successfully, a second call succeeds without sending anything, so two
   * calls write at most once.
   */
  lemma ScaleDownIdempotent(st: ScaleState, refused: set<ControllerRef>, dryRun: bool, ctrl: ControllerRef)
    requires Scalable(ctrl.kind)
    requires ScaleDownEffect(st, refused, dryRun, ctrl).err.None?
    ensures var e1 := ScaleDownEffect(st, refused, dryRun, ctrl);
            var e2 := ScaleDownEffect(e1.next, refused, dryRun, ctrl);
      e2 == Effect(None, e1.next, []) && |e1.sent + e2.sent| <= 1
  {
  }

  // ---------------------------------------------------------------------
  // The batch: every controller attempted in order, failures counted

  datatype BatchResult = BatchResult(next: ScaleState, failures: nat, sent: seq<Request>)

  /**
   * `ScaleDown` on each controller in turn, each on the state the previous
   * one left, counting the calls that failed. The batch never adds table
   * entries or pods, and counts at most one failure per controller.
   */
  function Batch(st: ScaleState, refused: set<ControllerRef>, dryRun: bool, ctrls: seq<ControllerRef>): (b: BatchResult)
    ensures b.next.replicas.Keys == st.replicas.Keys && b.next.live <= st.live
    ensures b.failures <= |ctrls|
  {
    if ctrls == [] then BatchResult(st, 0, [])
    else
      var b := Batch(st, refused, dryRun, ctrls[..|ctrls| - 1]);
      var last := ctrls[|ctrls| - 1];
      ScaleDownShrinks(b.next, refused, dryRun, last);
      var e := ScaleDownEffect(b.next, refused, dryRun, last);
      BatchResult(e.next, b.failures + (if e.err.Some? then 1 else 0), b.sent + e.sent)
  }

  lemma BatchStep(st: ScaleState, refused: set<ControllerRef>, dryRun: bool, ctrls: seq<ControllerRef>, i: nat)
    requires i < |ctrls|
    ensures var b := Batch(st, refused, dryRun, ctrls[..i]);
            var e := ScaleDownEffect(b.next, refused, dryRun, ctrls[i]);
      Batch(st, refused, dryRun, ctrls[..i + 1])
      == BatchResult(e.next, b.failures + (if e.err.Some? then 1 else 0), b.sent + e.sent)
  {
    assert ctrls[..i + 1][..i] == ctrls[..i];
  }

  /** Would `c` fail if it were scaled down on its own, against `st`? */
  predicate FailsAlone(st: ScaleState, refused: set<ControllerRef>, dryRun: bool, c: ControllerRef)
  {
    ScaleDownEffect(st, refused, dryRun, c).err.Some?
  }

  function CountFailing(st: ScaleState, refused: set<ControllerRef>, dryRun: bool, ctrls: seq<ControllerRef>): nat
  {
    if ctrls == [] then 0
    else CountFailing(st, refused, dryRun, ctrls[..|ctrls| - 1])
         + (if FailsAlone(st, refused, dryRun, ctrls[|ctrls| - 1]) then 1 else 0)
  }

  predicate Distinct(ctrls: seq<ControllerRef>)
  {
    forall i, j :: 0 <= i < j < |ctrls| ==> ctrls[i] != ctrls[j]
  }

  /** Controllers the batch has not reached look as they did before it. */
  lemma {:induction false} BatchFrame(st: ScaleState, refused: set<ControllerRef>, dryRun: bool,
                                      ctrls: seq<ControllerRef>, c: ControllerRef)
    requires c !in ctrls
    ensures ViewOf(Batch(st, refused, dryRun, ctrls).next, c) == ViewOf(st, c)
  {
    if ctrls != [] {
      var init := ctrls[..|ctrls| - 1];
      assert c !in init by {
        assert forall x :: x in init ==> x in ctrls;
      }
      BatchFrame(st, refused, dryRun, init, c);
      ScaleDownFrame(Batch(st, refused, dryRun, init).next, refused, dryRun, ctrls[|ctrls| - 1], c);
    }
  }

  /**
   * Failure accounting: over distinct controllers the batch counts exactly
   * the controllers that would fail on their own; one failure does not
   * change whether any other controller fails.
   */
  lemma {:induction false} BatchFailures(st: ScaleState, refused: set<ControllerRef>, dryRun: bool,
                                         ctrls: seq<ControllerRef>)
    requires Distinct(ctrls)
    ensures Batch(st, refused, dryRun, ctrls).failures == CountFailing(st, refused, dryRun, ctrls)
  {
    if ctrls != [] {
      var init := ctrls[..|ctrls| - 1];
      var last := ctrls[|ctrls| - 1];
      assert last !in init;
      BatchFailures(st, refused, dryRun, init);
      BatchFrame(st, refused, dryRun, init, last);
      OutcomeDependsOnView(Batch(st, refused, dryRun, init).next, st, refused, dryRun, last);
    }
  }

  /**
   * Every controller is attempted: each scalable one whose scale exists and
   * whose writes are accepted ends at zero, and each such standalone pod is
   * gone, whatever failed before or after it.
   */
  lemma {:induction false} BatchReachesEveryHealthyController(st: ScaleState, refused: set<ControllerRef>,
                                                               ctrls: seq<ControllerRef>, c: ControllerRef)
    requires c in ctrls && c !in refused
    ensures var next := Batch(st, refused, false, ctrls).next;
      && (Scalable(c.kind) && c in st.replicas ==> next.replicas[c] == 0)
      && (c.kind == KindPod && PodOf(c) in st.live ==> PodOf(c) !in next.live)
  {
    var init := ctrls[..|ctrls| - 1];
    var last := ctrls[|ctrls| - 1];
    var b := Batch(st, refused, false, init);
    assert ctrls == init + [last];
    if c in init {
      BatchReachesEveryHealthyController(st, refused, init, c);
      if c != last {
        ScaleDownFrame(b.next, refused, false, last, c);
      }
    } else {
      assert c == last;
      BatchFrame(st, refused, false, init, c);
    }
  }

  /** A dry-run batch leaves the server untouched and reports no failure. */
  lemma {:induction false} DryRunBatch(st: ScaleState, refused: set<ControllerRef>, ctrls: seq<ControllerRef>)
    ensures Batch(st, refused, true, ctrls) == BatchResult(st, 0, [])
  {
    if ctrls != [] {
      DryRunBatch(st, refused, ctrls[..|ctrls| - 1]);
    }
  }
}
