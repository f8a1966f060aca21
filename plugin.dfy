/**
 * The plugin's pipeline: resolve the claims (the explicit claim or the
 * discovered ones), find the pods that mount them, resolve their
 * controllers, print them, ask for confirmation, scale every controller
 * down and report the failures.
 */
module Plugin {
  import opened Wrappers
  import opened Common
  import opened Cluster
  import opened PvcDiscovery
  import opened PodDiscovery
  import opened ControllerDiscovery
  import opened Scaling

  /** The pointer-valued options of `ConfigFlags`; `None` is a nil pointer. */
  datatype Flags = Flags(namespace: Option<string>, storageClass: Option<string>, pvcName: Option<string>,
                         dryRun: Option<bool>, confirmed: Option<bool>)

  /** The options a run acts on. */
  datatype Config = Config(namespace: string, storageClass: string, pvcName: string, dryRun: bool, confirmed: bool)

  /**
   * The flags as the command of cmd/plugin/main.go builds them: the
   * namespace comes from the kubeconfig flags, the storage class, dry-run
   * and confirmation flags are bound, and no claim-name flag exists, so
   * `PVCName` stays nil.
   */
  function MainFlags(namespace: string, storageClass: string, dryRun: bool, yes: bool): Flags
  {
    Flags(Some(namespace), Some(storageClass), None, Some(dryRun), Some(yes))
  }

  /**
   * The claim stage of `run` as written, on the raw options: the filter
   * takes the namespace and storage class through their nil checks, but
   * `PVCName` is dereferenced unchecked and, for an explicit claim, so is
   * `Namespace`. `None` stands for the nil-pointer panic. Whenever it does
   * not panic it agrees with the corrected stage.
   */
  function ClaimStageAsWritten(snap: Snapshot, f: Flags): (r: Option<Result<Claims, Exit>>)
    ensures r.None? <==> f.pvcName.None? || (f.pvcName != Some("") && f.namespace.None?)
    ensures r.Some? ==> r.value == ClaimStage(snap, ConfigOf(f))
  {
    match f.pvcName
    case None => None
    case Some(name) =>
      if name == "" then
        var filter := PvcFilter(match f.namespace case Some(ns) => ns case None => "",
                                match f.storageClass case Some(sc) => sc case None => "");
        Some(match Discover(snap, filter)
             case Failure(e) => Failure(DiscoveryFailed(e))
             case Success(m) => if |m| == 0 then Failure(NoClaims) else Success(m))
      else
        match f.namespace
        case None => None
        case Some(ns) => Some(Success(map[ns := [name]]))
  }

  /** Every run started by the command of cmd/plugin/main.go panics in the claim stage, whatever the cluster. */
  lemma MainEntryDereferencesNil(snap: Snapshot, namespace: string, storageClass: string, dryRun: bool, yes: bool)
    ensures ClaimStageAsWritten(snap, MainFlags(namespace, storageClass, dryRun, yes)) == None
  {
  }

  /**
   * Reading the flags, with a nil claim name meaning "no explicit claim" (as
   * the empty name does), a nil namespace or storage class meaning "", and a
   * nil dry-run or confirmation flag meaning false. The confirmation reading
   * is the nil check of `run`.
   */
  function ConfigOf(f: Flags): (cfg: Config)
    ensures cfg.pvcName == "" <==> f.pvcName.None? || f.pvcName == Some("")
    ensures f.pvcName.Some? ==> cfg.pvcName == f.pvcName.value
    ensures cfg.namespace == (if f.namespace.Some? then f.namespace.value else "")
    ensures cfg.storageClass == (if f.storageClass.Some? then f.storageClass.value else "")
    ensures cfg.dryRun <==> f.dryRun == Some(true)
    ensures cfg.confirmed <==> f.confirmed == Some(true)
  {
    Config(
      match f.namespace case Some(ns) => ns case None => "",
      match f.storageClass case Some(sc) => sc case None => "",
      match f.pvcName case Some(name) => name case None => "",
      match f.dryRun case Some(d) => d case None => false,
      f.confirmed != None && f.confirmed.value)
  }

  /** Read with the nil check, the flags of cmd/plugin/main.go discover the claims by their filter. */
  lemma MainEntryDiscovers(snap: Snapshot, namespace: string, storageClass: string, dryRun: bool, yes: bool)
    ensures ClaimsFor(snap, ConfigOf(MainFlags(namespace, storageClass, dryRun, yes)))
            == Discover(snap, PvcFilter(namespace, storageClass))
  {
  }

  // ---------------------------------------------------------------------
  // Confirmation

  /** The characters Go's unicode.IsSpace accepts. */
  predicate IsSpace(c: char)
  {
    c in {' ', '\t', '\n', '\U{000B}', '\U{000C}', '\r', '\U{0085}', '\U{00A0}',
          '\U{1680}', '\U{2028}', '\U{2029}', '\U{202F}', '\U{205F}', '\U{3000}'}
    || ('\U{2000}' <= c <= '\U{200A}')
  }

  predicate AllSpace(s: string)
  {
    forall k :: 0 <= k < |s| ==> IsSpace(s[k])
  }

  /** Lower-casing, for ASCII letters. */
  function ToLower(c: char): (d: char)
    ensures 'A' <= c <= 'Z' ==> d as int == c as int + 32
    ensures !('A' <= c <= 'Z') ==> d == c
  {
    if 'A' <= c <= 'Z' then (c as int + 32) as char else c
  }

  function LowerString(s: string): (r: string)
    ensures |r| == |s|
  {
    seq(|s|, k requires 0 <= k < |s| => ToLower(s[k]))
  }

  /** The number of leading white-space characters. */
  function LeadingSpaces(s: string): (n: nat)
    ensures n <= |s| && AllSpace(s[..n])
    ensures n < |s| ==> !IsSpace(s[n])
  {
    if |s| > 0 && IsSpace(s[0]) then
      var n := 1 + LeadingSpaces(s[1..]);
      assert forall k :: 1 <= k < n ==> s[..n][k] == s[1..][..n - 1][k - 1];
      n
    else 0
  }

  /** Where the trailing white space starts. */
  function TrailingStart(s: string): (m: nat)
    ensures m <= |s| && AllSpace(s[m..])
    ensures m > 0 ==> !IsSpace(s[m - 1])
  {
    if |s| > 0 && IsSpace(s[|s| - 1]) then
      var m := TrailingStart(s[..|s| - 1]);
      assert forall k :: m <= k < |s| - 1 ==> s[..|s| - 1][k] == s[k];
      m
    else |s|
  }

  /** strings.TrimSpace: drop leading, then trailing white space. */
  function TrimSpace(s: string): string
  {
    var t := s[LeadingSpaces(s)..];
    t[..TrailingStart(t)]
  }

  /** The response as compared: lower-cased, then trimmed. */
  function Normalize(s: string): string
  {
    TrimSpace(LowerString(s))
  }

  /**
   * bufio's ReadString('\n') on the whole input: the text up to and
   * including the first newline; without a newline the read ends at EOF,
   * which is an error.
   */
  function ReadLine(input: string): (r: Option<string>)
    ensures r.None? <==> '\n' !in input
    ensures r.Some? ==> var line := r.value;
      && 0 < |line| <= |input| && line == input[..|line|]
      && line[|line| - 1] == '\n' && '\n' !in line[..|line| - 1]
  {
    if |input| == 0 then None
    else if input[0] == '\n' then Some([input[0]])
    else
      match ReadLine(input[1..])
      case None => None
      case Some(rest) =>
        var line := [input[0]] + rest;
        assert line[1..] == rest;
        Some(line)
  }

  /** The line says "yes" in any mix of case, with white space (only) around it. */
  ghost predicate IsPaddedYes(line: string)
  {
    exists i :: 0 <= i <= |line| - 3 && IsYesAt(line, i)
  }

  predicate IsYesAt(line: string, i: nat)
    requires i + 3 <= |line|
  {
    AllSpace(line[..i]) && LowerString(line[i..i + 3]) == "yes" && AllSpace(line[i + 3..])
  }

  lemma LowerPreservesSpace(s: string)
    ensures forall k :: 0 <= k < |s| ==> (IsSpace(LowerString(s)[k]) <==> IsSpace(s[k]))
  {
  }

  lemma LowerSlice(s: string, a: nat, b: nat)
    requires a <= b <= |s|
    ensures LowerString(s[a..b]) == LowerString(s)[a..b]
  {
  }

  lemma AllSpaceLower(s: string)
    ensures AllSpace(LowerString(s)) <==> AllSpace(s)
  {
    LowerPreservesSpace(s);
  }

  /** The leading white space of `s` ends at the first non-space character. */
  lemma {:induction false} LeadingSpacesAt(s: string, i: nat)
    requires i <= |s| && AllSpace(s[..i]) && (i < |s| ==> !IsSpace(s[i]))
    ensures LeadingSpaces(s) == i
  {
    if i > 0 {
      assert s[..i][0] == s[0];
      assert s[1..][..i - 1] == s[..i][1..];
      assert AllSpace(s[..i][1..]);
      LeadingSpacesAt(s[1..], i - 1);
    }
  }

  /** The trailing white space of `s` starts after the last non-space character. */
  lemma {:induction false} TrailingStartAt(s: string, m: nat)
    requires m <= |s| && AllSpace(s[m..]) && (m > 0 ==> !IsSpace(s[m - 1]))
    ensures TrailingStart(s) == m
  {
    if m < |s| {
      assert s[m..][|s| - 1 - m] == s[|s| - 1];
      var s' := s[..|s| - 1];
      assert forall k :: 0 <= k < |s'| - m ==> s'[m..][k] == s[m..][k];
      TrailingStartAt(s', m);
    }
  }

  /** Lower-casing commutes with taking the three slices of a padded word. */
  lemma LowerParts(line: string, i: nat)
    requires i + 3 <= |line|
    ensures var low := LowerString(line);
      && (AllSpace(line[..i]) <==> AllSpace(low[..i]))
      && LowerString(line[i..i + 3]) == low[i..i + 3]
      && (AllSpace(line[i + 3..]) <==> AllSpace(low[i + 3..]))
  {
    LowerSlice(line, 0, i);
    assert line[0..i] == line[..i];
    AllSpaceLower(line[..i]);
    LowerSlice(line, i, i + 3);
    LowerSlice(line, i + 3, |line|);
    assert line[i + 3..|line|] == line[i + 3..];
    assert LowerString(line)[i + 3..|line|] == LowerString(line)[i + 3..];
    AllSpaceLower(line[i + 3..]);
  }

  lemma NormalizedYesIsPadded(line: string)
    requires Normalize(line) == "yes"
    ensures IsPaddedYes(line)
  {
    var low := LowerString(line);
    var i := LeadingSpaces(low);
    var t := low[i..];
    assert |t[..TrailingStart(t)]| == 3;
    assert low[i..i + 3] == t[..3];
    assert low[i + 3..] == t[3..];
    LowerParts(line, i);
    assert IsYesAt(line, i);
  }

  lemma PaddedYesNormalizes(line: string)
    requires IsPaddedYes(line)
    ensures Normalize(line) == "yes"
  {
    var low := LowerString(line);
    var i :| 0 <= i <= |line| - 3 && IsYesAt(line, i);
    LowerParts(line, i);
    assert low[i..i + 3] == "yes";
    assert low[i] == 'y' && low[i + 2] == 's';
    LeadingSpacesAt(low, i);
    var t := low[i..];
    assert t[3..] == low[i + 3..];
    TrailingStartAt(t, 3);
    assert t[..3] == low[i..i + 3];
  }

  /** After lower-casing and trimming, the response is "yes" exactly when the line is a padded "yes". */
  lemma ConfirmationWord(line: string)
    ensures Normalize(line) == "yes" <==> IsPaddedYes(line)
  {
    if Normalize(line) == "yes" {
      NormalizedYesIsPadded(line);
    }
    if IsPaddedYes(line) {
      PaddedYesNormalizes(line);
    }
  }

  datatype InputError = ReadFailed

  /**
   * confirmAction: skipping the prompt confirms; otherwise the first line
   * of the input decides, and input that ends before a newline is an error.
   */
  function ConfirmAction(skip: bool, stdin: string): (r: Result<bool, InputError>)
    ensures skip ==> r == Success(true)
    ensures r.Failure? <==> !skip && '\n' !in stdin
    ensures r == Success(true) <==> skip || (ReadLine(stdin).Some? && IsPaddedYes(ReadLine(stdin).value))
  {
    if skip then Success(true)
    else
      match ReadLine(stdin)
      case None => Failure(ReadFailed)
      case Some(response) =>
        ConfirmationWord(response);
        Success(Normalize(response) == "yes")
  }

  /** Skipping the prompt never reads the input. */
  lemma SkipIgnoresInput(stdin: string, stdin': string)
    ensures ConfirmAction(true, stdin) == ConfirmAction(true, stdin')
  {
  }

  /** Only the first line is read: what follows it does not matter. */
  lemma OnlyFirstLineRead(skip: bool, line: string, rest: string, rest': string)
    requires '\n' in line && line[|line| - 1] == '\n' && '\n' !in line[..|line| - 1]
    ensures ConfirmAction(skip, line + rest) == ConfirmAction(skip, line + rest')
  {
    FirstLine(line, rest);
    FirstLine(line, rest');
  }

  lemma FirstLine(line: string, rest: string)
    requires |line| > 0 && line[|line| - 1] == '\n' && '\n' !in line[..|line| - 1]
    ensures ReadLine(line + rest) == Some(line)
  {
    var r := ReadLine(line + rest);
    assert (line + rest)[|line| - 1] == '\n';
    assert r.value == (line + rest)[..|line|] == line;
  }

  // ---------------------------------------------------------------------
  // The pipeline

  /** An explicit claim name skips discovery and targets that claim in the given namespace. */
  function ClaimsFor(snap: Snapshot, cfg: Config): (r: Result<Claims, DiscoveryError>)
    ensures cfg.pvcName != "" ==> r.Success? && r.value.Keys == {cfg.namespace} && r.value[cfg.namespace] == [cfg.pvcName]
  {
    if cfg.pvcName == "" then Discover(snap, PvcFilter(cfg.namespace, cfg.storageClass))
    else Success(map[cfg.namespace := [cfg.pvcName]])
  }

  /** How a run ends. */
  datatype Exit =
    | DiscoveryFailed(err: DiscoveryError)
    | NoClaims
    | NoPods
    | NoControllers
    | InputFailed
    | Cancelled
    | BatchFailed(failures: nat)
    | Completed(waited: bool)
  {
    /** The controllers were listed and the prompt was reached. */
    predicate Prompted()
    {
      InputFailed? || Cancelled? || BatchFailed? || Completed?
    }

    /**
     * `run` returns a non-nil error: a failed listing or fetch, a failed
     * read of the answer, or failures in the batch. Every other exit
     * returns nil.
     */
    predicate IsError()
    {
      DiscoveryFailed? || InputFailed? || BatchFailed?
    }
  }

  /** Discovery reached a non-empty claim map. */
  predicate ClaimsFound(snap: Snapshot, cfg: Config, claims: Claims)
  {
    ClaimsFor(snap, cfg) == Success(claims) && claims != map[]
  }

  /** Scales every controller down in order, counting the failures; a failure does not stop the batch. */
  method ScaleAll(scaler: Scaler, ctrls: seq<ControllerRef>) returns (errors: nat)
    modifies scaler.api
    ensures var b := Batch(old(scaler.api.State()), scaler.api.refused, scaler.dryRun, ctrls);
      && scaler.api.State() == b.next && scaler.api.requests == old(scaler.api.requests) + b.sent
      && errors == b.failures
  {
    var api := scaler.api;
    ghost var refused, dryRun := api.refused, scaler.dryRun;
    ghost var log0 := api.requests;
    ghost var done := Batch(api.State(), refused, dryRun, []);
    errors := 0;
    for i := 0 to |ctrls|
      invariant done == Batch(old(api.State()), refused, dryRun, ctrls[..i])
      invariant api.State() == done.next && errors == done.failures && api.requests == log0 + done.sent
    {
      BatchStep(old(api.State()), refused, dryRun, ctrls, i);
      ghost var e := ScaleDownEffect(done.next, refused, dryRun, ctrls[i]);
      ghost var log := api.requests;
      AppendTwice(log0, done.sent, e.sent);
      var err := scaler.ScaleDown(ctrls[i]);
      assert api.requests == log + e.sent;
      if err.Some? {
        // logged; the other controllers are still attempted
        errors := errors + 1;
      }
      done := BatchResult(e.next, done.failures + (if e.err.Some? then 1 else 0), done.sent + e.sent);
    }
    assert ctrls[..|ctrls|] == ctrls;
  }

  /**
   * What the pod and controller stages promise for a claim map: a failed
   * listing is reported as such; otherwise the pods are those mounting the
   * claims, none ends the run, and the controllers are the deduplicated
   * controllers of those pods, or the error of the first pod that cannot be
   * resolved.
   */
  ghost predicate Targeted(snap: Snapshot, claims: Claims, pods: seq<Pod>, r: Result<seq<ControllerRef>, Exit>)
  {
    // pod stage
    && (ListingFails(snap, claims) ==>
          && r.Failure? && r.error.DiscoveryFailed? && r.error.err.ListPodsFailed?
          && r.error.err.namespace in claims && r.error.err.namespace !in snap.podLists)
    && (!ListingFails(snap, claims) ==> Located(snap, claims, pods) && (pods == [] <==> r == Failure(NoPods)))
    // controller stage: fails exactly when a pod cannot be resolved, with the first such error
    && (!ListingFails(snap, claims) && pods != [] ==>
          ((exists i :: 0 <= i < |pods| && FindController(snap, pods[i]).Failure?) <==> r.Failure?))
    && (!ListingFails(snap, claims) && pods != [] && r.Failure? ==>
          && r.error.DiscoveryFailed?
          && exists i :: 0 <= i < |pods| && FindController(snap, pods[i]) == Failure(r.error.err)
                         && forall j :: 0 <= j < i ==> FindController(snap, pods[j]).Success?)
    && (r.Failure? ==> r.error.DiscoveryFailed? || r.error == NoPods)
    && (r.Success? ==> !ListingFails(snap, claims) && pods != [] && r.value != [] && Deduplicated(snap, pods, r.value))
  }

  /**
   * What discovery promises: a failed claim search is reported, no
   * matching claim ends the run, and otherwise the pod and controller
   * stages run on the claims found.
   */
  ghost predicate Discovered(snap: Snapshot, cfg: Config, claims: Claims, pods: seq<Pod>,
                             r: Result<seq<ControllerRef>, Exit>)
  {
    && (ClaimsFor(snap, cfg).Failure? ==> r == Failure(DiscoveryFailed(ClaimsFor(snap, cfg).error)))
    && (ClaimsFor(snap, cfg) == Success(map[]) ==> r == Failure(NoClaims))
    && (ClaimsFor(snap, cfg).Success? && ClaimsFor(snap, cfg).value != map[] ==>
          ClaimsFound(snap, cfg, claims) && Targeted(snap, claims, pods, r))
  }

  /**
   * The outcome of the claim stage: a failed search is reported, no
   * matching claim ends the run, and otherwise the run goes on with the
   * claim map.
   */
  function ClaimStage(snap: Snapshot, cfg: Config): (r: Result<Claims, Exit>)
    ensures ClaimsFor(snap, cfg).Failure? ==> r == Failure(DiscoveryFailed(ClaimsFor(snap, cfg).error))
    ensures r == Failure(NoClaims) <==> ClaimsFor(snap, cfg) == Success(map[])
    ensures r.Success? <==> ClaimsFor(snap, cfg).Success? && ClaimsFor(snap, cfg).value != map[]
    ensures r.Success? ==> r.value == ClaimsFor(snap, cfg).value
  {
    match ClaimsFor(snap, cfg)
    case Failure(e) => Failure(DiscoveryFailed(e))
    case Success(m) => if m == map[] then Failure(NoClaims) else Success(m)
  }

  /** The claim stage: the explicit claim, or the discovered claims; none found ends the run. */
  method FindClaims(cfg: Config, snap: Snapshot) returns (r: Result<Claims, Exit>)
    ensures r == ClaimStage(snap, cfg)
  {
    if cfg.pvcName == "" {
      var found := FindPVCs(snap, PvcFilter(cfg.namespace, cfg.storageClass));
      if found.Failure? {
        return Failure(DiscoveryFailed(found.error));
      }
      if |found.value| == 0 {
        // no matching claims, nothing to do
        return Failure(NoClaims);
      }
      return Success(found.value);
    }
    return Success(map[cfg.namespace := [cfg.pvcName]]);
  }

  /**
   * The pod and controller stages. Go also stops when no controller was
   * found; with at least one pod that cannot happen (ControllersForPods),
   * so that exit never occurs.
   */
  method FindTargetsFor(snap: Snapshot, claims: Claims)
    returns (r: Result<seq<ControllerRef>, Exit>, ghost pods: seq<Pod>)
    ensures Targeted(snap, claims, pods, r)
    ensures r.Success? ==> r.value != []
    ensures r.Failure? ==> r.error.DiscoveryFailed? || r.error == NoPods
  {
    pods := [];
    var podsFound := FindPodsUsingPVCs(snap, claims);
    if podsFound.Failure? {
      return Failure(DiscoveryFailed(podsFound.error)), pods;
    }
    var podList := podsFound.value;
    pods := podList;
    if |podList| == 0 {
      // no pods, nothing to do
      return Failure(NoPods), pods;
    }

    var controllers := FindControllers(snap, podList);
    if controllers.Failure? {
      return Failure(DiscoveryFailed(controllers.error)), pods;
    }
    ControllersForPods(snap, podList, controllers.value);
    return Success(controllers.value), pods;
  }

  /** The discovery half of a run: claims, then pods, then controllers. */
  method FindTargets(cfg: Config, snap: Snapshot)
    returns (r: Result<seq<ControllerRef>, Exit>, ghost claims: Claims, ghost pods: seq<Pod>)
    ensures Discovered(snap, cfg, claims, pods, r)
    ensures r.Success? ==> r.value != []
    ensures r.Failure? ==> r.error.DiscoveryFailed? || r.error in {NoClaims, NoPods}
  {
    claims, pods := map[], [];
    var found := FindClaims(cfg, snap);
    if found.Failure? {
      return Failure(found.error), claims, pods;
    }
    var targetClaims := found.value;
    claims := targetClaims;
    r, pods := FindTargetsFor(snap, targetClaims);
  }

  /** Some pod that mounts a claim is listed and not terminal. */
  ghost predicate SomeCandidate(snap: Snapshot, claims: Claims)
  {
    exists p :: IsCandidate(snap, claims, p)
  }

  /** Some such pod cannot be resolved to its controller. */
  ghost predicate SomeCandidateUnresolved(snap: Snapshot, claims: Claims)
  {
    exists p :: IsCandidate(snap, claims, p) && FindController(snap, p).Failure?
  }

  /**
   * The outcome of the pod and controller stages in terms of the cluster
   * alone, when a `namespace/name` key identifies one listed pod: "no pods"
   * exactly when every listing succeeds and no listed non-terminal pod (any
   * phase but Succeeded or Failed) mounts a claim, and success exactly when
   * every listing succeeds, some such pod mounts a claim and every such pod
   * resolves.
   */
  lemma TargetsOutcome(snap: Snapshot, claims: Claims, pods: seq<Pod>, r: Result<seq<ControllerRef>, Exit>)
    requires Targeted(snap, claims, pods, r)
    requires UniquePodKeys(snap)
    ensures r == Failure(NoPods) <==> !ListingFails(snap, claims) && !SomeCandidate(snap, claims)
    ensures r.Success? <==>
      !ListingFails(snap, claims) && SomeCandidate(snap, claims) && !SomeCandidateUnresolved(snap, claims)
  {
    if !ListingFails(snap, claims) {
      if SomeCandidate(snap, claims) {
        var p :| IsCandidate(snap, claims, p);
        var ns :| Candidate(snap, claims, ns, p);
        assert pods != [];
      }
      if pods != [] {
        assert IsCandidate(snap, claims, pods[0]);
        if SomeCandidateUnresolved(snap, claims) {
          var p :| IsCandidate(snap, claims, p) && FindController(snap, p).Failure?;
          LocatedExactly(snap, claims, pods, p);
          var i :| 0 <= i < |pods| && pods[i] == p;
        }
        if r.Failure? {
          var i :| 0 <= i < |pods| && FindController(snap, pods[i]).Failure?;
          assert IsCandidate(snap, claims, pods[i]);
        }
      }
    }
  }

  /**
   * The outcome of discovery in terms of the cluster alone, when a
   * `namespace/name` key identifies one listed pod: the run ends with "no
   * claims" exactly when no claim matches, with "no pods" exactly when no
   * listed non-terminal pod (any phase but Succeeded or Failed) mounts one,
   * and reaches the prompt exactly when all listings succeed, some such pod
   * mounts a claim and every such pod resolves.
   */
  lemma DiscoveryOutcome(snap: Snapshot, cfg: Config, claims: Claims, pods: seq<Pod>,
                         r: Result<seq<ControllerRef>, Exit>)
    requires Discovered(snap, cfg, claims, pods, r)
    requires UniquePodKeys(snap)
    ensures r == Failure(NoClaims) <==> ClaimsFor(snap, cfg) == Success(map[])
    ensures r == Failure(NoPods) <==>
      ClaimsFound(snap, cfg, claims) && !ListingFails(snap, claims) && !SomeCandidate(snap, claims)
    ensures r.Success? <==>
      && ClaimsFound(snap, cfg, claims) && !ListingFails(snap, claims)
      && SomeCandidate(snap, claims) && !SomeCandidateUnresolved(snap, claims)
  {
    if ClaimsFound(snap, cfg, claims) {
      TargetsOutcome(snap, claims, pods, r);
    }
  }

  /**
   * The acting half of a run, once `printed` is on screen: ask, then scale
   * every controller down; a real run then waits for the pods to go.
   */
  method ConfirmAndScale(cfg: Config, api: ScaleApi, stdin: string, printed: seq<ControllerRef>)
    returns (exit: Exit)
    modifies api
    ensures exit.Prompted()
    ensures exit == InputFailed <==> ConfirmAction(cfg.confirmed, stdin).Failure?
    ensures exit == Cancelled <==> ConfirmAction(cfg.confirmed, stdin) == Success(false)
    ensures !(exit.BatchFailed? || exit.Completed?) ==> api.State() == old(api.State()) && api.requests == old(api.requests)
    ensures exit.BatchFailed? || exit.Completed? ==>
      var b := Batch(old(api.State()), api.refused, cfg.dryRun, printed);
      && ConfirmAction(cfg.confirmed, stdin) == Success(true)
      && api.State() == b.next && api.requests == old(api.requests) + b.sent
      && exit == (if b.failures > 0 then BatchFailed(b.failures) else Completed(!cfg.dryRun))
    ensures cfg.dryRun ==> api.State() == old(api.State()) && api.requests == old(api.requests)
    // reported result
    ensures !exit.IsError() && !exit.Completed? ==> api.State() == old(api.State()) && api.requests == old(api.requests)
    ensures exit.IsError() && !exit.BatchFailed? ==> api.State() == old(api.State()) && api.requests == old(api.requests)
    ensures exit.IsError() <==>
      || ConfirmAction(cfg.confirmed, stdin).Failure?
      || (&& ConfirmAction(cfg.confirmed, stdin) == Success(true)
          && Batch(old(api.State()), api.refused, cfg.dryRun, printed).failures > 0)
  {
    var confirmed := ConfirmAction(cfg.confirmed, stdin);
    if confirmed.Failure? {
      return InputFailed;
    }
    if !confirmed.value {
      // cancelled by the user
      return Cancelled;
    }

    var scaler := new Scaler(api, cfg.dryRun);
    ghost var st0 := api.State();
    var errors := ScaleAll(scaler, printed);
    if cfg.dryRun {
      DryRunBatch(st0, api.refused, printed);
    }
    if errors > 0 {
      return BatchFailed(errors);
    }
    // a real run waits until no pod uses the claims any more
    return Completed(!cfg.dryRun);
  }

  /**
   * One run of the plugin with the options `flags` (read by ConfigOf)
   * against a cluster whose discovery state is `snap` and whose scale table
   * is `api`, with `stdin` the user's input; returns how it ended and the
   * controllers it printed.
   */
  method Run(flags: Flags, snap: Snapshot, api: ScaleApi, stdin: string)
    returns (exit: Exit, printed: seq<ControllerRef>, ghost claims: Claims, ghost pods: seq<Pod>)
    modifies api
    ensures Discovered(snap, ConfigOf(flags), claims, pods, if printed == [] then Failure(exit) else Success(printed))
    ensures exit != NoControllers
    // prompt
    ensures printed != [] <==> exit.Prompted()
    ensures printed != [] ==>
      && (exit == InputFailed <==> ConfirmAction(ConfigOf(flags).confirmed, stdin).Failure?)
      && (exit == Cancelled <==> ConfirmAction(ConfigOf(flags).confirmed, stdin) == Success(false))
    // scaling
    ensures !(exit.BatchFailed? || exit.Completed?) ==> api.State() == old(api.State()) && api.requests == old(api.requests)
    ensures exit.BatchFailed? || exit.Completed? ==>
      var b := Batch(old(api.State()), api.refused, ConfigOf(flags).dryRun, printed);
      && ConfirmAction(ConfigOf(flags).confirmed, stdin) == Success(true)
      && api.State() == b.next && api.requests == old(api.requests) + b.sent
      && exit == (if b.failures > 0 then BatchFailed(b.failures) else Completed(!ConfigOf(flags).dryRun))
    ensures ConfigOf(flags).dryRun ==> api.State() == old(api.State()) && api.requests == old(api.requests)
    // reported result
    ensures !exit.IsError() && !exit.Completed? ==> api.State() == old(api.State()) && api.requests == old(api.requests)
    ensures exit.IsError() && !exit.BatchFailed? ==> api.State() == old(api.State()) && api.requests == old(api.requests)
    ensures printed != [] ==>
      (exit.IsError() <==>
         || ConfirmAction(ConfigOf(flags).confirmed, stdin).Failure?
         || (&& ConfirmAction(ConfigOf(flags).confirmed, stdin) == Success(true)
             && Batch(old(api.State()), api.refused, ConfigOf(flags).dryRun, printed).failures > 0))
  {
    var cfg := ConfigOf(flags);
    var targets;
    targets, claims, pods := FindTargets(cfg, snap);
    if targets.Failure? {
      return targets.error, [], claims, pods;
    }
    printed := targets.value;
    exit := ConfirmAndScale(cfg, api, stdin, printed);
  }
}
