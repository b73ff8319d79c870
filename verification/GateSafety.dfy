/**
 * Safety of the gate and of the scan phases, over every execution of the protocol:
 * any interleaving, any staleness, any failure, any number of restarts.
 */
module GateSafety {
  import opened Wrappers
  import opened ImageRefs
  import opened Mirrors
  import opened Objects
  import opened PodGates
  import opened ScanPhases
  import opened Protocol
  import opened ScanInvariant
  import opened GateInvariant

  ghost predicate Inv(cfg: Config, s: State) {
    ScanInv(cfg, s) && GateInv(cfg, s)
  }

  // ----- every step keeps the invariant, and no step unwrites a version -----

  /** What holds across one step. */
  ghost predicate Kept(cfg: Config, s: State, t: State) {
    Inv(cfg, t) && Grows(s, t)
  }

  lemma SameRunsKept(cfg: Config, s: State, t: State)
    requires Inv(cfg, s) && ScanInv(cfg, t) && Grows(s, t) && (t.podRuns == s.podRuns || t.podRuns == map[])
    ensures Kept(cfg, s, t)
  {
    hide ScanInv, Grows, GoodPodRun;
    RunsSurviveOthers(cfg, s, t);
  }

  lemma PodStepKeeps(cfg: Config, s: State, k: Key, a: PodAction)
    requires Inv(cfg, s) && PodEnabled(s, k, a)
    ensures Kept(cfg, s, PodApply(cfg, s, k, a))
  {
    hide ScanInv, GateInv, Grows, PodEffect, PodMove, PodEnabled;
    var t := PodEffect(cfg, s, k, a);
    var move := PodMove(cfg, s, k, a);
    EffectGrows(cfg, s, k, a);
    CreateIsNamed(cfg, s, k, a);
    PodStepKeepsScanInv(cfg, s, k, a);
    MoveKeepsScans(cfg, t, k, move);
    RunsSurviveOthers(cfg, s, t);
    GoodMove(cfg, s, t, k, a);
    MoveKeepsGateInv(cfg, t, k, move);
    GrowsThrough(s, t, k, move);
  }

  /** The name a run is about to create was recorded when its checks began. */
  lemma CreateIsNamed(cfg: Config, s: State, k: Key, a: PodAction)
    requires GateInv(cfg, s) && PodEnabled(s, k, a)
    ensures a.DoCreateScan? ==> (cfg.ScanNamespace(k.namespace), s.podRuns[k].images[s.podRuns[k].i]) in s.used
  {
    hide GateInv, ResolvedFrom, Passed, GoodCopy;
    if a.DoCreateScan? {
      RunOfInv(cfg, s, k);
      assert (cfg.ScanNamespace(k.namespace), s.podRuns[k].images[s.podRuns[k].i]) in Names(cfg, k,
             s.podRuns[k].images);
    }
  }

  lemma MoveKeepsScans(cfg: Config, s: State, k: Key, move: Move<PodRun>)
    ensures ScanInv(cfg, MovePod(s, k, move)) <==> ScanInv(cfg, s)
  {
    hide HistoriesGood, RunsGood, SeenGood, DelaysGood;
  }

  lemma GrowsThrough(s: State, t: State, k: Key, move: Move<PodRun>)
    requires Grows(s, t)
    ensures Grows(s, MovePod(t, k, move))
  {
    hide PodsExtend, Extends;
  }

  lemma WriteGrows(s: State, k: Key, run: ScanRun, outcome: Outcome)
    requires run.Writing?
    ensures Grows(s, WriteAndReturn(s, k, run, outcome)) && WriteAndReturn(s, k, run, outcome).podRuns == s.podRuns
  {
    hide StoreScan, Grows, ScanWriteLands, RequestedDelay;
    StoreScanGrows(s, k, run.scan);
    StoreScanKeepsRuns(s, k, run.scan);
    SameGrows(s, s);
    GrowsInStores(s, WriteStatus(s, k, run, outcome), WriteAndReturn(s, k, run, outcome));
  }

  lemma GrowsInStores(s: State, t: State, u: State)
    requires Grows(s, t) && u.pods == t.pods && u.scans == t.scans && t.used <= u.used && t.resolved <= u.resolved
    ensures Grows(s, u)
  {
    hide PodsExtend, Extends;
  }

  lemma ScanStepKeeps(cfg: Config, s: State, k: Key, a: ScanAction)
    requires Inv(cfg, s) && ScanEnabled(s, k, a)
    ensures Kept(cfg, s, ScanApply(s, k, a))
  {
    hide ScanInv, GateInv, Grows, ScanMove, WriteAndReturn;
    ScanStepKeepsScanInv(cfg, s, k, a);
    var t := ScanEffect(s, k, a);
    if a.DoWriteStatus? {
      WriteGrows(s, k, s.scanRuns[k], a.outcome);
    } else {
      SameGrows(s, t);
    }
    GrowsInStores(s, t, ScanApply(s, k, a));
    SameRunsKept(cfg, s, ScanApply(s, k, a));
  }

  lemma OtherCreateGrows(cfg: Config, s: State, ns: string, ref: ImageRef, labelled: bool)
    ensures var t := CreateByOther(cfg, s, ns, ref, labelled); Grows(s, t) && t.podRuns == s.podRuns
  {
    hide StoreScan, Grows, ScanName, NewScan;
    var s' := s.(used := s.used + {(ns, ref)});
    var key := Key(ns, ScanName(cfg.hash, ref));
    var scan := if labelled then NewScan(cfg, ref) else NewScan(cfg, ref).(imageHash := "");
    StoreScanGrows(s', key, scan);
    StoreScanKeepsRuns(s', key, scan);
    GrowsFrom(s, s', StoreScan(s', key, scan));
  }

  lemma GrowsFrom(s: State, s': State, t: State)
    requires s'.pods == s.pods && s'.scans == s.scans && s.used <= s'.used && s.resolved <= s'.resolved && Grows(s', t)
    ensures Grows(s, t)
  {
    hide PodsExtend, Extends;
  }

  lemma EnvStepKeeps(cfg: Config, s: State, a: EnvAction)
    requires Inv(cfg, s) && EnvEnabled(cfg, s, a)
    ensures Kept(cfg, s, EnvApply(cfg, s, a))
  {
    hide ScanInv, GateInv, Grows, StorePod, CreateByOther, WellFormedDigest, ScanName;
    var t := EnvApply(cfg, s, a);
    EnvStepKeepsScanInv(cfg, s, a);
    if a.EditPod? {
      StorePodGrows(s, a.key, a.pod);
      StorePodKeepsRuns(s, a.key, a.pod);
    } else if a.OtherCreate? {
      OtherCreateGrows(cfg, s, a.namespace, a.ref, a.labelled);
    } else {
      SameGrows(s, t);
    }
    SameRunsKept(cfg, s, t);
  }

  lemma QueueStepKeeps(cfg: Config, s: State, a: QueueAction)
    requires Inv(cfg, s)
    ensures Kept(cfg, s, QueueApply(cfg, s, a))
  {
    hide ScanInv, GateInv, Grows, Targets, ShowsGate;
    QueueStepKeepsScanInv(cfg, s, a);
    SameGrows(s, QueueApply(cfg, s, a));
    SameRunsKept(cfg, s, QueueApply(cfg, s, a));
  }

  lemma StepKeeps(cfg: Config, s: State, a: Action)
    requires Inv(cfg, s) && Enabled(cfg, s, a)
    ensures Kept(cfg, s, Apply(cfg, s, a))
  {
    hide Inv, Kept, EnvApply, QueueApply, PodApply, ScanApply;
    match a
    case Env(e) => EnvStepKeeps(cfg, s, e);
    case Queue(q) => QueueStepKeeps(cfg, s, q);
    case PodStep(k, p) => PodStepKeeps(cfg, s, k, p);
    case ScanStep(k, c) => ScanStepKeeps(cfg, s, k, c);
  }

  // ----- executions -----

  lemma GrowsTransitive(s: State, t: State, u: State)
    requires Grows(s, t) && Grows(t, u)
    ensures Grows(s, u)
  {
  }

  lemma {:induction false} ExecutionKeeps(cfg: Config, s: State, actions: seq<Action>, t: State)
    requires Inv(cfg, s) && Executes(cfg, s, actions, t)
    ensures Kept(cfg, s, t)
    decreases |actions|
  {
    hide Inv, Grows, Enabled, Apply;
    if actions == [] {
      SameGrows(s, t);
    } else {
      var s' := Apply(cfg, s, actions[0]);
      StepKeeps(cfg, s, actions[0]);
      ExecutionKeeps(cfg, s', actions[1..], t);
      GrowsTransitive(s, s', t);
    }
  }

  lemma InitialInv(cfg: Config)
    ensures Inv(cfg, INIT)
  {
  }

  lemma ReachableInv(cfg: Config, s: State)
    requires Reachable(cfg, s)
    ensures Inv(cfg, s)
  {
    hide Inv, Grows, Executes;
    InitialInv(cfg);
    var actions :| Executes(cfg, INIT, actions, s);
    ExecutionKeeps(cfg, INIT, actions, s);
  }

  // ----- scan phases -----

  /**
   * Registered and Error are absorbing: from any reachable state on, a scan that has reached
   * either never changes again, whatever copies reconcilers still hold.
   */
  lemma TerminalPhasesAbsorb(cfg: Config, s: State, t: State, key: Key)
    requires Reachable(cfg, s) && Reaches(cfg, s, t)
    requires StoredScan(s, key).Some?
    requires var phase := StoredScan(s, key).value.status.phase; phase.Registered? || phase.Error?
    ensures StoredScan(t, key) == StoredScan(s, key)
  {
    hide ScanInv, GateInv, PodsExtend, Absorbing, GoodScan, Executes;
    ReachableInv(cfg, s);
    var actions :| Executes(cfg, s, actions, t);
    ExecutionKeeps(cfg, s, actions, t);
    HistoryIsGood(cfg, t, key);
    TerminalIsLast(t.scans[key], |s.scans[key]|);
  }

  /**
   * In every version of every scan ever stored, RetryCount is 1 exactly in phase Error and 0
   * otherwise, and LastScanTime equals CompletedTime, both set exactly in phase Registered.
   */
  lemma ReachableStatuses(cfg: Config, s: State, key: Key, n: nat)
    requires Reachable(cfg, s) && ScanAt(s, key, n).Some?
    ensures StatusShape(ScanAt(s, key, n).value.status)
  {
    hide ScanInv, GateInv, StatusShape, SameScan, GoodScan, Reachable;
    ReachableInv(cfg, s);
    HistoryIsGood(cfg, s, key);
  }

  /**
   * Whatever Aqua answered, and however often a reconcile was cut short or run again: the status of a
   * stored scan is accounted for by calls about its own image. Pending means that a trigger after an
   * answer of not found gave that scan ID; Registered that Aqua answered found; Error that a lookup, or a
   * trigger after not found, failed with that message. And the object is still the one that was created:
   * under the name of its own image, for a reference some pod consulted or someone else submitted, with
   * the first 16 digits of the hash of its image string for label, if it has one.
   */
  lemma StatusesAreExplained(cfg: Config, s: State, key: Key, scan: Scan)
    requires Reachable(cfg, s) && StoredScan(s, key) == Some(scan)
    ensures Explained(scan, s.asked) && WellFormedDigest(scan.spec.digest)
    ensures key.name == ScanName(cfg.hash, scan.spec) && (key.namespace, scan.spec) in s.used
    ensures scan.imageHash == "" || scan.imageHash == cfg.hash(scan.spec.image)[..16]
  {
    hide ScanInv, GateInv, Explained, Absorbing, Reachable, ScanName, WellFormedDigest;
    ReachableInv(cfg, s);
    HistoryIsGood(cfg, s, key);
  }

  /** Every delay the ImageScan controller ever asks for after an Aqua error is the first: 60 seconds. */
  lemma OnlyFirstDelay(cfg: Config, s: State, d: int)
    requires Reachable(cfg, s) && d in s.delays
    ensures d == Backoff(1) == 60_000_000_000
  {
    hide HistoriesGood, RunsGood, SeenGood, GateInv, Reachable;
    ReachableInv(cfg, s);
    assert Pow2(1) == 2 * Pow2(0);
  }

  // ----- the gate -----

  /**
   * What the store holds for a reference that lets a pod through: a Registered scan under its
   * name, whose own spec Aqua answered Found for. That spec carries a well-formed digest which
   * agrees with the reference's in its first 56 hex digits (all that a scan name keeps).
   */
  ghost predicate Cleared(cfg: Config, s: State, k: Key, ref: ImageRef) {
    var namespace := if cfg.scanNamespace == "" then k.namespace else cfg.scanNamespace;
    var scan := StoredScan(s, Key(namespace, ScanName(cfg.hash, ref)));
    && scan.Some? && scan.value.status.phase.Registered?
    && Asked(scan.value.spec, Found) in s.asked
    && WellFormedDigest(scan.value.spec.digest)
    && ScanName(cfg.hash, scan.value.spec) == ScanName(cfg.hash, ref)
    && (WellFormedDigest(ref.digest) ==> scan.value.spec.digest[7..63] == ref.digest[7..63])
  }

  lemma RegisteredIsCleared(cfg: Config, s: State, k: Key, ref: ImageRef)
    requires ScanInv(cfg, s) && IsRegistered(s.scans, cfg.ScanKey(k.namespace, ref))
    ensures Cleared(cfg, s, k, ref)
  {
    hide ScanInv, ScanName, WellFormedDigest, Absorbing, ImageHash;
    var key := cfg.ScanKey(k.namespace, ref);
    HistoryIsGood(cfg, s, key);
    var spec := StoredScan(s, key).value.spec;
    if WellFormedDigest(ref.digest) {
      ScanNamesAgree(cfg.hash, spec, ref);
    }
  }

  /** The pod whose gate an Update is about to remove. */
  ghost predicate AboutToUngate(s: State, k: Key, outcome: Outcome, pod: Pod) {
    && PodEnabled(s, k, DoUpdatePod(outcome)) && PodWriteLands(s, k, s.podRuns[k], outcome)
    && StoredPod(s, k) == Some(pod)
  }

  /** An Update that lands was decided on the pod as it is stored: gated, in scope, same images. */
  lemma UpdateActsOnStoredPod(cfg: Config, s: State, k: Key, outcome: Outcome, pod: Pod)
    requires Inv(cfg, s) && AboutToUngate(s, k, outcome, pod)
    ensures s.podRuns[k].pod == pod && pod.Gated() && !cfg.filter.Excludes(k.namespace)
    ensures GoodProgress(cfg, k, s.podRuns[k], s.scans, s.used, s.resolved)
  {
    hide ScanInv, GateInv, GoodProgress;
    RunOfInv(cfg, s, k);
  }

  /** The digest of `ref` is the one its image pins, or else what the registry answered for it to this pod. */
  ghost predicate HasOwnDigest(cfg: Config, resolved: set<Resolution>, k: Key, ref: ImageRef) {
    exists pinned :: Pins(ref.image, pinned) && DigestFrom(cfg, resolved, k, ImageRef(ref.image, pinned), ref)
  }

  lemma SettledHasOwnDigest(cfg: Config, resolved: set<Resolution>, k: Key, image: string, ref: ImageRef)
    requires Settled(cfg, resolved, k, FromImage(image), ref)
    ensures HasOwnDigest(cfg, resolved, k, ref)
  {
    hide Settled, AskedAs, PinnedDigest, Pins;
    SettledByAnswer(cfg, resolved, k, FromImage(image), ref);
    PinnedExactly(image, PinnedDigest(image));
  }

  /** The images of `refs` are the non-empty ones the containers of the pod run. */
  ghost predicate AreImagesOf(refs: seq<ImageRef>, spec: PodSpec) {
    forall image :: Runs(spec, image) && image != "" <==> exists j :: 0 <= j < |refs| && refs[j].image == image
  }

  lemma ResolvedAreImages(cfg: Config, resolved: set<Resolution>, k: Key, refs: seq<ImageRef>, spec: PodSpec)
    requires ResolvedFrom(cfg, resolved, k, refs, ExtractFromPodSpec(spec))
    ensures AreImagesOf(refs, spec)
    ensures forall j :: 0 <= j < |refs| ==> HasOwnDigest(cfg, resolved, k, refs[j])
  {
    hide ExtractFromPodSpec, Pins, PinnedDigest, HasOwnDigest, Runs, Config.Mirrored;
    var images := ExtractFromPodSpec(spec);
    var at := ExtractionCovers(spec);
    forall j | 0 <= j < |refs| ensures Runs(spec, refs[j].image) && refs[j].image != "" {
      assert images[j] in images;
    }
    forall j | 0 <= j < |refs| ensures HasOwnDigest(cfg, resolved, k, refs[j]) {
      assert images[j] in images;
      PinnedExactly(images[j].image, images[j].digest);
      SettledHasOwnDigest(cfg, resolved, k, images[j].image, refs[j]);
    }
    forall image | Runs(spec, image) && image != "" ensures exists j :: 0 <= j < |refs| && refs[j].image == image {
      PinnedExactly(image, PinnedDigest(image));
      assert FromImage(image) in images;
      var j :| 0 <= j < |images| && images[j] == FromImage(image);
      assert refs[j].image == image;
    }
  }

  /**
   * Gate safety. When the scan-checked path's Update takes effect, the references the run has checked
   * are the images of the containers of the pod as it is stored at that moment, of whatever kind. A
   * pinned digest is kept; any other is one the registry answered to this pod when it was asked about
   * that very image behind the first mirror for it. And each is cleared in the store at that same
   * moment, although the scans were read one by one, from a stale cache, and the pod could be edited
   * all along.
   */
  lemma GateSafe(cfg: Config, s: State, k: Key, outcome: Outcome, pod: Pod) returns (refs: seq<ImageRef>)
    requires Reachable(cfg, s) && AboutToUngate(s, k, outcome, pod) && s.podRuns[k].Checking?
    ensures "scans.aquasec.community/aqua-scan" in pod.gates && InScope(cfg.filter, k.namespace)
    ensures refs == s.podRuns[k].images && AreImagesOf(refs, pod.spec)
    ensures forall j :: 0 <= j < |refs| ==> HasOwnDigest(cfg, s.resolved, k, refs[j])
    ensures forall j :: 0 <= j < |refs| ==> Cleared(cfg, s, k, refs[j])
    ensures ResolvedFrom(cfg, s.resolved, k, refs, pod.Images())
  {
    hide ScanInv, GateInv, Cleared, Names, ResolvedFrom, IsRegistered, ScanName, Reachable, HasOwnDigest, AreImagesOf;
    hide ExtractFromPodSpec, NamespaceFilter.Excludes, InScope;
    ReachableInv(cfg, s);
    UpdateActsOnStoredPod(cfg, s, k, outcome, pod);
    ScopeIsWhatIsNotExcluded(cfg.filter, k.namespace);
    var run := s.podRuns[k];
    refs := run.images;
    ResolvedAreImages(cfg, s.resolved, k, refs, pod.spec);
    forall j | 0 <= j < |refs| ensures Cleared(cfg, s, k, refs[j]) {
      assert refs[j] in run.pending || IsRegistered(s.scans, cfg.ScanKey(k.namespace, refs[j]));
      RegisteredIsCleared(cfg, s, k, refs[j]);
    }
  }

  /**
   * Off that path the controller removes a gate only from a stored pod in scope whose bypass annotation
   * is "true", or all of whose containers have empty image strings.
   */
  lemma UncheckedReleaseOnlyWhenAllowed(cfg: Config, s: State, k: Key, outcome: Outcome, pod: Pod)
    requires Reachable(cfg, s) && AboutToUngate(s, k, outcome, pod) && !s.podRuns[k].Checking?
    ensures "scans.aquasec.community/aqua-scan" in pod.gates && InScope(cfg.filter, k.namespace)
    ensures || ("scans.aquasec.community/bypass-scan" in pod.annotations
                && pod.annotations["scans.aquasec.community/bypass-scan"] == "true")
            || forall image :: Runs(pod.spec, image) ==> image == ""
  {
    hide ScanInv, GateInv, Reachable, PodWriteLands, ExtractFromPodSpec, NamespaceFilter.Excludes, InScope, Pins, Runs;
    ReachableInv(cfg, s);
    UpdateActsOnStoredPod(cfg, s, k, outcome, pod);
    ScopeIsWhatIsNotExcluded(cfg.filter, k.namespace);
    if pod.Images() == [] {
      var at := ExtractionCovers(pod.spec);
      forall image | Runs(pod.spec, image) ensures image == "" {
        PinnedExactly(image, PinnedDigest(image));
        assert FromImage(image) !in pod.Images();
      }
    }
  }

  lemma EnvLeavesPods(cfg: Config, s: State, a: EnvAction, k: Key)
    requires EnvEnabled(cfg, s, a) && !a.EditPod?
    ensures PodVersions(EnvApply(cfg, s, a), k) == PodVersions(s, k)
  {
    hide StoreScan, ScanName, NewScan, WellFormedDigest;
    if a.OtherCreate? {
      var scan := NewScan(cfg, a.ref);
      var key := Key(a.namespace, ScanName(cfg.hash, a.ref));
      var s' := s.(used := s.used + {(a.namespace, a.ref)});
      ScanStoringLeavesPods(s', key, if a.labelled then scan else scan.(imageHash := ""));
    }
  }

  lemma QueueLeavesPods(cfg: Config, s: State, a: QueueAction, k: Key)
    ensures PodVersions(QueueApply(cfg, s, a), k) == PodVersions(s, k)
  {
    hide Targets, ShowsGate;
  }

  lemma ScanLeavesPods(cfg: Config, s: State, k0: Key, a: ScanAction, k: Key)
    requires ScanEnabled(s, k0, a)
    ensures PodVersions(ScanApply(s, k0, a), k) == PodVersions(s, k)
  {
    hide StoredScan, ScanVersions, ScanWriteLands, RequestedDelay, ScanMove;
  }

  lemma PodStepWrites(cfg: Config, s: State, k0: Key, a: PodAction, k: Key)
    requires PodEnabled(s, k0, a) && PodVersions(PodApply(cfg, s, k0, a), k) != PodVersions(s, k)
    ensures k0 == k && a.DoUpdatePod? && k in s.podRuns && !s.podRuns[k].PodFetch?
    ensures PodWriteLands(s, k, s.podRuns[k], a.outcome)
    ensures PodVersions(PodApply(cfg, s, k, a), k) == PodVersions(s, k) + [Some(Ungated(s.podRuns[k].pod))]
  {
    hide PodMove, PodEffect, PodWriteLands, Ungated, PodEnabled, MovePod, StorePod, PodVersions;
    EffectWrites(cfg, s, k0, a);
    MovingLeavesPods(PodEffect(cfg, s, k0, a), k0, PodMove(cfg, s, k0, a));
    SamePods(s, PodApply(cfg, s, k0, a), k);
    if a.DoUpdatePod? {
      var pod := Some(Ungated(s.podRuns[k0].pod));
      StoringPods(s, k0, pod, k);
      SamePods(StorePod(s, k0, pod), PodApply(cfg, s, k0, a), k);
    }
  }

  lemma StoringPods(s: State, k0: Key, pod: Option<Pod>, k: Key)
    ensures PodVersions(StorePod(s, k0, pod), k) == if k0 == k then PodVersions(s, k) + [pod] else PodVersions(s, k)
  {
  }

  lemma SamePods(s: State, t: State, k: Key)
    ensures t.pods == s.pods ==> PodVersions(t, k) == PodVersions(s, k)
  {
  }

  lemma MovingLeavesPods(s: State, k: Key, move: Move<PodRun>)
    ensures MovePod(s, k, move).pods == s.pods
  {
  }

  lemma EffectWrites(cfg: Config, s: State, k: Key, a: PodAction)
    requires PodEnabled(s, k, a)
    ensures a.DoUpdatePod? ==> k in s.podRuns && !s.podRuns[k].PodFetch?
    ensures PodEffect(cfg, s, k, a).pods ==
            if a.DoUpdatePod? && PodWriteLands(s, k, s.podRuns[k], a.outcome)
            then StorePod(s, k, Some(Ungated(s.podRuns[k].pod))).pods else s.pods
  {
    hide CreateScan, UpdatePod, StorePod, PodWriteLands, Names, Answers, Ungated;
    if a.DoCreateScan? {
      CreatingLeavesPods(cfg, s, k, s.podRuns[k].images[s.podRuns[k].i], a.outcome);
    } else if a.DoUpdatePod? {
      UpdateStores(s, k, s.podRuns[k], a.outcome);
    }
  }

  lemma UpdateStores(s: State, k: Key, run: PodRun, outcome: Outcome)
    requires !run.PodFetch?
    ensures UpdatePod(s, k, run, outcome) ==
            if PodWriteLands(s, k, run, outcome) then StorePod(s, k, Some(Ungated(run.pod))) else s
  {
  }

  lemma CreatingLeavesPods(cfg: Config, s: State, k: Key, ref: ImageRef, outcome: Outcome)
    ensures CreateScan(cfg, s, k, ref, outcome).pods == s.pods
  {
    hide StoreScan, ScanName, NewScan, WellFormedDigest;
    ScanStoringLeavesPods(s, cfg.ScanKey(k.namespace, ref), NewScan(cfg, ref));
  }

  lemma ScanStoringLeavesPods(s: State, k: Key, scan: Scan)
    ensures StoreScan(s, k, scan).pods == s.pods
  {
  }

  lemma UpdateUngates(cfg: Config, s: State, k: Key, outcome: Outcome)
    requires Inv(cfg, s) && PodEnabled(s, k, DoUpdatePod(outcome)) && PodWriteLands(s, k, s.podRuns[k], outcome)
    ensures StoredPod(s, k) == Some(s.podRuns[k].pod)
  {
    hide ScanInv, GateInv, GoodProgress;
    RunOfInv(cfg, s, k);
  }

  lemma UngatedExactly(pod: Pod)
    ensures Ungated(pod) == pod.(gates := Ungated(pod).gates)
    ensures multiset(Ungated(pod).gates) == multiset(pod.gates)["scans.aquasec.community/aqua-scan" := 0]
  {
    hide WithoutGate;
    WithoutGateCounts(pod.gates, SCHEDULING_GATE);
  }

  lemma LastPod(s: State, k: Key, before: seq<Option<Pod>>, pod: Option<Pod>)
    requires PodVersions(s, k) == before + [pod]
    ensures StoredPod(s, k) == pod
  {
  }

  /**
   * No gate goes in any other way: of all steps but the users' own edits only an Update that takes
   * effect changes a stored pod, and what it leaves is that pod without our gate.
   */
  lemma GateGoesByUpdate(cfg: Config, s: State, a: Action, k: Key)
    requires Reachable(cfg, s) && Enabled(cfg, s, a) && !(a.Env? && a.env.EditPod?)
    requires PodVersions(Apply(cfg, s, a), k) != PodVersions(s, k)
    ensures a.PodStep? && a.key == k && a.pod.DoUpdatePod? && StoredPod(s, k).Some?
    ensures var pod, left := StoredPod(s, k).value, StoredPod(Apply(cfg, s, a), k);
            && AboutToUngate(s, k, a.pod.outcome, pod)
            && left.Some? && left.value == pod.(gates := left.value.gates)
            && multiset(left.value.gates) == multiset(pod.gates)["scans.aquasec.community/aqua-scan" := 0]
  {
    hide Inv, Reachable, EnvApply, QueueApply, PodApply, ScanApply, EnvEnabled, QueueEnabled;
    hide PodVersions, StoredPod, PodEnabled, ScanEnabled, PodWriteLands, Ungated;
    ReachableInv(cfg, s);
    match a {
      case Env(e) => EnvLeavesPods(cfg, s, e, k);
      case Queue(q) => QueueLeavesPods(cfg, s, q, k);
      case ScanStep(k0, c) => ScanLeavesPods(cfg, s, k0, c, k);
      case PodStep(k0, p) =>
        PodStepWrites(cfg, s, k0, p, k);
        UpdateUngates(cfg, s, k, p.outcome);
        UngatedExactly(s.podRuns[k].pod);
        LastPod(Apply(cfg, s, a), k, PodVersions(s, k), Some(Ungated(s.podRuns[k].pod)));
    }
  }

  lemma PinnedIsChecked(cfg: Config, resolved: set<Resolution>, k: Key, refs: seq<ImageRef>, spec: PodSpec,
                        img: ImageRef)
    requires ResolvedFrom(cfg, resolved, k, refs, ExtractFromPodSpec(spec))
    requires Runs(spec, img.image) && Pins(img.image, img.digest) && img.digest != ""
    ensures img in refs
  {
    hide ExtractFromPodSpec, Pins, PinnedDigest, Config.Mirrored;
    var at := ExtractionCovers(spec);
    PinnedExactly(img.image, img.digest);
    NothingPinned(img.image, img.digest);
    var images := ExtractFromPodSpec(spec);
    assert img in images;
    var j :| 0 <= j < |images| && images[j] == img;
    assert refs[j] == img;
  }

  lemma NothingPinned(image: string, digest: string)
    requires Pins(image, digest) && digest != ""
    ensures image != ""
  {
  }

  /**
   * Once the scan of a digest-pinned image is in Error, no pod with a container of that image ever loses
   * its gate on the scan-checked path: in no later state does such an Update take effect.
   */
  lemma PinnedErrorKeepsGate(cfg: Config, s: State, t: State, k: Key, outcome: Outcome, pod: Pod, img: ImageRef)
    requires Reachable(cfg, s) && Reaches(cfg, s, t)
    requires Runs(pod.spec, img.image) && Pins(img.image, img.digest) && img.digest != ""
    requires var scan := StoredScan(s, cfg.ScanKey(k.namespace, img)); scan.Some? && scan.value.status.phase.Error?
    requires StoredPod(t, k) == Some(pod)
    ensures !(AboutToUngate(t, k, outcome, pod) && t.podRuns[k].Checking?)
  {
    hide Reaches, Reachable, StoredScan, ScanName, PodWriteLands, ResolvedFrom, Pins, Runs, ExtractFromPodSpec;
    hide AreImagesOf, HasOwnDigest, WellFormedDigest, InScope;
    var key := cfg.ScanKey(k.namespace, img);
    TerminalPhasesAbsorb(cfg, s, t, key);
    if AboutToUngate(t, k, outcome, pod) && t.podRuns[k].Checking? {
      ReachesOn(cfg, s, t);
      var refs := GateSafe(cfg, t, k, outcome, pod);
      PinnedIsChecked(cfg, t.resolved, k, refs, pod.spec, img);
    }
  }

  lemma ReachesOn(cfg: Config, s: State, t: State)
    requires Reachable(cfg, s) && Reaches(cfg, s, t)
    ensures Reachable(cfg, t)
  {
    hide Reaches;
    ReachesTransitive(cfg, INIT, s, t);
  }
}
