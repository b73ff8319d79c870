/**
 * The wakeup theorem over all executions, and what it says of a system at rest.
 */
module NoLostWakeup {
  import opened Wrappers
  import opened ImageRefs
  import opened Objects
  import opened PodGates
  import opened Protocol
  import opened ScanInvariant
  import opened GateInvariant
  import opened GateSafety
  import opened ScanProgress
  import opened Wakeup
  import opened WakeupSteps

  // ----- the hypotheses hold throughout if they hold at the end -----

  /** A failed List stays on record, and the pod cache never runs ahead of the store. */
  ghost predicate Recorded(s: State, t: State) {
    && (s.listFailed ==> t.listFailed)
    && (PodsSeen(s) ==> forall k :: k in t.podSeen ==> t.podSeen[k] <= |PodVersions(s, k)|)
  }

  lemma SameIsRecorded(s: State, t: State)
    requires t.listFailed == s.listFailed && t.podSeen == s.podSeen
    ensures Recorded(s, t)
  {
  }

  lemma StorePodKeepsListFailed(s: State, k: Key, pod: Option<Pod>)
    ensures StorePod(s, k, pod).listFailed == s.listFailed
  {
  }

  lemma StoreScanKeepsListFailed(s: State, k: Key, scan: Scan)
    ensures StoreScan(s, k, scan).listFailed == s.listFailed
  {
    hide StoredScan, ScanVersions;
  }

  lemma WriteKeepsListFailed(s: State, k: Key, run: ScanRun, outcome: Outcome)
    requires run.Writing?
    ensures WriteAndReturn(s, k, run, outcome).listFailed == s.listFailed
  {
    hide StoreScan, ScanWriteLands, RequestedDelay;
    StoreScanKeepsListFailed(s, k, run.scan);
  }

  lemma OtherCreateKeepsListFailed(cfg: Config, s: State, ns: string, ref: ImageRef, labelled: bool)
    ensures CreateByOther(cfg, s, ns, ref, labelled).listFailed == s.listFailed
  {
    hide StoreScan, ScanName, NewScan;
    StoreScanKeepsListFailed(s.(used := s.used + {(ns, ref)}), Key(ns, ScanName(cfg.hash, ref)),
                             if labelled then NewScan(cfg, ref) else NewScan(cfg, ref).(imageHash := ""));
  }

  lemma EffectKeepsListFailed(cfg: Config, s: State, k: Key, a: PodAction)
    requires PodEnabled(s, k, a)
    ensures PodEffect(cfg, s, k, a).listFailed == s.listFailed
  {
    hide StoreScan, StorePod, PodWriteLands, Names, ScanName, NewScan, WellFormedDigest;
    if a.DoCreateScan? {
      var ref := s.podRuns[k].images[s.podRuns[k].i];
      StoreScanKeepsListFailed(s, cfg.ScanKey(k.namespace, ref), NewScan(cfg, ref));
    } else if a.DoUpdatePod? {
      StorePodKeepsListFailed(s, k, Some(Ungated(s.podRuns[k].pod)));
    }
  }

  lemma PodStepRecorded(cfg: Config, s: State, k: Key, a: PodAction)
    requires PodEnabled(s, k, a)
    ensures Recorded(s, PodApply(cfg, s, k, a))
  {
    hide Recorded, PodEffect, PodMove, PodEnabled;
    var e := PodEffect(cfg, s, k, a);
    EffectKeepsListFailed(cfg, s, k, a);
    PodEffectBounds(cfg, s, k, a);
    SameIsRecorded(s, PodApply(cfg, s, k, a));
  }

  lemma ScanStepRecorded(s: State, k: Key, a: ScanAction)
    requires ScanEnabled(s, k, a)
    ensures Recorded(s, ScanApply(s, k, a))
  {
    hide Recorded, ScanMove, WriteAndReturn;
    if a.DoWriteStatus? {
      WriteKeepsListFailed(s, k, s.scanRuns[k], a.outcome);
      WriteIsScanSide(s, k, s.scanRuns[k], a.outcome);
    }
    SameIsRecorded(s, ScanApply(s, k, a));
  }

  lemma QueueStepRecorded(cfg: Config, s: State, a: QueueAction)
    ensures Recorded(s, QueueApply(cfg, s, a))
  {
    hide Targets, ShowsGate, PodVersions;
  }

  lemma DeliveryRecorded(s: State, k: Key, upTo: nat)
    requires upTo <= |PodVersions(s, k)|
    ensures Recorded(s, DeliverPodEvent(s, k, upTo))
  {
    hide PodVersions;
  }

  lemma RestartRecorded(s: State)
    ensures Recorded(s, RestartProcess(s))
  {
  }

  lemma EnvStepRecorded(cfg: Config, s: State, a: EnvAction)
    requires EnvEnabled(cfg, s, a)
    ensures Recorded(s, EnvApply(cfg, s, a))
  {
    hide Recorded, CreateByOther, StorePod, RestartProcess, ScanName, WellFormedDigest;
    match a {
      case OtherCreate(ns, ref, labelled) =>
        OtherCreateKeepsListFailed(cfg, s, ns, ref, labelled);
        OtherCreateIsScanSide(cfg, s, ns, ref, labelled);
        SameIsRecorded(s, EnvApply(cfg, s, a));
      case EditPod(k, pod) =>
        StorePodKeepsListFailed(s, k, pod);
        StorePodBounds(s, k, pod);
        SameIsRecorded(s, EnvApply(cfg, s, a));
      case DeliverPod(k, upTo) => DeliveryRecorded(s, k, upTo);
      case Restart => RestartRecorded(s);
      case _ => SameIsRecorded(s, EnvApply(cfg, s, a));
    }
  }

  lemma StepRecorded(cfg: Config, s: State, a: Action)
    requires Enabled(cfg, s, a)
    ensures Recorded(s, Apply(cfg, s, a))
  {
    hide Recorded, EnvApply, QueueApply, PodApply, ScanApply, EnvEnabled, QueueEnabled, PodEnabled, ScanEnabled;
    match a
    case Env(e) => EnvStepRecorded(cfg, s, e);
    case Queue(q) => QueueStepRecorded(cfg, s, q);
    case PodStep(k, p) => PodStepRecorded(cfg, s, k, p);
    case ScanStep(k, c) => ScanStepRecorded(s, k, c);
  }

  lemma HypothesesBefore(cfg: Config, s: State, a: Action)
    requires Enabled(cfg, s, a) && Kept(cfg, s, Apply(cfg, s, a)) && Hypotheses(cfg, Apply(cfg, s, a))
    ensures Hypotheses(cfg, s)
  {
    hide Inv, PodsExtend, Extends, LabelsAgree, PodsSeen, Enabled, Apply;
    StepRecorded(cfg, s, a);
    FewerNamesAgree(cfg, s.used, Apply(cfg, s, a).used);
  }

  // ----- every step, every execution -----

  lemma PodsSeenAdvance(s: State, t: State)
    requires PodsSeen(s) && PodsExtend(s.pods, t.pods)
    requires forall k :: k in t.podSeen ==> t.podSeen[k] <= |PodVersions(s, k)|
    ensures PodsSeen(t)
  {
    forall k | k in t.podSeen ensures t.podSeen[k] <= |PodVersions(t, k)| {
      assert |PodVersions(s, k)| <= |PodVersions(t, k)|;
    }
  }

  lemma StepKeepsPodsSeen(cfg: Config, s: State, a: Action)
    requires PodsSeen(s) && Enabled(cfg, s, a) && Kept(cfg, s, Apply(cfg, s, a))
    ensures PodsSeen(Apply(cfg, s, a))
  {
    hide PodsSeen, Inv, PodsExtend, Extends, Enabled, Apply;
    StepRecorded(cfg, s, a);
    PodsSeenAdvance(s, Apply(cfg, s, a));
  }

  lemma StepKeepsWoken(cfg: Config, s: State, a: Action, k: Key)
    requires Inv(cfg, s) && Enabled(cfg, s, a) && Kept(cfg, s, Apply(cfg, s, a)) && Hypotheses(cfg, Apply(cfg, s, a))
    requires PodsSeen(s) && Woken(cfg, s, k)
    ensures Woken(cfg, Apply(cfg, s, a), k)
  {
    hide Inv, Grows, LabelsAgree, PodsSeen, Woken, EnvApply, QueueApply, PodApply, ScanApply;
    hide EnvEnabled, QueueEnabled, PodEnabled, ScanEnabled;
    match a
    case Env(e) => EnvStepKeepsWoken(cfg, s, e, k);
    case Queue(q) => QueueStepKeepsWoken(cfg, s, q, k);
    case ScanStep(k0, c) => ScanStepKeepsWoken(cfg, s, k0, c, k);
    case PodStep(k0, p) =>
      if k == k0 {
        PodStepKeepsOwnWoken(cfg, s, k0, p);
      } else {
        PodStepKeepsOthersWoken(cfg, s, k0, p, k);
      }
  }

  lemma StepKeepsWakeInv(cfg: Config, s: State, a: Action)
    requires Inv(cfg, s) && Enabled(cfg, s, a) && Hypotheses(cfg, Apply(cfg, s, a)) && WakeInv(cfg, s)
    ensures WakeInv(cfg, Apply(cfg, s, a))
  {
    hide Inv, Kept, Hypotheses, PodsSeen, Woken, Enabled, Apply;
    StepKeeps(cfg, s, a);
    StepKeepsPodsSeen(cfg, s, a);
    forall k ensures Woken(cfg, Apply(cfg, s, a), k) {
      StepKeepsWoken(cfg, s, a, k);
    }
  }

  lemma {:induction false} ExecutionKeepsWakeInv(cfg: Config, s: State, actions: seq<Action>, t: State)
    requires Inv(cfg, s) && Executes(cfg, s, actions, t) && WakeInv(cfg, s) && Hypotheses(cfg, t)
    ensures Hypotheses(cfg, s) && WakeInv(cfg, t)
    decreases |actions|
  {
    hide Inv, Grows, WakeInv, Hypotheses, Enabled, Apply;
    if actions == [] {
    } else {
      var s' := Apply(cfg, s, actions[0]);
      StepKeeps(cfg, s, actions[0]);
      ExecutionHypotheses(cfg, s', actions[1..], t);
      HypothesesBefore(cfg, s, actions[0]);
      StepKeepsWakeInv(cfg, s, actions[0]);
      ExecutionKeepsWakeInv(cfg, s', actions[1..], t);
    }
  }

  lemma {:induction false} ExecutionHypotheses(cfg: Config, s: State, actions: seq<Action>, t: State)
    requires Inv(cfg, s) && Executes(cfg, s, actions, t) && Hypotheses(cfg, t)
    ensures Hypotheses(cfg, s)
    decreases |actions|
  {
    hide Inv, Grows, Hypotheses, Enabled, Apply;
    if actions == [] {
    } else {
      StepKeeps(cfg, s, actions[0]);
      ExecutionHypotheses(cfg, Apply(cfg, s, actions[0]), actions[1..], t);
      HypothesesBefore(cfg, s, actions[0]);
    }
  }

  lemma InitialWakeInv(cfg: Config)
    ensures WakeInv(cfg, INIT)
  {
    hide Due, Busy, Waits;
  }

  lemma ReachableWakeInv(cfg: Config, s: State)
    requires Reachable(cfg, s) && Hypotheses(cfg, s)
    ensures WakeInv(cfg, s)
  {
    hide Inv, WakeInv, Hypotheses, Executes;
    InitialInv(cfg);
    InitialWakeInv(cfg);
    var actions :| Executes(cfg, INIT, actions, s);
    ExecutionKeepsWakeInv(cfg, INIT, actions, s);
  }

  // ----- the theorem -----

  /**
   * The reconcile of the pod that last went to wait had read the pod as it is stored and found the
   * scan for `ref` wanting, where `ref` carries the digest the image pins or one the registry answered
   * to this pod for it. That scan is not Registered yet, or is in Error, or its registration is still
   * on the way to the mapper; and its label carries the hash of the pod's own image.
   */
  ghost predicate WaitsOn(cfg: Config, s: State, k: Key, ref: ImageRef) {
    && StoredPod(s, k).Some? && Blocks(cfg, s, k, StoredPod(s, k).value, ref)
    && k in s.waiting && s.waiting[k].version == |PodVersions(s, k)| && ref in s.waiting[k].pending
  }

  /**
   * Some reconcile of the pod is queued, running or timed, or an event to come will queue one, or it
   * waits on a scan.
   */
  ghost predicate Served(cfg: Config, s: State, k: Key) {
    Due(s, k) || k in s.podRuns || exists ref :: WaitsOn(cfg, s, k, ref)
  }

  /**
   * No lost wakeup. Nothing is assumed of the hash but its length: when two images share the
   * 16 characters of a label, pods are woken more often, never less.
   */
  lemma EveryGatedPodIsServed(cfg: Config, s: State, k: Key)
    requires Reachable(cfg, s) && Hypotheses(cfg, s)
    requires InScope(cfg.filter, k.namespace) && StoredPod(s, k).Some?
    requires "scans.aquasec.community/aqua-scan" in StoredPod(s, k).value.gates
    ensures Served(cfg, s, k)
  {
    NeedExactly(cfg, s, k);
    hide InScope, Reachable, Hypotheses, Need, Due, Covered, PodsSeen, Blocks;
    ReachableWakeInv(cfg, s);
    assert Woken(cfg, s, k);
    if Waits(cfg, s, k) {
      var ref :| ref in s.waiting[k].pending && Blocks(cfg, s, k, StoredPod(s, k).value, ref);
      assert WaitsOn(cfg, s, k, ref);
    }
  }

  /** Nothing is queued, timed or running, and every event has been delivered and handled. */
  ghost predicate AtRest(s: State) {
    && s.podNotes == {} && s.scanNotes == {} && s.mapNotes == {} && s.mapped == {}
    && s.podDirty == {} && s.podTimers == {} && s.podRuns == map[]
    && s.scanDirty == {} && s.scanTimers == {} && s.scanRuns == map[]
    && (forall k :: k in s.pods ==> Position(s.podSeen, k) == |s.pods[k]|)
    && (forall k :: k in s.scans ==> Position(s.scanSeen, k) == |s.scans[k]|)
  }

  /**
   * A system at rest holds back a pod in scope only for an image whose scan is in Error: one of those
   * its own last reconcile consulted, for the pod as it is stored, and went to wait for.
   */
  lemma AtRestOnlyErrorsHoldPods(cfg: Config, s: State, k: Key) returns (ref: ImageRef)
    requires Reachable(cfg, s) && Hypotheses(cfg, s) && AtRest(s)
    requires InScope(cfg.filter, k.namespace) && StoredPod(s, k).Some?
    requires "scans.aquasec.community/aqua-scan" in StoredPod(s, k).value.gates
    ensures Runs(StoredPod(s, k).value.spec, ref.image) && ref.image != "" && HasOwnDigest(cfg, s.resolved, k, ref)
    ensures RefOf(cfg, s.resolved, k, StoredPod(s, k).value, ref)
    ensures k in s.waiting && s.waiting[k].version == |PodVersions(s, k)| && ref in s.waiting[k].pending
    ensures var scan := StoredScan(s, cfg.ScanKey(k.namespace, ref)); scan.Some? && scan.value.status.phase.Error?
  {
    hide Reachable, Hypotheses, ScanName, ImageHash, MatchHash, RefOf, InScope, Runs, HasOwnDigest, AtRest, Due;
    hide StoredPod, StoredScan, PodVersions;
    EveryGatedPodIsServed(cfg, s, k);
    RestIsNotDue(s, k);
    ref :| WaitsOn(cfg, s, k, ref);
    var key := cfg.ScanKey(k.namespace, ref);
    RestIsTerminal(cfg, s, key);
    if StoredScan(s, key).value.status.phase.Registered? {
      RestIsNotOpen(s, key);
    }
    RefIsOfPod(cfg, s.resolved, k, StoredPod(s, k).value, ref);
  }

  lemma RestIsTerminal(cfg: Config, s: State, key: Key)
    requires Reachable(cfg, s) && AtRest(s) && StoredScan(s, key).Some?
    ensures var phase := StoredScan(s, key).value.status.phase; phase.Registered? || phase.Error?
  {
    hide Reachable;
    EveryScanProgresses(cfg, s, key);
    RestIsNotAttended(s, key);
  }

  /** At rest a Registered scan keeps nobody waiting. */
  lemma RestIsNotOpen(s: State, key: Key)
    requires AtRest(s) && StoredScan(s, key).Some? && StoredScan(s, key).value.status.phase.Registered?
    ensures !Open(s, key)
  {
  }

  lemma RefIsOfPod(cfg: Config, resolved: set<Resolution>, k: Key, pod: Pod, ref: ImageRef)
    requires RefOf(cfg, resolved, k, pod, ref)
    ensures Runs(pod.spec, ref.image) && ref.image != "" && HasOwnDigest(cfg, resolved, k, ref)
  {
    hide ExtractFromPodSpec, Pins, PinnedDigest, Runs, HasOwnDigest, Config.Mirrored;
    var at := ExtractionCovers(pod.spec);
    var j :| 0 <= j < |pod.Images()| && Settled(cfg, resolved, k, pod.Images()[j], ref);
    var img := pod.Images()[j];
    assert img in pod.Images();
    PinnedExactly(img.image, img.digest);
    SettledHasOwnDigest(cfg, resolved, k, img.image, ref);
  }

  lemma RestIsNotDue(s: State, k: Key)
    requires AtRest(s)
    ensures !Due(s, k) && k !in s.podRuns
  {
    if k !in s.pods {
      assert PodVersions(s, k) == [];
    }
  }

  lemma RestIsNotAttended(s: State, k: Key)
    requires AtRest(s) && k in s.scans
    ensures !Attended(s, k)
  {
  }
}
