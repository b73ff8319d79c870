/**
 * Webhook and controllers together: a pod the webhook gates passes every filter on the way to its
 * reconcile, so that the wakeup theorem covers it.
 */
module Admission {
  import opened Wrappers
  import opened ImageRefs
  import opened Objects
  import opened PodGates
  import opened Protocol
  import opened Webhook
  import opened Wakeup
  import opened NoLostWakeup

  /** The pod was admitted with our gate by a webhook that shares the controller's namespace filter. */
  ghost predicate GatedOnAdmission(hook: WebhookConfig, cfg: Config, k: Key, pod: Pod) {
    hook.filter == cfg.filter && MustBeGated(hook, k.namespace, pod)
  }

  /** Its event passes the watch predicate, so that handling it queues the pod. */
  lemma AdmittedPodIsQueued(hook: WebhookConfig, cfg: Config, s: State, note: Note, pod: Pod)
    requires GatedOnAdmission(hook, cfg, note.key, pod)
    requires PodAt(s, note.key, note.now) == Some(Admitted(hook, note.key.namespace, pod))
    ensures note.key in HandlePodNote(s, note).podDirty
  {
    hide MustBeGated, PodAt, ImagesExcluded, NamespaceFilter.Excludes;
    DecidedAsMeant(hook, note.key.namespace, pod);
    AdmittedIsGated(hook, note.key, pod);
  }

  lemma AdmittedIsGated(hook: WebhookConfig, k: Key, pod: Pod)
    requires Decide(hook, k.namespace, pod).Patched?
    ensures Admitted(hook, k.namespace, pod).Gated()
  {
    hide ImagesExcluded, NamespaceFilter.Excludes;
    assert Admitted(hook, k.namespace, pod).gates[|pod.gates|] == SCHEDULING_GATE;
  }

  /**
   * Its reconcile gets past the namespace, gate and bypass tests: it goes on to the images, or releases
   * a pod that has none.
   */
  lemma AdmittedPodIsReconciled(hook: WebhookConfig, cfg: Config, s: State, k: Key, pod: Pod)
    requires GatedOnAdmission(hook, cfg, k, pod) && CachedPod(s, k) == Some(Admitted(hook, k.namespace, pod))
    ensures var stored := Admitted(hook, k.namespace, pod);
            AfterGetPod(cfg, s, k, false) == Continue(
              if pod.Images() == [] then Releasing(Position(s.podSeen, k), stored)
              else Resolving(Position(s.podSeen, k), stored, pod.Images(), 0))
  {
    hide MustBeGated, CachedPod, ImagesExcluded, NamespaceFilter.Excludes, ExtractFromPodSpec;
    DecidedAsMeant(hook, k.namespace, pod);
    AdmittedIsGated(hook, k, pod);
  }

  /**
   * The mapper's List, which goes through the gate index, includes it: a terminal scan with one of its
   * hashes wakes it.
   */
  lemma AdmittedPodIsMapped(hook: WebhookConfig, cfg: Config, s: State, scanKey: Key, n: nat, k: Key, pod: Pod,
                            image: string)
    requires GatedOnAdmission(hook, cfg, k, pod) && CachedPod(s, k) == Some(Admitted(hook, k.namespace, pod))
    requires ScanAt(s, scanKey, n).Some?
    requires var phase := ScanAt(s, scanKey, n).value.status.phase; phase.Registered? || phase.Error?
    requires scanKey.namespace == cfg.ScanNamespace(k.namespace)
    requires Runs(pod.spec, image) && image != ""
    requires var scan := ScanAt(s, scanKey, n).value;
             cfg.hash(image)[..16] == if scan.imageHash == "" then cfg.hash(scan.spec.image)[..16] else scan.imageHash
    ensures Wakes(cfg, s, scanKey, n, k)
  {
    hide MustBeGated, CachedPod, ScanAt, ImagesExcluded, NamespaceFilter.Excludes, InScope, Concerns, Runs;
    DecidedAsMeant(hook, k.namespace, pod);
    AdmittedIsGated(hook, k, pod);
    ScopeIsWhatIsNotExcluded(cfg.filter, k.namespace);
    ConcernedMustWake(cfg, scanKey.namespace, ScanAt(s, scanKey, n).value, k, Admitted(hook, k.namespace, pod));
  }

  /** So as long as it keeps its gate it is never forgotten. */
  lemma AdmittedPodIsServed(hook: WebhookConfig, cfg: Config, s: State, k: Key, pod: Pod)
    requires Reachable(cfg, s) && Hypotheses(cfg, s)
    requires GatedOnAdmission(hook, cfg, k, pod) && StoredPod(s, k) == Some(Admitted(hook, k.namespace, pod))
    ensures Served(cfg, s, k)
  {
    hide MustBeGated, Reachable, Hypotheses, Served, StoredPod, ImagesExcluded, NamespaceFilter.Excludes;
    DecidedAsMeant(hook, k.namespace, pod);
    AdmittedIsGated(hook, k, pod);
    NeedExactly(cfg, s, k);
    EveryGatedPodIsServed(cfg, s, k);
  }
}
