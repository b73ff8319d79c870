/** The mutating webhook (internal/webhook/pod_webhook.go) and its agreement with the controller. */
module Webhook {
  import opened Filtering
  import opened ImageRefs
  import opened Objects
  import opened PodGates

  const LABEL_GATED := "scans.aquasec.community/gated"

  datatype WebhookConfig = WebhookConfig(filter: NamespaceFilter, excludedImages: seq<string>)

  datatype Reason = NotInScope | BypassAnnotation | GatePresent | AllImagesExcluded

  datatype Response = Allowed(reason: Reason) | Patched | Errored(code: int)

  /** The images the webhook looks at: it does not consult ephemeral containers. */
  function ConsultedImages(spec: PodSpec): seq<string> {
    spec.initContainers + spec.containers
  }

  predicate ImagesExcluded(cfg: WebhookConfig, pod: Pod) {
    cfg.excludedImages != [] && forall image :: image in ConsultedImages(pod.spec) ==> image in cfg.excludedImages
  }

  /** The annotation that bypasses scanning is there and says "true". */
  ghost predicate AsksForBypass(annotations: map<string, string>) {
    && "scans.aquasec.community/bypass-scan" in annotations
    && annotations["scans.aquasec.community/bypass-scan"] == "true"
  }

  /** An exclusion list is configured, and all init and regular containers run images on it. */
  ghost predicate RunsExcludedOnly(excluded: seq<string>, spec: PodSpec) {
    && excluded != []
    && (forall image :: image in spec.initContainers ==> image in excluded)
    && (forall image :: image in spec.containers ==> image in excluded)
  }

  /** Which answer admission gives, before any encoding failure. */
  function Decide(cfg: WebhookConfig, namespace: string, pod: Pod): Response {
    if cfg.filter.Excludes(namespace) then Allowed(NotInScope)
    else if pod.Bypassed() then Allowed(BypassAnnotation)
    else if pod.Gated() then Allowed(GatePresent)
    else if ImagesExcluded(cfg, pod) then Allowed(AllImagesExcluded)
    else Patched
  }

  /** The pod that is stored once the answer is applied. */
  function Admitted(cfg: WebhookConfig, namespace: string, pod: Pod): Pod {
    if Decide(cfg, namespace, pod).Patched?
    then pod.(gates := pod.gates + [SCHEDULING_GATE], labels := pod.labels[LABEL_GATED := "true"])
    else pod
  }

  /** allImagesExcluded. */
  method CheckAllImagesExcluded(cfg: WebhookConfig, spec: PodSpec) returns (all: bool)
    ensures all <==> RunsExcludedOnly(cfg.excludedImages, spec)
  {
    if |cfg.excludedImages| == 0 {
      return false;
    }
    var excludedSet: set<string> := {};
    for i := 0 to |cfg.excludedImages|
      invariant forall image :: image in excludedSet <==> image in cfg.excludedImages[..i]
    {
      excludedSet := excludedSet + {cfg.excludedImages[i]};
    }
    assert cfg.excludedImages[..|cfg.excludedImages|] == cfg.excludedImages;
    for i := 0 to |spec.initContainers|
      invariant forall j :: 0 <= j < i ==> spec.initContainers[j] in cfg.excludedImages
    {
      if spec.initContainers[i] !in excludedSet {
        return false;
      }
    }
    for i := 0 to |spec.containers|
      invariant forall j :: 0 <= j < i ==> spec.containers[j] in cfg.excludedImages
    {
      if spec.containers[i] !in excludedSet {
        return false;
      }
    }
    return true;
  }

  /** Why a pod is let through as it is, in the order of the tests; None when it must be gated. */
  ghost predicate LetThrough(cfg: WebhookConfig, namespace: string, pod: Pod, reason: Reason) {
    match reason
    case NotInScope => !InScope(cfg.filter, namespace)
    case BypassAnnotation => InScope(cfg.filter, namespace) && AsksForBypass(pod.annotations)
    case GatePresent =>
      InScope(cfg.filter, namespace) && !AsksForBypass(pod.annotations)
        && "scans.aquasec.community/aqua-scan" in pod.gates
    case AllImagesExcluded =>
      InScope(cfg.filter, namespace) && !AsksForBypass(pod.annotations)
        && "scans.aquasec.community/aqua-scan" !in pod.gates && RunsExcludedOnly(cfg.excludedImages, pod.spec)
  }

  /** In scope, not asking for a bypass, without the gate, and with an init or regular image that is not excluded. */
  ghost predicate MustBeGated(cfg: WebhookConfig, namespace: string, pod: Pod) {
    && InScope(cfg.filter, namespace) && !AsksForBypass(pod.annotations)
    && "scans.aquasec.community/aqua-scan" !in pod.gates && !RunsExcludedOnly(cfg.excludedImages, pod.spec)
  }

  lemma DecidedAsMeant(cfg: WebhookConfig, namespace: string, pod: Pod)
    ensures var d := Decide(cfg, namespace, pod);
            if MustBeGated(cfg, namespace, pod) then d == Patched
            else d.Allowed? && LetThrough(cfg, namespace, pod, d.reason)
  {
    hide InScope, NamespaceFilter.Excludes;
    ScopeIsWhatIsNotExcluded(cfg.filter, namespace);
    ExcludedAsMeant(cfg, pod);
  }

  lemma ExcludedAsMeant(cfg: WebhookConfig, pod: Pod)
    ensures ImagesExcluded(cfg, pod) <==> RunsExcludedOnly(cfg.excludedImages, pod.spec)
  {
    forall image ensures image in ConsultedImages(pod.spec) <==>
        image in pod.spec.initContainers || image in pod.spec.containers {
    }
  }

  /**
   * Handle: the decoded pod is changed in place, and the answer says whether a patch is sent. A pod that
   * must be gated gets the gate behind its own, and the label; any other is let through as it is.
   */
  method Handle(cfg: WebhookConfig, namespace: string, pod: PodObject, decodes: bool,
                encodes: bool) returns (r: Response)
    modifies pod
    ensures !decodes ==> r == Errored(400) && pod.Value() == old(pod.Value())
    ensures decodes && MustBeGated(cfg, namespace, old(pod.Value())) ==>
              && r == (if encodes then Patched else Errored(500))
              && pod.gates == old(pod.gates) + ["scans.aquasec.community/aqua-scan"]
              && pod.labels == old(pod.labels)["scans.aquasec.community/gated" := "true"]
              && pod.annotations == old(pod.annotations) && pod.spec == old(pod.spec)
    ensures decodes && !MustBeGated(cfg, namespace, old(pod.Value())) ==>
              && r.Allowed? && LetThrough(cfg, namespace, old(pod.Value()), r.reason)
              && pod.Value() == old(pod.Value())
    ensures decodes ==> pod.Value() == Admitted(cfg, namespace, old(pod.Value()))
  {
    hide InScope, NamespaceFilter.Excludes, RunsExcludedOnly, ImagesExcluded;
    ScopeIsWhatIsNotExcluded(cfg.filter, namespace);
    ExcludedAsMeant(cfg, pod.Value());
    if !decodes {
      return Errored(400);
    }
    if cfg.filter.Excludes(namespace) {
      return Allowed(NotInScope);
    }
    if ANNOTATION_BYPASS in pod.annotations && pod.annotations[ANNOTATION_BYPASS] == "true" {
      return Allowed(BypassAnnotation);
    }
    for i := 0 to |pod.gates|
      invariant SCHEDULING_GATE !in pod.gates[..i]
    {
      if pod.gates[i] == SCHEDULING_GATE {
        return Allowed(GatePresent);
      }
    }
    assert pod.gates[..|pod.gates|] == pod.gates;
    var excluded := CheckAllImagesExcluded(cfg, pod.spec);
    if excluded {
      return Allowed(AllImagesExcluded);
    }
    pod.gates := pod.gates + [SCHEDULING_GATE];
    pod.labels := pod.labels[LABEL_GATED := "true"];
    if !encodes {
      return Errored(500);
    }
    return Patched;
  }

  /** Admitting twice is admitting once: the second call changes nothing and sends no patch. */
  lemma AdmissionIsIdempotent(cfg: WebhookConfig, namespace: string, pod: Pod)
    ensures var once := Admitted(cfg, namespace, pod);
            Admitted(cfg, namespace, once) == once && Decide(cfg, namespace, once).Allowed?
  {
    var once := Admitted(cfg, namespace, pod);
    if Decide(cfg, namespace, pod).Patched? {
      assert once.gates[|pod.gates|] == SCHEDULING_GATE;
    }
  }

  /** The gate is added exactly once, and only to a pod that must be gated. */
  lemma GateAddedOnce(cfg: WebhookConfig, namespace: string, pod: Pod)
    ensures var before := multiset(pod.gates)[SCHEDULING_GATE];
            var after := multiset(Admitted(cfg, namespace, pod).gates)[SCHEDULING_GATE];
            after == before + if MustBeGated(cfg, namespace, pod) then 1 else 0
  {
    hide MustBeGated, LetThrough, Decide;
    DecidedAsMeant(cfg, namespace, pod);
  }

  /** Removing the gate the webhook added restores the pod's own gates, in order; nothing else but the label differs. */
  lemma RemovalRestoresGates(cfg: WebhookConfig, namespace: string, pod: Pod)
    requires Decide(cfg, namespace, pod).Patched?
    ensures Ungated(Admitted(cfg, namespace, pod)) == pod.(labels := pod.labels[LABEL_GATED := "true"])
  {
    WithoutAbsentGate(pod.gates, SCHEDULING_GATE);
    FilterOne(pod.gates, SCHEDULING_GATE, g => g != SCHEDULING_GATE);
  }

  /**
   * A pod gated by the webhook is in the scope of a controller that shares the namespace filter, and is
   * bypass-free.
   */
  lemma GatedPodIsInScope(cfg: WebhookConfig, controller: Config, key: Key, pod: Pod)
    requires cfg.filter == controller.filter
    requires "scans.aquasec.community/aqua-scan" !in pod.gates
    ensures var stored := Admitted(cfg, key.namespace, pod);
            stored.Gated() ==>
              && InScope(controller.filter, key.namespace) && !AsksForBypass(stored.annotations)
              && !controller.filter.Excludes(key.namespace) && !stored.Bypassed()
              && stored.spec == pod.spec
  {
    hide InScope, NamespaceFilter.Excludes;
    ScopeIsWhatIsNotExcluded(cfg.filter, key.namespace);
  }
}
