/**
 * Scheduling gates and the watch mapper (internal/controller/pod_gate_controller.go):
 * removal of the gate, and the pods a finished scan wakes.
 */
module PodGates {
  import opened Wrappers
  import opened Filtering
  import opened ImageRefs
  import opened Objects

  /** A pod as the Go code holds it: a record whose fields are reassigned. */
  class PodObject {
    var annotations: map<string, string>
    var labels: map<string, string>
    var gates: seq<string>
    var spec: PodSpec

    constructor (pod: Pod)
      ensures Value() == pod
    {
      annotations, labels, gates, spec := pod.annotations, pod.labels, pod.gates, pod.spec;
    }

    function Value(): Pod
      reads this
    {
      Pod(annotations, labels, gates, spec)
    }
  }

  /** The gates other than `name`, in order. */
  function WithoutGate(gates: seq<string>, name: string): seq<string> {
    Filter(gates, g => g != name)
  }

  /** The pod with our gate removed. */
  function Ungated(pod: Pod): Pod {
    pod.(gates := WithoutGate(pod.gates, SCHEDULING_GATE))
  }

  /** Every occurrence of the name goes, and nothing else does. */
  lemma {:induction false} WithoutGateCounts(gates: seq<string>, name: string)
    ensures multiset(WithoutGate(gates, name)) == multiset(gates)[name := 0]
  {
    if gates == [] {
    } else {
      var n := |gates| - 1;
      WithoutGateCounts(gates[..n], name);
      assert gates == gates[..n] + [gates[n]];
    }
  }

  /** Removing a name that is not there changes nothing. */
  lemma {:induction false} WithoutAbsentGate(gates: seq<string>, name: string)
    requires name !in gates
    ensures WithoutGate(gates, name) == gates
  {
    if gates == [] {
    } else {
      var n := |gates| - 1;
      WithoutAbsentGate(gates[..n], name);
      assert gates == gates[..n] + [gates[n]];
    }
  }

  /** removeSchedulingGate. */
  method RemoveSchedulingGate(pod: PodObject, name: string)
    modifies pod`gates
    ensures pod.gates == WithoutGate(old(pod.gates), name)
  {
    var filtered: seq<string> := [];
    var gates := pod.gates;
    for i := 0 to |gates|
      invariant pod.gates == gates && filtered == WithoutGate(gates[..i], name)
    {
      assert gates[..i + 1] == gates[..i] + [gates[i]];
      FilterOne(gates[..i], gates[i], g => g != name);
      if gates[i] != name {
        filtered := filtered + [gates[i]];
      }
    }
    assert gates[..|gates|] == gates;
    pod.gates := filtered;
  }

  // ----- the watch mapper -----

  /** The hash a scan is matched by: its label, or the hash of its spec image for unlabelled objects. */
  function MatchHash(cfg: Config, scan: Scan): string {
    if scan.imageHash == "" then ImageHash(cfg.hash, scan.spec.image) else scan.imageHash
  }

  /** Some image of the pod has this hash. */
  predicate UsesHash(cfg: Config, pod: Pod, hash: string) {
    exists image :: image in pod.spec.AllImages() && image != "" && ImageHash(cfg.hash, image) == hash
  }

  /** A listed pod that a terminal scan stored in `scanNamespace` concerns. */
  predicate Concerns(cfg: Config, scanNamespace: string, scan: Scan, key: Key, pod: Pod) {
    && !cfg.filter.Excludes(key.namespace)
    && cfg.ScanNamespace(key.namespace) == scanNamespace
    && UsesHash(cfg, pod, MatchHash(cfg, scan))
  }

  function Keys(pods: seq<(Key, Pod)>): (keys: seq<Key>)
    ensures |keys| == |pods|
    ensures forall i :: 0 <= i < |pods| ==> keys[i] == pods[i].0
  {
    seq(|pods|, i requires 0 <= i < |pods| => pods[i].0)
  }

  function ConcernTest(cfg: Config, scanNamespace: string, scan: Scan): ((Key, Pod)) -> bool {
    (entry: (Key, Pod)) => Concerns(cfg, scanNamespace, scan, entry.0, entry.1)
  }

  /** The listed pods that the scan concerns, in list order. */
  function Concerned(cfg: Config, scanNamespace: string, scan: Scan, pods: seq<(Key, Pod)>): seq<(Key, Pod)> {
    Filter(pods, ConcernTest(cfg, scanNamespace, scan))
  }

  lemma ConcernedOne(cfg: Config, ns: string, scan: Scan, pods: seq<(Key, Pod)>, i: nat)
    requires i < |pods|
    ensures Keys(Concerned(cfg, ns, scan, pods[..i + 1])) ==
            Keys(Concerned(cfg, ns, scan, pods[..i]))
              + if Concerns(cfg, ns, scan, pods[i].0, pods[i].1) then [pods[i].0] else []
  {
    assert pods[..i + 1] == pods[..i] + [pods[i]];
    FilterOne(pods[..i], pods[i], ConcernTest(cfg, ns, scan));
  }

  /** UsesHash, decided over the extracted images as the source does. */
  lemma UsesHashByExtraction(cfg: Config, pod: Pod, hash: string, images: seq<ImageRef>)
    requires images == pod.Images()
    ensures UsesHash(cfg, pod, hash) <==> exists i :: 0 <= i < |images| && ImageHash(cfg.hash, images[i].image) == hash
  {
    ExtractedImages(pod.spec.AllImages());
    if UsesHash(cfg, pod, hash) {
      var image :| image in pod.spec.AllImages() && image != "" && ImageHash(cfg.hash, image) == hash;
      var ref := FromImage(image);
      assert ref in images && ref.image == image;
    }
    if i :| 0 <= i < |images| && ImageHash(cfg.hash, images[i].image) == hash {
      assert images[i] in images;
    }
  }

  /** UsesHash, said of the container lists. */
  lemma UsesHashExactly(cfg: Config, pod: Pod, hash: string)
    ensures UsesHash(cfg, pod, hash) <==>
              exists image :: Runs(pod.spec, image) && image != "" && cfg.hash(image)[..16] == hash
  {
    if UsesHash(cfg, pod, hash) {
      var image :| image in pod.spec.AllImages() && image != "" && ImageHash(cfg.hash, image) == hash;
      assert Runs(pod.spec, image);
    }
    if image :| Runs(pod.spec, image) && image != "" && cfg.hash(image)[..16] == hash {
      assert image in pod.spec.AllImages() && ImageHash(cfg.hash, image) == hash;
    }
  }

  /** The inner loop of the mapper: stop at the first image with the scan's hash. */
  method FindImage(cfg: Config, pod: Pod, hash: string) returns (found: bool)
    ensures found <==> UsesHash(cfg, pod, hash)
  {
    hide UsesHash, ImageHash, ExtractFromPodSpec, CoversContainers, InContainerOrder;
    var images, at := Extract(pod.spec);
    UsesHashByExtraction(cfg, pod, hash, images);
    for j := 0 to |images|
      invariant forall i :: 0 <= i < j ==> ImageHash(cfg.hash, images[i].image) != hash
    {
      if ImageHash(cfg.hash, images[j].image) == hash {
        return true;
      }
    }
    return false;
  }

  /** The keys of the listed pods that a terminal scan concerns. */
  function MapperRequests(cfg: Config, scanNamespace: string, scan: Scan, list: Option<seq<(Key, Pod)>>): seq<Key> {
    if scan.status.phase.Terminal() && list.Some? then Keys(Concerned(cfg, scanNamespace, scan, list.value)) else []
  }

  /** mapImageScanToPods; `list` is what the List call returned, None when it failed. */
  method MapImageScanToPods(cfg: Config, scanNamespace: string, scan: Scan, list: Option<seq<(Key, Pod)>>)
    returns (requests: seq<Key>)
    ensures requests == MapperRequests(cfg, scanNamespace, scan, list)
  {
    if scan.status.phase != Registered && scan.status.phase != Error {
      return [];
    }
    var imageScanHash := scan.imageHash;
    if imageScanHash == "" {
      imageScanHash := ImageHash(cfg.hash, scan.spec.image);
    }
    if list.None? {
      return [];
    }
    var pods := list.value;
    requests := [];
    for i := 0 to |pods|
      invariant requests == Keys(Concerned(cfg, scanNamespace, scan, pods[..i]))
    {
      ConcernedOne(cfg, scanNamespace, scan, pods, i);
      var (key, pod) := pods[i];
      if cfg.filter.Excludes(key.namespace) {
        continue;
      }
      if cfg.ScanNamespace(key.namespace) != scanNamespace {
        continue;
      }
      var found := FindImage(cfg, pod, imageScanHash);
      if found {
        requests := requests + [key];
      }
    }
    assert pods[..|pods|] == pods;
  }

  /**
   * Which listed pods a scan must wake, said of the fields: a pod in scope whose scans live where this
   * one does, and with a container whose image has the hash on the scan's label, or the hash of the
   * scan's own image when it has no label.
   */
  ghost predicate MustWake(cfg: Config, scanNamespace: string, scan: Scan, key: Key, pod: Pod) {
    && InScope(cfg.filter, key.namespace)
    && scanNamespace == (if cfg.scanNamespace == "" then key.namespace else cfg.scanNamespace)
    && exists image :: Runs(pod.spec, image) && image != ""
                       && cfg.hash(image)[..16] == if scan.imageHash == "" then cfg.hash(scan.spec.image)[..16]
                                                   else scan.imageHash
  }

  lemma ConcernedMustWake(cfg: Config, scanNamespace: string, scan: Scan, key: Key, pod: Pod)
    ensures Concerns(cfg, scanNamespace, scan, key, pod) <==> MustWake(cfg, scanNamespace, scan, key, pod)
  {
    hide NamespaceFilter.Excludes, InScope, UsesHash, Runs;
    ScopeIsWhatIsNotExcluded(cfg.filter, key.namespace);
    UsesHashExactly(cfg, pod, MatchHash(cfg, scan));
  }

  lemma ConcernedMembers(cfg: Config, ns: string, scan: Scan, pods: seq<(Key, Pod)>, key: Key)
    ensures key in Keys(Concerned(cfg, ns, scan, pods)) <==>
              exists pod :: (key, pod) in pods && Concerns(cfg, ns, scan, key, pod)
  {
    hide Concerns;
    var p := ConcernTest(cfg, ns, scan);
    var kept := Filter(pods, p);
    var at := FilterKeepsExactly(pods, p);
    if key in Keys(kept) {
      var k :| 0 <= k < |kept| && kept[k].0 == key;
      assert pods[at[k]] == (key, kept[k].1) && p(kept[k]);
    }
    if pod :| (key, pod) in pods && Concerns(cfg, ns, scan, key, pod) {
      var i :| 0 <= i < |pods| && pods[i] == (key, pod);
      assert p(pods[i]);
      var k :| 0 <= k < |at| && at[k] == i;
      assert Keys(kept)[k] == key;
    }
  }

  /**
   * What the mapper returns, pod by pod: a key is requested exactly when some listed pod with that key
   * must be woken, in list order; and when the list repeats no key, nor do the requests.
   */
  lemma MappedExactly(cfg: Config, ns: string, scan: Scan, pods: seq<(Key, Pod)>,
                      requests: seq<Key>) returns (at: seq<int>)
    requires requests == MapperRequests(cfg, ns, scan, Some(pods))
    requires scan.status.phase.Registered? || scan.status.phase.Error?
    ensures forall key :: key in requests <==> exists pod :: (key, pod) in pods && MustWake(cfg, ns, scan, key, pod)
    ensures |at| == |requests| && forall k :: 0 <= k < |at| ==> 0 <= at[k] < |pods| && requests[k] == pods[at[k]].0
    ensures forall j, k :: 0 <= j < k < |at| ==> at[j] < at[k]
    ensures (forall i, j :: 0 <= i < j < |pods| ==> pods[i].0 != pods[j].0) ==>
              forall j, k :: 0 <= j < k < |requests| ==> requests[j] != requests[k]
  {
    hide Concerns, MustWake, Concerned;
    at := ConcernedAt(cfg, ns, scan, pods);
    forall key ensures key in requests <==> exists pod :: (key, pod) in pods && MustWake(cfg, ns, scan, key, pod) {
      ConcernedMembers(cfg, ns, scan, pods, key);
      forall pod ensures Concerns(cfg, ns, scan, key, pod) <==> MustWake(cfg, ns, scan, key, pod) {
        ConcernedMustWake(cfg, ns, scan, key, pod);
      }
    }
  }

  lemma ConcernedAt(cfg: Config, ns: string, scan: Scan, pods: seq<(Key, Pod)>) returns (at: seq<int>)
    ensures var keys := Keys(Concerned(cfg, ns, scan, pods));
            |at| == |keys| && forall k :: 0 <= k < |at| ==> 0 <= at[k] < |pods| && keys[k] == pods[at[k]].0
    ensures forall j, k :: 0 <= j < k < |at| ==> at[j] < at[k]
  {
    hide Concerns;
    at := FilterKeepsExactly(pods, ConcernTest(cfg, ns, scan));
  }

  /** Scans that are neither Registered nor in Error wake nobody, and nor does a List that fails. */
  lemma NobodyIsMapped(cfg: Config, ns: string, scan: Scan, list: Option<seq<(Key, Pod)>>)
    requires list.None? || (!scan.status.phase.Registered? && !scan.status.phase.Error?)
    ensures MapperRequests(cfg, ns, scan, list) == []
  {
  }
}
