/** The watch mapper and the protocol's step for it are the same: what the code requests is what the step enqueues. */
module WatchMapper {
  import opened Wrappers
  import opened Objects
  import opened PodGates
  import opened Protocol

  /**
   * Which pod events queue a reconcile: those that show our gate on the new pod, or, when the pod is
   * gone, on the last one.
   */
  lemma QueuedExactly(s: State, note: Note, k: Key)
    ensures var latest, before := PodAt(s, note.key, note.now), PodAt(s, note.key, note.was);
            k in HandlePodNote(s, note).podDirty <==>
              || k in s.podDirty
              || (k == note.key && latest.Some? && "scans.aquasec.community/aqua-scan" in latest.value.gates)
              || (k == note.key && latest.None? && before.Some?
                  && "scans.aquasec.community/aqua-scan" in before.value.gates)
  {
    hide PodAt;
  }

  /** What the List with the gate index returns: the cached pods that carry our gate. */
  ghost predicate ListsGatedPods(s: State, list: seq<(Key, Pod)>) {
    forall k, pod :: (k, pod) in list <==> CachedPod(s, k) == Some(pod) && pod.Gated()
  }

  /** The requests for one of the two objects an event carries; a creation has no old one. */
  function RequestsFor(cfg: Config, s: State, scanKey: Key, n: nat, list: Option<seq<(Key, Pod)>>): seq<Key> {
    if ScanAt(s, scanKey, n).None? then []
    else MapperRequests(cfg, scanKey.namespace, ScanAt(s, scanKey, n).value, list)
  }

  lemma RequestedIsWoken(cfg: Config, s: State, scanKey: Key, n: nat, list: seq<(Key, Pod)>, k: Key)
    requires ListsGatedPods(s, list)
    ensures k in RequestsFor(cfg, s, scanKey, n, Some(list)) <==> Wakes(cfg, s, scanKey, n, k)
  {
    hide CachedPod, ScanAt, Concerns, Concerned;
    if ScanAt(s, scanKey, n).Some? && ScanAt(s, scanKey, n).value.status.phase.Terminal() {
      var scan := ScanAt(s, scanKey, n).value;
      ConcernedMembers(cfg, scanKey.namespace, scan, list, k);
      if Wakes(cfg, s, scanKey, n, k) {
        assert (k, CachedPod(s, k).value) in list;
      }
    }
  }

  lemma WokenIsCached(cfg: Config, s: State, scanKey: Key, n: nat, k: Key)
    requires Wakes(cfg, s, scanKey, n, k)
    ensures k in s.podSeen
  {
    hide ScanAt, Concerns;
  }

  /**
   * On a List that succeeds, the requests of mapImageScanToPods for the old and the new object of an
   * event are, together, the pods the protocol's step maps; on one that fails both request nothing.
   */
  lemma RequestsAreTargets(cfg: Config, s: State, note: Note, list: seq<(Key, Pod)>, k: Key)
    requires ListsGatedPods(s, list)
    ensures k in Targets(cfg, s, note) <==>
              k in RequestsFor(cfg, s, note.key, note.was, Some(list))
                || k in RequestsFor(cfg, s, note.key, note.now, Some(list))
    ensures RequestsFor(cfg, s, note.key, note.was, None) == [] == RequestsFor(cfg, s, note.key, note.now, None)
  {
    hide Wakes, ListsGatedPods;
    RequestedIsWoken(cfg, s, note.key, note.was, list, k);
    RequestedIsWoken(cfg, s, note.key, note.now, list, k);
    if Wakes(cfg, s, note.key, note.was, k) {
      WokenIsCached(cfg, s, note.key, note.was, k);
    }
    if Wakes(cfg, s, note.key, note.now, k) {
      WokenIsCached(cfg, s, note.key, note.now, k);
    }
  }
}
