/**
 * No lost wakeup: in every reachable state every gated pod in scope has a reconcile due, or waits
 * on a scan whose completion will wake it, or has a scan in Error; provided that references that
 * share a scan name share the image hash, and that listing pods never failed in the mapper.
 */
module Wakeup {
  import opened ImageRefs
  import opened Objects
  import opened PodGates
  import opened ScanPhases
  import opened Protocol
  import opened ScanInvariant
  import opened GateInvariant
  import opened GateSafety

  // ----- the statement -----

  /** The pod is stored, gated and in scope. */
  ghost predicate Need(cfg: Config, s: State, k: Key) {
    !cfg.filter.Excludes(k.namespace) && StoredPod(s, k).Some? && StoredPod(s, k).value.Gated()
  }

  /** Said of the fields: the stored pod carries our gate, and its namespace is in scope. */
  lemma NeedExactly(cfg: Config, s: State, k: Key)
    ensures Need(cfg, s, k) <==>
              && InScope(cfg.filter, k.namespace) && StoredPod(s, k).Some?
              && "scans.aquasec.community/aqua-scan" in StoredPod(s, k).value.gates
  {
    hide StoredPod, InScope, NamespaceFilter.Excludes;
    ScopeIsWhatIsNotExcluded(cfg.filter, k.namespace);
  }

  /** An unhandled event that brought the cache to version `n`. */
  ghost predicate Latest(notes: set<Note>, k: Key, n: nat) {
    exists note :: note in notes && note.key == k && note.now == n
  }

  /** A reconcile of the pod is queued or timed, or an event to come will queue one. */
  ghost predicate Due(s: State, k: Key) {
    || Position(s.podSeen, k) < |PodVersions(s, k)|
    || Latest(s.podNotes, k, |PodVersions(s, k)|)
    || k in s.podDirty || k in s.mapped || k in s.podTimers
  }

  /** The scan is not Registered, or the event of its registration has yet to reach the mapper. */
  ghost predicate Open(s: State, key: Key) {
    && StoredScan(s, key).Some?
    && (|| !StoredScan(s, key).value.status.phase.Registered?
        || Position(s.scanSeen, key) < |ScanVersions(s, key)|
        || Latest(s.mapNotes, key, |ScanVersions(s, key)|))
  }

  /** `ref` is what an image of the pod was settled to: the digest it pins, or one the registry answered for it. */
  ghost predicate RefOf(cfg: Config, resolved: set<Resolution>, k: Key, pod: Pod, ref: ImageRef) {
    exists j :: 0 <= j < |pod.Images()| && Settled(cfg, resolved, k, pod.Images()[j], ref)
  }

  /** The pod waits on its scan for `ref`, and that scan is labelled so that the mapper finds the pod. */
  ghost predicate Blocks(cfg: Config, s: State, k: Key, pod: Pod, ref: ImageRef) {
    && RefOf(cfg, s.resolved, k, pod, ref)
    && Open(s, cfg.ScanKey(k.namespace, ref))
    && MatchHash(cfg, StoredScan(s, cfg.ScanKey(k.namespace, ref)).value) == ImageHash(cfg.hash, ref.image)
  }

  /** References consulted in one scan namespace that share a name also share the image hash. */
  ghost predicate LabelsAgree(cfg: Config, used: set<(string, ImageRef)>) {
    forall ns, a, b :: (ns, a) in used && (ns, b) in used && ScanName(cfg.hash, a) == ScanName(cfg.hash, b)
                       ==> ImageHash(cfg.hash, a.image) == ImageHash(cfg.hash, b.image)
  }

  ghost predicate Hypotheses(cfg: Config, s: State) {
    LabelsAgree(cfg, s.used) && !s.listFailed
  }

  // ----- the invariant -----

  /** What a run has found so far that will still be there to wake the pod when the run ends. */
  ghost predicate Covered(cfg: Config, s: State, k: Key, run: PodRun) {
    match run
    case Checking(version, pod, images, i, pending) => pending != [] ==> Blocks(cfg, s, k, pod, pending[0])
    case Creating(version, pod, images, i, pending) =>
      && (pending != [] ==> Blocks(cfg, s, k, pod, pending[0]))
      && (i < |images| && cfg.ScanKey(k.namespace, images[i]) in s.scans ==> Blocks(cfg, s, k, pod, images[i]))
    case _ => true
  }

  ghost predicate Busy(cfg: Config, s: State, k: Key) {
    && k in s.podRuns
    && (s.podRuns[k].PodFetch? || (s.podRuns[k].version == |PodVersions(s, k)| && Covered(cfg, s, k, s.podRuns[k])))
  }

  /** The reconcile that last went to wait had read the stored pod, and what it found pending can still wake the pod. */
  ghost predicate Waits(cfg: Config, s: State, k: Key) {
    && k !in s.podRuns && StoredPod(s, k).Some? && k in s.waiting && s.waiting[k].version == |PodVersions(s, k)|
    && exists ref :: ref in s.waiting[k].pending && Blocks(cfg, s, k, StoredPod(s, k).value, ref)
  }

  ghost predicate Woken(cfg: Config, s: State, k: Key) {
    Need(cfg, s, k) ==> Due(s, k) || Busy(cfg, s, k) || Waits(cfg, s, k)
  }

  ghost predicate PodsSeen(s: State) {
    forall k :: k in s.podSeen ==> s.podSeen[k] <= |PodVersions(s, k)|
  }

  ghost predicate WakeInv(cfg: Config, s: State) {
    PodsSeen(s) && forall k :: Woken(cfg, s, k)
  }

  // ----- scans that keep a pod waiting -----

  /** Scans only grow, none stops keeping pods waiting, new ones start to, and answers stay on record. */
  ghost predicate ScansAdvance(s: State, t: State) {
    && Extends(s.scans, t.scans) && s.resolved <= t.resolved
    && forall key :: Open(s, key) || (key in t.scans && key !in s.scans) ==> Open(t, key)
  }

  /** Versions and events may be added; no event is delivered or handled. */
  ghost predicate ScanEventsStay(s: State, t: State) {
    Extends(s.scans, t.scans) && t.scanSeen == s.scanSeen && s.mapNotes <= t.mapNotes && s.resolved <= t.resolved
  }

  lemma SeenBound(cfg: Config, s: State, key: Key)
    requires ScanInv(cfg, s)
    ensures Position(s.scanSeen, key) <= |ScanVersions(s, key)|
  {
    hide HistoriesGood, RunsGood, DelaysGood;
  }

  lemma OpenAdvances(cfg: Config, s: State, t: State, key: Key)
    requires ScanInv(cfg, s) && ScanEventsStay(s, t) && Open(s, key)
    ensures Open(t, key)
  {
    hide ScanInv;
    SeenBound(cfg, s, key);
    assert s.scans[key] <= t.scans[key];
    if |t.scans[key]| == |s.scans[key]| {
      assert t.scans[key] == s.scans[key];
    } else {
      assert Position(t.scanSeen, key) < |ScanVersions(t, key)|;
    }
  }

  /** A scan that was not there a moment ago has an undelivered event. */
  lemma NewScanIsOpen(cfg: Config, s: State, t: State, key: Key)
    requires ScanInv(cfg, s) && ScanInv(cfg, t) && key !in s.scans && key in t.scans && t.scanSeen == s.scanSeen
    ensures Open(t, key)
  {
    hide ScanInv, Absorbing, GoodScan;
    SeenBound(cfg, s, key);
    HistoryIsGood(cfg, t, key);
  }

  lemma UntouchedScansAdvance(s: State, t: State)
    requires t.scans == s.scans && t.scanSeen == s.scanSeen && s.mapNotes <= t.mapNotes && s.resolved <= t.resolved
    ensures ScansAdvance(s, t)
  {
  }

  lemma StayingEventsAdvance(cfg: Config, s: State, t: State)
    requires ScanInv(cfg, s) && ScanInv(cfg, t) && ScanEventsStay(s, t)
    ensures ScansAdvance(s, t)
  {
    hide ScanInv, Open;
    forall key | Open(s, key) || (key in t.scans && key !in s.scans) ensures Open(t, key) {
      if Open(s, key) {
        OpenAdvances(cfg, s, t, key);
      } else {
        NewScanIsOpen(cfg, s, t, key);
      }
    }
  }

  /** The label and the spec of a scan never change. */
  lemma SameMatchHash(cfg: Config, s: State, t: State, key: Key)
    requires ScanInv(cfg, t) && Extends(s.scans, t.scans) && StoredScan(s, key).Some?
    ensures StoredScan(t, key).Some?
    ensures MatchHash(cfg, StoredScan(t, key).value) == MatchHash(cfg, StoredScan(s, key).value)
  {
    hide ScanInv, GoodScan, StatusShape, ImageHash;
    HistoryIsGood(cfg, t, key);
    var h, h' := s.scans[key], t.scans[key];
    assert SameScan(h'[0], h'[|h| - 1]) && SameScan(h'[0], h'[|h'| - 1]);
  }

  lemma RefOfStays(cfg: Config, resolved: set<Resolution>, resolved': set<Resolution>, k: Key, pod: Pod, ref: ImageRef)
    requires RefOf(cfg, resolved, k, pod, ref) && resolved <= resolved'
    ensures RefOf(cfg, resolved', k, pod, ref)
  {
    hide ExtractFromPodSpec;
    var j :| 0 <= j < |pod.Images()| && Settled(cfg, resolved, k, pod.Images()[j], ref);
    assert Settled(cfg, resolved', k, pod.Images()[j], ref);
  }

  lemma BlocksAdvances(cfg: Config, s: State, t: State, k: Key, pod: Pod, ref: ImageRef)
    requires ScanInv(cfg, t) && ScansAdvance(s, t) && Blocks(cfg, s, k, pod, ref)
    ensures Blocks(cfg, t, k, pod, ref)
  {
    hide ScanInv, Open, Extends, RefOf, MatchHash, ImageHash, ScanName;
    var key := cfg.ScanKey(k.namespace, ref);
    RefOfStays(cfg, s.resolved, t.resolved, k, pod, ref);
    OpenIsStored(s, key);
    SameMatchHash(cfg, s, t, key);
  }

  lemma OpenIsStored(s: State, key: Key)
    requires Open(s, key)
    ensures StoredScan(s, key).Some?
  {
  }

  /** Where labels agree, an open scan under the pod's own name is one the mapper can trace to the pod. */
  lemma OpenBlocks(cfg: Config, s: State, k: Key, pod: Pod, ref: ImageRef)
    requires ScanInv(cfg, s) && LabelsAgree(cfg, s.used)
    requires (cfg.ScanNamespace(k.namespace), ref) in s.used && RefOf(cfg, s.resolved, k, pod, ref)
    requires Open(s, cfg.ScanKey(k.namespace, ref))
    ensures Blocks(cfg, s, k, pod, ref)
  {
    hide ScanInv, ScanName, ImageHash, WellFormedDigest, Absorbing, RefOf;
    HistoryIsGood(cfg, s, cfg.ScanKey(k.namespace, ref));
  }

  // ----- runs of the pod under steps of others -----

  lemma RefOfRun(cfg: Config, s: State, k: Key, j: nat)
    requires GateInv(cfg, s) && k in s.podRuns && (s.podRuns[k].Checking? || s.podRuns[k].Creating?)
    requires j < |s.podRuns[k].images|
    ensures RefOf(cfg, s.resolved, k, s.podRuns[k].pod, s.podRuns[k].images[j])
    ensures (cfg.ScanNamespace(k.namespace), s.podRuns[k].images[j]) in s.used
  {
    hide GateInv, GoodCopy, Passed;
    RunOfInv(cfg, s, k);
    var img := s.podRuns[k].images[j];
    assert (cfg.ScanNamespace(k.namespace), img) in Names(cfg, k, s.podRuns[k].images);
  }

  lemma CoveredAdvances(cfg: Config, s: State, t: State, k: Key)
    requires Inv(cfg, t) && ScansAdvance(s, t) && LabelsAgree(cfg, t.used)
    requires k in s.podRuns && k in t.podRuns && t.podRuns[k] == s.podRuns[k]
    requires Covered(cfg, s, k, s.podRuns[k])
    ensures Covered(cfg, t, k, t.podRuns[k])
  {
    hide ScanInv, GateInv, ScansAdvance, Blocks, LabelsAgree, ScanName, RefOf;
    var run := s.podRuns[k];
    if run.Checking? || run.Creating? {
      if run.pending != [] {
        BlocksAdvances(cfg, s, t, k, run.pod, run.pending[0]);
      }
      if run.Creating? && run.i < |run.images| {
        var key := cfg.ScanKey(k.namespace, run.images[run.i]);
        RefOfRun(cfg, t, k, run.i);
        if key in s.scans {
          BlocksAdvances(cfg, s, t, k, run.pod, run.images[run.i]);
        } else if key in t.scans {
          NewOpens(s, t, key);
          OpenBlocks(cfg, t, k, run.pod, run.images[run.i]);
        }
      }
    }
  }

  lemma NewOpens(s: State, t: State, key: Key)
    requires ScansAdvance(s, t) && key in t.scans && key !in s.scans
    ensures Open(t, key)
  {
    hide Open;
  }

  /** The pod's own versions and run are untouched. */
  ghost predicate SamePod(s: State, t: State, k: Key) {
    && PodVersions(t, k) == PodVersions(s, k)
    && (k in t.podRuns <==> k in s.podRuns) && (k in s.podRuns ==> t.podRuns[k] == s.podRuns[k])
    && (k in s.waiting ==> k in t.waiting && t.waiting[k] == s.waiting[k])
  }

  lemma WokenAdvances(cfg: Config, s: State, t: State, k: Key)
    requires Inv(cfg, t) && LabelsAgree(cfg, t.used)
    requires SamePod(s, t, k) && ScansAdvance(s, t)
    requires Woken(cfg, s, k) && (Need(cfg, s, k) && Due(s, k) ==> Due(t, k))
    ensures Woken(cfg, t, k)
  {
    hide Inv, ScansAdvance, Due, Covered, Blocks, LabelsAgree;
    if Need(cfg, t, k) && !Due(t, k) {
      if Busy(cfg, s, k) {
        if !s.podRuns[k].PodFetch? {
          CoveredAdvances(cfg, s, t, k);
        }
      } else {
        var pod := StoredPod(s, k).value;
        var ref :| ref in s.waiting[k].pending && Blocks(cfg, s, k, pod, ref);
        BlocksSurvive(cfg, s, t, k, pod, ref);
      }
    }
  }

  lemma BlocksSurvive(cfg: Config, s: State, t: State, k: Key, pod: Pod, ref: ImageRef)
    requires Inv(cfg, t) && ScansAdvance(s, t) && Blocks(cfg, s, k, pod, ref)
    ensures Blocks(cfg, t, k, pod, ref)
  {
    hide ScanInv, GateInv, ScansAdvance, Blocks;
    BlocksAdvances(cfg, s, t, k, pod, ref);
  }
}
