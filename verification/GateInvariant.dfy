/**
 * What every step keeps about the running pod reconciles: each acts on a version the pod really
 * had, and every scan it has passed over without complaint is Registered in the store right now.
 */
module GateInvariant {
  import opened Wrappers
  import opened ImageRefs
  import opened Mirrors
  import opened Objects
  import opened PodGates
  import opened ScanPhases
  import opened Protocol
  import opened ScanInvariant

  /** What an extracted image becomes: itself if it pins a digest, else completed by an answer of the registry. */
  ghost predicate Settled(cfg: Config, resolved: set<Resolution>, k: Key, extracted: ImageRef, ref: ImageRef) {
    if extracted.digest != "" then ref == extracted
    else ref.image == extracted.image && Resolution(k, cfg.Mirrored(extracted).image, ref.digest) in resolved
  }

  /**
   * Where the digest of `ref` must come from: it is the one `extracted` pins; or else the registry gave
   * it to this pod when asked about the image of `extracted` behind the mirror of the first rule for it.
   */
  ghost predicate DigestFrom(cfg: Config, resolved: set<Resolution>, k: Key, extracted: ImageRef, ref: ImageRef) {
    && ref.image == extracted.image
    && if extracted.digest != "" then ref.digest == extracted.digest
       else exists asked :: AskedAs(cfg.parse, cfg.mirrors, extracted.image, asked)
                            && Resolution(k, asked, ref.digest) in resolved
  }

  lemma SettledByAnswer(cfg: Config, resolved: set<Resolution>, k: Key, extracted: ImageRef, ref: ImageRef)
    requires Settled(cfg, resolved, k, extracted, ref)
    ensures DigestFrom(cfg, resolved, k, extracted, ref)
  {
    hide AskedAs, ApplyMirrorsToImageRef;
    MirroredAsAsked(cfg.parse, extracted, cfg.mirrors);
  }

  /** The first `n` images of a run are settled, the others are still as extracted. */
  ghost predicate ResolvedUpTo(cfg: Config, resolved: set<Resolution>, k: Key, images: seq<ImageRef>,
                               extracted: seq<ImageRef>, n: nat) {
    && |images| == |extracted|
    && (forall j :: 0 <= j < |images| && j < n ==> Settled(cfg, resolved, k, extracted[j], images[j]))
    && (forall j :: n <= j < |images| ==> images[j] == extracted[j])
  }

  ghost predicate ResolvedFrom(cfg: Config, resolved: set<Resolution>, k: Key, images: seq<ImageRef>,
                               extracted: seq<ImageRef>) {
    |images| == |extracted| && forall j :: 0 <= j < |images| ==> Settled(cfg, resolved, k, extracted[j], images[j])
  }

  ghost predicate IsRegistered(scans: map<Key, seq<Scan>>, key: Key) {
    key in scans && scans[key] != [] && scans[key][|scans[key]| - 1].status.phase.Registered?
  }

  /** Every image before `i` is pending or has a scan that is Registered now; what is pending comes from there. */
  ghost predicate Passed(cfg: Config, k: Key, images: seq<ImageRef>, i: nat, pending: seq<ImageRef>, scans: map<Key,
                         seq<Scan>>)
    requires i <= |images|
  {
    && (forall j :: 0 <= j < i ==> images[j] in pending || IsRegistered(scans, cfg.ScanKey(k.namespace, images[j])))
    && (forall ref :: ref in pending ==> ref in images[..i])
  }

  /** The run's copy of the pod is version `version`, gated and in scope. */
  ghost predicate GoodCopy(cfg: Config, k: Key, versions: seq<Option<Pod>>, version: nat, pod: Pod) {
    && !cfg.filter.Excludes(k.namespace)
    && 0 < version <= |versions| && versions[version - 1] == Some(pod) && pod.Gated()
  }

  ghost predicate GoodProgress(cfg: Config, k: Key, run: PodRun, scans: map<Key, seq<Scan>>,
                               used: set<(string, ImageRef)>, resolved: set<Resolution>) {
    match run
    case PodFetch => true
    case Releasing(version, pod) => pod.Bypassed() || pod.Images() == []
    case Resolving(version, pod, images, i) => ResolvedUpTo(cfg, resolved, k, images, pod.Images(), i) && i <= |images|
    case Checking(version, pod, images, i, pending) =>
      ResolvedFrom(cfg, resolved, k, images, pod.Images()) && i <= |images| && Names(cfg, k, images) <= used
        && Passed(cfg, k, images, i, pending, scans)
    case Creating(version, pod, images, i, pending) =>
      ResolvedFrom(cfg, resolved, k, images, pod.Images()) && i < |images| && Names(cfg, k, images) <= used
        && Passed(cfg, k, images, i, pending, scans)
  }

  ghost predicate GoodPodRun(cfg: Config, k: Key, versions: seq<Option<Pod>>, run: PodRun, scans: map<Key,
                             seq<Scan>>, used: set<(string, ImageRef)>, resolved: set<Resolution>) {
    run.PodFetch? || (GoodCopy(cfg, k, versions, run.version, run.pod)
      && GoodProgress(cfg, k, run, scans, used, resolved))
  }

  function PodHistory(pods: map<Key, seq<Option<Pod>>>, k: Key): seq<Option<Pod>> {
    if k in pods then pods[k] else []
  }

  ghost predicate PodRunsGood(cfg: Config, pods: map<Key, seq<Option<Pod>>>, runs: map<Key, PodRun>,
                              scans: map<Key, seq<Scan>>, used: set<(string, ImageRef)>, resolved: set<Resolution>) {
    forall k :: k in runs ==> GoodPodRun(cfg, k, PodHistory(pods, k), runs[k], scans, used, resolved)
  }

  ghost predicate GateInv(cfg: Config, s: State) {
    PodRunsGood(cfg, s.pods, s.podRuns, s.scans, s.used, s.resolved)
  }

  // ----- runs survive what others do -----

  ghost predicate PodsExtend(pods: map<Key, seq<Option<Pod>>>, pods': map<Key, seq<Option<Pod>>>) {
    forall k :: k in pods ==> k in pods' && pods[k] <= pods'[k]
  }

  /** A terminal version has no successor. */
  lemma TerminalIsLast(h: seq<Scan>, n: nat)
    requires Absorbing(h) && 0 < n <= |h| && h[n - 1].status.phase.Terminal()
    ensures n == |h|
  {
    hide StatusShape, SameScan;
  }

  /** Registered is absorbing: a longer history of the same scan is still Registered. */
  lemma RegisteredSurvives(cfg: Config, s: State, t: State, key: Key)
    requires ScanInv(cfg, t) && Extends(s.scans, t.scans) && IsRegistered(s.scans, key)
    ensures IsRegistered(t.scans, key)
  {
    hide ScanInv, Absorbing, GoodScan;
    HistoryIsGood(cfg, t, key);
    var h, h' := s.scans[key], t.scans[key];
    assert h'[|h| - 1] == h[|h| - 1];
    TerminalIsLast(h', |h|);
  }

  lemma PassedSurvives(cfg: Config, k: Key, images: seq<ImageRef>, i: nat, pending: seq<ImageRef>, s: State, t: State)
    requires i <= |images| && Passed(cfg, k, images, i, pending, s.scans)
    requires ScanInv(cfg, t) && Extends(s.scans, t.scans)
    ensures Passed(cfg, k, images, i, pending, t.scans)
  {
    hide ScanInv, Extends, IsRegistered, ScanName;
    forall j | 0 <= j < i ensures images[j] in pending || IsRegistered(t.scans, cfg.ScanKey(k.namespace, images[j])) {
      if images[j] !in pending {
        RegisteredSurvives(cfg, s, t, cfg.ScanKey(k.namespace, images[j]));
      }
    }
  }

  /** Others only add versions, and their record of names only grows. */
  ghost predicate Grows(s: State, t: State) {
    PodsExtend(s.pods, t.pods) && Extends(s.scans, t.scans) && s.used <= t.used && s.resolved <= t.resolved
  }

  lemma CopySurvives(cfg: Config, k: Key, versions: seq<Option<Pod>>, versions': seq<Option<Pod>>, version: nat,
                     pod: Pod)
    requires GoodCopy(cfg, k, versions, version, pod) && versions <= versions'
    ensures GoodCopy(cfg, k, versions', version, pod)
  {
  }

  lemma ProgressSurvives(cfg: Config, k: Key, run: PodRun, s: State, t: State)
    requires GoodProgress(cfg, k, run, s.scans, s.used, s.resolved)
    requires Extends(s.scans, t.scans) && s.used <= t.used && s.resolved <= t.resolved && ScanInv(cfg, t)
    ensures GoodProgress(cfg, k, run, t.scans, t.used, t.resolved)
  {
    hide ScanInv, Extends, Passed, Names;
    if run.Checking? || run.Creating? {
      PassedSurvives(cfg, k, run.images, run.i, run.pending, s, t);
    }
  }

  lemma RunSurvivesOthers(cfg: Config, k: Key, run: PodRun, s: State, t: State)
    requires GoodPodRun(cfg, k, PodHistory(s.pods, k), run, s.scans, s.used, s.resolved)
    requires Grows(s, t) && ScanInv(cfg, t)
    ensures GoodPodRun(cfg, k, PodHistory(t.pods, k), run, t.scans, t.used, t.resolved)
  {
    hide ScanInv, Extends, GoodProgress, GoodCopy;
    if !run.PodFetch? {
      CopySurvives(cfg, k, PodHistory(s.pods, k), PodHistory(t.pods, k), run.version, run.pod);
      ProgressSurvives(cfg, k, run, s, t);
    }
  }

  lemma RunsSurviveOthers(cfg: Config, s: State, t: State)
    requires GateInv(cfg, s) && Grows(s, t) && ScanInv(cfg, t)
    ensures PodRunsGood(cfg, t.pods, s.podRuns, t.scans, t.used, t.resolved)
  {
    hide ScanInv, Grows, GoodPodRun, PodHistory;
    forall k | k in s.podRuns
      ensures GoodPodRun(cfg, k, PodHistory(t.pods, k), s.podRuns[k], t.scans, t.used, t.resolved) {
      RunSurvivesOthers(cfg, k, s.podRuns[k], s, t);
    }
  }

  lemma StorePodGrows(s: State, k: Key, pod: Option<Pod>)
    ensures Grows(s, StorePod(s, k, pod))
  {
  }

  lemma StoreScanGrows(s: State, k: Key, scan: Scan)
    ensures Grows(s, StoreScan(s, k, scan))
  {
    hide StoredScan, PodsExtend;
    SamePodsExtend(s.pods);
  }

  lemma SamePodsExtend(pods: map<Key, seq<Option<Pod>>>)
    ensures PodsExtend(pods, pods)
  {
  }

  // ----- the steps of the run itself -----

  ghost predicate GoodPodMove(cfg: Config, s: State, k: Key, move: Move<PodRun>) {
    move.Continue? ==> GoodPodRun(cfg, k, PodHistory(s.pods, k), move.run, s.scans, s.used, s.resolved)
  }

  lemma MoveKeepsGateInv(cfg: Config, s: State, k: Key, move: Move<PodRun>)
    requires PodRunsGood(cfg, s.pods, s.podRuns, s.scans, s.used, s.resolved) && GoodPodMove(cfg, s, k, move)
    ensures GateInv(cfg, MovePod(s, k, move))
  {
    hide GoodPodRun;
  }

  lemma GoodGetPod(cfg: Config, s: State, k: Key, fails: bool)
    ensures GoodPodMove(cfg, s, k, AfterGetPod(cfg, s, k, fails))
  {
    hide Passed, Names, ExtractFromPodSpec, Settled, NamespaceFilter.Excludes;
  }

  lemma GoodResolve(cfg: Config, k: Key, versions: seq<Option<Pod>>, run: PodRun, scans: map<Key, seq<Scan>>,
                    used: set<(string, ImageRef)>, resolved: set<Resolution>, digest: Option<string>)
    requires run.Resolving? && run.i < |run.images|
    requires GoodPodRun(cfg, k, versions, run, scans, used, resolved)
    requires run.images[run.i].digest == "" && digest.Some? ==>
               Resolution(k, cfg.Mirrored(run.images[run.i]).image, digest.value) in resolved
    ensures var move := AfterResolve(run, digest);
            move.Continue? ==> GoodPodRun(cfg, k, versions, move.run, scans, used, resolved)
  {
    hide Passed, Names, GoodCopy, ResolvedUpTo, ExtractFromPodSpec, Config.Mirrored;
    var move := AfterResolve(run, digest);
    if move.Continue? {
      SettleOne(cfg, resolved, k, run.images, run.pod.Images(), run.i, move.run.images);
    }
  }

  /** The digest loop settles one more image, in its place. */
  lemma SettleOne(cfg: Config, resolved: set<Resolution>, k: Key, images: seq<ImageRef>,
                  extracted: seq<ImageRef>, i: nat, images': seq<ImageRef>)
    requires i < |images| && ResolvedUpTo(cfg, resolved, k, images, extracted, i)
    requires if images[i].digest != "" then images' == images
             else
               && |images'| == |images| && images' == images[i := images'[i]]
               && Settled(cfg, resolved, k, images[i], images'[i])
    ensures ResolvedUpTo(cfg, resolved, k, images', extracted, i + 1)
  {
  }

  lemma GoodBegin(cfg: Config, k: Key, versions: seq<Option<Pod>>, run: PodRun, scans: map<Key, seq<Scan>>,
                  used: set<(string, ImageRef)>, resolved: set<Resolution>)
    requires run.Resolving? && run.i == |run.images| && GoodPodRun(cfg, k, versions, run, scans, used, resolved)
    requires Names(cfg, k, run.images) <= used
    ensures GoodPodRun(cfg, k, versions, Checking(run.version, run.pod, run.images, 0, []), scans, used, resolved)
  {
    hide Names, GoodCopy, Settled;
  }

  /** A cached scan that is Registered is the stored one: no version follows a terminal one. */
  lemma CachedRegisteredIsStored(cfg: Config, s: State, key: Key)
    requires ScanInv(cfg, s)
    requires CachedScan(s, key).Some? && CachedScan(s, key).value.status.phase.Registered?
    ensures IsRegistered(s.scans, key)
  {
    hide ScanInv, Absorbing, GoodScan;
    HistoryIsGood(cfg, s, key);
    TerminalIsLast(s.scans[key], Position(s.scanSeen, key));
  }

  lemma PassOne(cfg: Config, k: Key, images: seq<ImageRef>, i: nat, pending: seq<ImageRef>, pending': seq<ImageRef>,
                scans: map<Key, seq<Scan>>)
    requires i < |images| && Passed(cfg, k, images, i, pending, scans)
    requires || (pending' == pending && IsRegistered(scans, cfg.ScanKey(k.namespace, images[i])))
             || pending' == pending + [images[i]]
    ensures Passed(cfg, k, images, i + 1, pending', scans)
  {
    hide IsRegistered, ScanName;
    assert images[..i + 1] == images[..i] + [images[i]];
    assert pending' != pending ==> pending'[|pending|] == images[i];
    forall ref | ref in pending ensures ref in images[..i + 1] {
      assert ref in images[..i];
    }
  }

  /** One more image has been looked at: its scan is Registered, or it is pending now. */
  lemma GoodChecked(cfg: Config, k: Key, versions: seq<Option<Pod>>, run: PodRun, pending: seq<ImageRef>,
                    scans: map<Key, seq<Scan>>, used: set<(string, ImageRef)>, resolved: set<Resolution>)
    requires (run.Checking? || run.Creating?) && run.i < |run.images|
    requires GoodPodRun(cfg, k, versions, run, scans, used, resolved)
    requires || (pending == run.pending && IsRegistered(scans, cfg.ScanKey(k.namespace, run.images[run.i])))
             || pending == run.pending + [run.images[run.i]]
    ensures GoodPodRun(cfg, k, versions, Checking(run.version, run.pod, run.images, run.i + 1, pending), scans, used,
                       resolved)
  {
    hide Passed, Names, GoodCopy, ResolvedFrom, ScanName, IsRegistered;
    PassOne(cfg, k, run.images, run.i, run.pending, pending, scans);
  }

  lemma GoodMissing(cfg: Config, k: Key, versions: seq<Option<Pod>>, run: PodRun, scans: map<Key, seq<Scan>>,
                    used: set<(string, ImageRef)>, resolved: set<Resolution>)
    requires run.Checking? && run.i < |run.images| && GoodPodRun(cfg, k, versions, run, scans, used, resolved)
    ensures GoodPodRun(cfg, k, versions, Creating(run.version, run.pod, run.images, run.i, run.pending), scans, used,
                       resolved)
  {
    hide Passed, Names, GoodCopy, ResolvedFrom;
  }

  lemma GoodGetScan(cfg: Config, s: State, k: Key, fails: bool)
    requires ScanInv(cfg, s) && k in s.podRuns && s.podRuns[k].Checking? && s.podRuns[k].i < |s.podRuns[k].images|
    requires GoodPodRun(cfg, k, PodHistory(s.pods, k), s.podRuns[k], s.scans, s.used, s.resolved)
    ensures GoodPodMove(cfg, s, k, AfterGetScan(cfg, s, k, s.podRuns[k], fails))
  {
    hide ScanInv, GoodPodRun, ScanName, IsRegistered, CachedScan, Config.ScanKey;
    var run, versions := s.podRuns[k], PodHistory(s.pods, k);
    var img := run.images[run.i];
    var scan := CachedScan(s, cfg.ScanKey(k.namespace, img));
    if scan.None? {
      GoodMissing(cfg, k, versions, run, s.scans, s.used, s.resolved);
    } else if scan.value.status.phase.Registered? {
      CachedRegisteredIsStored(cfg, s, cfg.ScanKey(k.namespace, img));
      GoodChecked(cfg, k, versions, run, run.pending, s.scans, s.used, s.resolved);
    } else {
      GoodChecked(cfg, k, versions, run, run.pending + [img], s.scans, s.used, s.resolved);
    }
  }

  lemma GoodCreate(cfg: Config, k: Key, versions: seq<Option<Pod>>, run: PodRun, scans: map<Key, seq<Scan>>,
                   used: set<(string, ImageRef)>, resolved: set<Resolution>, outcome: Outcome)
    requires run.Creating? && run.i < |run.images|
    requires GoodPodRun(cfg, k, versions, run, scans, used, resolved)
    ensures var move := AfterCreate(run, outcome);
            move.Continue? ==> GoodPodRun(cfg, k, versions, move.run, scans, used, resolved)
  {
    hide GoodPodRun, ScanName, IsRegistered, WellFormedDigest;
    GoodChecked(cfg, k, versions, run, run.pending + [run.images[run.i]], scans, used, resolved);
  }

  lemma RunOfInv(cfg: Config, s: State, k: Key)
    requires GateInv(cfg, s) && k in s.podRuns
    ensures GoodPodRun(cfg, k, PodHistory(s.pods, k), s.podRuns[k], s.scans, s.used, s.resolved)
  {
    hide GoodPodRun;
  }

  /** The answer just given is on record. */
  predicate Answered(cfg: Config, s: State, k: Key, run: PodRun, digest: Option<string>)
    requires run.Resolving? && run.i < |run.images|
  {
    run.images[run.i].digest == "" && digest.Some? ==>
      Resolution(k, cfg.Mirrored(run.images[run.i]).image, digest.value) in s.resolved
  }

  lemma GoodMove(cfg: Config, s: State, t: State, k: Key, a: PodAction)
    requires ScanInv(cfg, s) && ScanInv(cfg, t) && GateInv(cfg, s) && PodEnabled(s, k, a)
    requires Grows(s, t) && (a.DoBeginChecks? ==> Names(cfg, k, s.podRuns[k].images) <= t.used)
    requires a.DoResolve? ==> Answered(cfg, t, k, s.podRuns[k], a.digest)
    requires a.DoGetScan? || a.DoGetPod? ==> t == s
    ensures GoodPodMove(cfg, t, k, PodMove(cfg, s, k, a))
  {
    hide ScanInv, GateInv, Grows, GoodCopy, GoodProgress, PodHistory, Names;
    hide AfterGetPod, AfterResolve, AfterGetScan, AfterCreate, AfterUpdate;
    var versions := PodHistory(t.pods, k);
    if !a.StartPod? {
      RunOfInv(cfg, s, k);
      RunSurvivesOthers(cfg, k, s.podRuns[k], s, t);
    }
    match a
    case StartPod =>
    case DoGetPod(fails) => GoodGetPod(cfg, s, k, fails);
    case FailResolver =>
    case DoResolve(digest) => GoodResolve(cfg, k, versions, s.podRuns[k], t.scans, t.used, t.resolved, digest);
    case DoBeginChecks => GoodBegin(cfg, k, versions, s.podRuns[k], t.scans, t.used, t.resolved);
    case DoGetScan(fails) => GoodGetScan(cfg, s, k, fails);
    case DoCreateScan(outcome) => GoodCreate(cfg, k, versions, s.podRuns[k], t.scans, t.used, t.resolved, outcome);
    case DoUpdatePod(outcome) => UpdateEnds(s, k, s.podRuns[k], outcome);
    case Wait =>
  }

  lemma UpdateEnds(s: State, k: Key, run: PodRun, outcome: Outcome)
    ensures !AfterUpdate(s, k, run, outcome).Continue?
  {
  }

  lemma AnswerIsRecorded(cfg: Config, s: State, k: Key, run: PodRun, digest: Option<string>)
    requires run.Resolving? && run.i < |run.images| && Answers(cfg, k, run, digest) <= s.resolved
    ensures Answered(cfg, s, k, run, digest)
  {
  }

  lemma EffectGrows(cfg: Config, s: State, k: Key, a: PodAction)
    requires PodEnabled(s, k, a)
    ensures Grows(s, PodEffect(cfg, s, k, a))
    ensures PodEffect(cfg, s, k, a).podRuns == s.podRuns
    ensures a.DoGetScan? || a.DoGetPod? ==> PodEffect(cfg, s, k, a) == s
    ensures a.DoBeginChecks? ==> Names(cfg, k, s.podRuns[k].images) <= PodEffect(cfg, s, k, a).used
    ensures a.DoResolve? ==> Answered(cfg, PodEffect(cfg, s, k, a), k, s.podRuns[k], a.digest)
  {
    hide StorePod, StoreScan, Grows, PodWriteLands, NewScan, ScanName, WellFormedDigest, Answers, Answered, Names;
    SameGrows(s, PodEffect(cfg, s, k, a));
    if a.DoResolve? {
      AnswerIsRecorded(cfg, PodEffect(cfg, s, k, a), k, s.podRuns[k], a.digest);
    } else if a.DoUpdatePod? {
      StorePodGrows(s, k, Some(Ungated(s.podRuns[k].pod)));
      StorePodKeepsRuns(s, k, Some(Ungated(s.podRuns[k].pod)));
    } else if a.DoCreateScan? {
      var ref := s.podRuns[k].images[s.podRuns[k].i];
      StoreScanGrows(s, cfg.ScanKey(k.namespace, ref), NewScan(cfg, ref));
      StoreScanKeepsRuns(s, cfg.ScanKey(k.namespace, ref), NewScan(cfg, ref));
    }
  }

  lemma SameGrows(s: State, t: State)
    ensures t.pods == s.pods && t.scans == s.scans && s.used <= t.used && s.resolved <= t.resolved ==> Grows(s, t)
  {
  }

  lemma StorePodKeepsRuns(s: State, k: Key, pod: Option<Pod>)
    ensures StorePod(s, k, pod).podRuns == s.podRuns
  {
  }

  lemma StoreScanKeepsRuns(s: State, k: Key, scan: Scan)
    ensures StoreScan(s, k, scan).podRuns == s.podRuns
  {
  }
}
