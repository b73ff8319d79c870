/**
 * What every step keeps about stored ImageScans: terminal phases absorb, statuses have one shape,
 * a Registered scan was answered Found, and every retry delay is the first one.
 */
module ScanInvariant {
  import opened Wrappers
  import opened ImageRefs
  import opened Objects
  import opened ScanPhases
  import opened Protocol

  predicate SameScan(a: Scan, b: Scan) {
    a.spec == b.spec && a.imageHash == b.imageHash
  }

  /** All versions of a scan agree but for the status, and only the last may be terminal. */
  ghost predicate Absorbing(h: seq<Scan>) {
    && (forall i :: 0 <= i < |h| ==> SameScan(h[0], h[i]) && StatusShape(h[i].status))
    && (forall i :: 0 <= i < |h| - 1 ==> !h[i].status.phase.Terminal())
  }

  /** Aqua's answers, all about the image of the scan, account for its status. */
  ghost predicate Explained(scan: Scan, asked: seq<Asked>) {
    var st := scan.status;
    match st.phase
    case Unset => st == Status(Unset, "", "", 0, None, None)
    case Pending => Asked(scan.spec, NotFound) in asked && Triggered(scan.spec, Ok(st.aquaScanID)) in asked
    case Registered => Asked(scan.spec, Found) in asked
    case Error =>
      || Asked(scan.spec, AquaError(st.message)) in asked
      || (Asked(scan.spec, NotFound) in asked && Triggered(scan.spec, Err(st.message)) in asked)
  }

  lemma ExplainedGrows(scan: Scan, asked: seq<Asked>, asked': seq<Asked>)
    requires Explained(scan, asked) && asked <= asked'
    ensures Explained(scan, asked')
  {
    assert forall x :: x in asked ==> x in asked';
  }

  /** What holds of the object itself: its name, its label, and Aqua's answers about it. */
  ghost predicate GoodScan(cfg: Config, k: Key, scan: Scan, asked: seq<Asked>, used: set<(string, ImageRef)>) {
    && Explained(scan, asked)
    && k.name == ScanName(cfg.hash, scan.spec)
    && WellFormedDigest(scan.spec.digest)
    && (k.namespace, scan.spec) in used
    && (scan.imageHash == "" || scan.imageHash == ImageHash(cfg.hash, scan.spec.image))
  }

  ghost predicate GoodHistory(cfg: Config, k: Key, h: seq<Scan>, asked: seq<Asked>, used: set<(string, ImageRef)>) {
    |h| > 0 && Absorbing(h) && GoodScan(cfg, k, h[|h| - 1], asked, used)
  }

  /** A run of the ImageScan controller acts on a non-terminal version, current or not. */
  ghost predicate GoodScanRun(h: seq<Scan>, run: ScanRun, asked: seq<Asked>) {
    run.ScanFetch? ||
    (&& 0 < run.version <= |h|
     && !h[run.version - 1].status.phase.Terminal()
     && (run.Triggering? ==> Asked(run.scan.spec, NotFound) in asked)
     && (if !run.Writing? then run.scan == h[run.version - 1]
         else SameScan(h[run.version - 1], run.scan) && GoodWrite(run.scan, run.path, asked)))
  }

  /** The status about to be written has the right shape for its path. */
  ghost predicate GoodWrite(scan: Scan, path: WritePath, asked: seq<Asked>) {
    && StatusShape(scan.status) && Explained(scan, asked)
    && match path
       case AfterLookupError => scan.status.phase.Error?
       case AfterTriggerError => scan.status.phase.Error?
       case AfterTrigger => scan.status.phase.Pending?
       case AfterFound => scan.status.phase.Registered?
  }

  ghost predicate HistoriesGood(cfg: Config, scans: map<Key, seq<Scan>>, asked: seq<Asked>,
                                used: set<(string, ImageRef)>) {
    forall k :: k in scans ==> GoodHistory(cfg, k, scans[k], asked, used)
  }

  function Versions(scans: map<Key, seq<Scan>>, k: Key): seq<Scan> {
    if k in scans then scans[k] else []
  }

  ghost predicate RunsGood(scans: map<Key, seq<Scan>>, runs: map<Key, ScanRun>, asked: seq<Asked>) {
    forall k :: k in runs ==> GoodScanRun(Versions(scans, k), runs[k], asked)
  }

  ghost predicate SeenGood(scans: map<Key, seq<Scan>>, seen: map<Key, nat>) {
    forall k :: k in seen ==> seen[k] <= |Versions(scans, k)|
  }

  ghost predicate DelaysGood(delays: set<int>) {
    forall d :: d in delays ==> d == Backoff(1)
  }

  ghost predicate ScanInv(cfg: Config, s: State) {
    && HistoriesGood(cfg, s.scans, s.asked, s.used)
    && RunsGood(s.scans, s.scanRuns, s.asked)
    && SeenGood(s.scans, s.scanSeen)
    && DelaysGood(s.delays)
  }

  // ----- growing records -----

  lemma HistoriesGrow(cfg: Config, scans: map<Key, seq<Scan>>, asked: seq<Asked>, used: set<(string, ImageRef)>,
                      asked': seq<Asked>, used': set<(string, ImageRef)>)
    requires HistoriesGood(cfg, scans, asked, used)
    requires asked <= asked' && used <= used'
    ensures HistoriesGood(cfg, scans, asked', used')
  {
    hide Absorbing, ScanName, ImageHash, WellFormedDigest, Explained;
    forall k | k in scans ensures GoodHistory(cfg, k, scans[k], asked', used') {
      assert GoodHistory(cfg, k, scans[k], asked, used);
      ExplainedGrows(scans[k][|scans[k]| - 1], asked, asked');
    }
  }

  lemma RunsGrow(scans: map<Key, seq<Scan>>, runs: map<Key, ScanRun>, asked: seq<Asked>, runs': map<Key, ScanRun>,
                 asked': seq<Asked>)
    requires RunsGood(scans, runs, asked) && asked <= asked'
    requires runs'.Keys <= runs.Keys && forall k :: k in runs' ==> runs'[k] == runs[k]
    ensures RunsGood(scans, runs', asked')
  {
    hide SameScan, StatusShape, Explained;
    forall k | k in runs' ensures GoodScanRun(Versions(scans, k), runs'[k], asked') {
      assert GoodScanRun(Versions(scans, k), runs[k], asked);
      if runs[k].Writing? {
        ExplainedGrows(runs[k].scan, asked, asked');
      }
    }
  }

  // ----- storing a version -----

  ghost predicate Extends(scans: map<Key, seq<Scan>>, scans': map<Key, seq<Scan>>) {
    forall k :: k in scans ==> k in scans' && scans[k] <= scans'[k]
  }

  lemma PutHistory(cfg: Config, scans: map<Key, seq<Scan>>, k: Key, h: seq<Scan>, asked: seq<Asked>,
                   used: set<(string, ImageRef)>)
    requires HistoriesGood(cfg, scans, asked, used)
    requires GoodHistory(cfg, k, h, asked, used)
    ensures HistoriesGood(cfg, scans[k := h], asked, used)
  {
    hide GoodHistory;
  }

  lemma RunSurvives(h: seq<Scan>, h': seq<Scan>, run: ScanRun, asked: seq<Asked>)
    requires GoodScanRun(h, run, asked) && h <= h'
    ensures GoodScanRun(h', run, asked)
  {
    hide SameScan, GoodWrite;
  }

  lemma RunsSurvive(scans: map<Key, seq<Scan>>, scans': map<Key, seq<Scan>>, runs: map<Key, ScanRun>, asked: seq<Asked>)
    requires RunsGood(scans, runs, asked) && Extends(scans, scans')
    ensures RunsGood(scans', runs, asked)
  {
    hide GoodScanRun;
    forall k | k in runs ensures GoodScanRun(Versions(scans', k), runs[k], asked) {
      RunSurvives(Versions(scans, k), Versions(scans', k), runs[k], asked);
    }
  }

  lemma SeenSurvives(scans: map<Key, seq<Scan>>, scans': map<Key, seq<Scan>>, seen: map<Key, nat>)
    requires SeenGood(scans, seen) && Extends(scans, scans')
    ensures SeenGood(scans', seen)
  {
    forall k | k in seen ensures seen[k] <= |Versions(scans', k)| {
      assert |Versions(scans, k)| <= |Versions(scans', k)|;
    }
  }

  /** Storing a good next version, or a good first one, keeps everything good. */
  lemma StoreKeepsScanInv(cfg: Config, s: State, k: Key, scan: Scan)
    requires ScanInv(cfg, s)
    requires GoodHistory(cfg, k, ScanVersions(s, k) + [scan], s.asked, s.used)
    ensures ScanInv(cfg, StoreScan(s, k, scan))
  {
    hide GoodHistory, GoodScanRun;
    var t := StoreScan(s, k, scan);
    if StoredScan(s, k) != Some(scan) {
      var h := ScanVersions(s, k) + [scan];
      assert ScanVersions(s, k) <= h;
      PutHistory(cfg, s.scans, k, h, s.asked, s.used);
      assert Extends(s.scans, t.scans);
      RunsSurvive(s.scans, t.scans, s.scanRuns, s.asked);
      SeenSurvives(s.scans, t.scans, s.scanSeen);
    }
  }

  /** The fields the invariant reads are unchanged, but for longer records. */
  ghost predicate SameScanFields(s: State, t: State) {
    && t.scans == s.scans && t.scanRuns == s.scanRuns && t.scanSeen == s.scanSeen && t.delays == s.delays
    && s.asked <= t.asked && s.used <= t.used
  }

  lemma ScanFrame(cfg: Config, s: State, t: State)
    requires ScanInv(cfg, s) && SameScanFields(s, t)
    ensures ScanInv(cfg, t)
  {
    hide GoodHistory, GoodScanRun;
    HistoriesGrow(cfg, s.scans, s.asked, s.used, t.asked, t.used);
    RunsGrow(s.scans, s.scanRuns, s.asked, t.scanRuns, t.asked);
  }

  /** The run the step leaves is a good one. */
  ghost predicate GoodScanMove(s: State, k: Key, move: Move<ScanRun>) {
    move.Continue? ==> GoodScanRun(ScanVersions(s, k), move.run, s.asked)
  }

  lemma MoveKeepsScanInv(cfg: Config, s: State, k: Key, move: Move<ScanRun>)
    requires ScanInv(cfg, s) && GoodScanMove(s, k, move)
    ensures ScanInv(cfg, MoveScan(s, k, move))
  {
    hide HistoriesGood, SeenGood, DelaysGood, GoodScanRun;
    if !move.Continue? {
      RunsGrow(s.scans, s.scanRuns, s.asked, s.scanRuns - {k}, s.asked);
    }
  }

  // ----- the steps of the ImageScan controller -----

  lemma GoodFetch(cfg: Config, s: State, k: Key, fails: bool)
    requires ScanInv(cfg, s)
    ensures GoodScanMove(s, k, AfterFetch(s, k, fails))
  {
    hide HistoriesGood, RunsGood, DelaysGood, SameScan, GoodWrite;
  }

  lemma ReadStatusHasShape(cfg: Config, s: State, k: Key)
    requires ScanInv(cfg, s) && k in s.scanRuns && (s.scanRuns[k].Asking? || s.scanRuns[k].Triggering?)
    ensures StatusShape(s.scanRuns[k].scan.status) && !s.scanRuns[k].scan.status.phase.Terminal()
  {
    hide StatusShape, GoodScan, GoodWrite, SeenGood, DelaysGood;
    assert GoodScanRun(ScanVersions(s, k), s.scanRuns[k], s.asked);
    assert GoodHistory(cfg, k, s.scans[k], s.asked, s.used);
  }

  lemma GoodAnswered(h: seq<Scan>, run: ScanRun, asked: seq<Asked>, answer: Answer, now: int)
    requires run.Asking? && GoodScanRun(h, run, asked)
    requires StatusShape(run.scan.status) && Asked(run.scan.spec, answer) in asked
    ensures GoodScanRun(h, AfterAsk(run, answer, now).run, asked)
  {
    hide StatusShape;
    StatusChangesKeepShape(run.scan.status, if answer.AquaError? then answer.message else "", "", now);
  }

  lemma GoodTriggered(h: seq<Scan>, run: ScanRun, asked: seq<Asked>, reply: Result<string, string>)
    requires run.Triggering? && GoodScanRun(h, run, asked)
    requires StatusShape(run.scan.status) && Triggered(run.scan.spec, reply) in asked
    ensures GoodScanRun(h, AfterTriggering(run, reply).run, asked)
  {
    hide StatusShape;
    StatusChangesKeepShape(run.scan.status, if reply.Err? then reply.error else "", if reply.Ok? then reply.value
      else "", 0);
  }

  /**
   * A status update that takes effect acts on the current version, which is then not terminal:
   * no copy, however stale, overwrites a terminal phase. The version it stores is a good one.
   */
  lemma EffectiveWrite(cfg: Config, s: State, k: Key)
    requires ScanInv(cfg, s) && k in s.scanRuns && s.scanRuns[k].Writing?
    requires s.scanRuns[k].version == |ScanVersions(s, k)|
    ensures k in s.scans && !s.scans[k][|s.scans[k]| - 1].status.phase.Terminal()
    ensures GoodHistory(cfg, k, ScanVersions(s, k) + [s.scanRuns[k].scan], s.asked, s.used)
  {
    hide ScanInv, GoodHistory, GoodWrite;
    RunIsGood(cfg, s, k);
    HistoryIsGood(cfg, s, k);
    GoodNext(cfg, k, s.scans[k], s.scanRuns[k].scan, s.scanRuns[k].path, s.asked, s.used);
  }

  lemma GoodNext(cfg: Config, k: Key, h: seq<Scan>, scan: Scan, path: WritePath, asked: seq<Asked>,
                 used: set<(string, ImageRef)>)
    requires GoodHistory(cfg, k, h, asked, used) && !h[|h| - 1].status.phase.Terminal()
    requires SameScan(h[|h| - 1], scan) && GoodWrite(scan, path, asked)
    ensures GoodHistory(cfg, k, h + [scan], asked, used)
  {
    hide StatusShape, ScanName, ImageHash, WellFormedDigest;
    var h' := h + [scan];
    assert forall i :: 0 <= i < |h| ==> h'[i] == h[i];
  }

  lemma DelayIsFirst(cfg: Config, s: State, k: Key, outcome: Outcome)
    requires ScanInv(cfg, s) && k in s.scanRuns && s.scanRuns[k].Writing?
    ensures var d := RequestedDelay(s, k, s.scanRuns[k], outcome); d.Some? ==> d.value == Backoff(1)
  {
    hide HistoriesGood, SeenGood, DelaysGood, SameScan, Backoff;
    assert GoodScanRun(ScanVersions(s, k), s.scanRuns[k], s.asked);
  }

  lemma WriteKeepsScanInv(cfg: Config, s: State, k: Key, outcome: Outcome)
    requires ScanInv(cfg, s) && k in s.scanRuns && s.scanRuns[k].Writing?
    ensures ScanInv(cfg, WriteAndReturn(s, k, s.scanRuns[k], outcome))
  {
    hide HistoriesGood, RunsGood, SeenGood, GoodHistory, RequestedDelay, Backoff;
    var run := s.scanRuns[k];
    if ScanWriteLands(s, k, run, outcome) {
      EffectiveWrite(cfg, s, k);
      StoreKeepsScanInv(cfg, s, k, run.scan);
    }
    DelayIsFirst(cfg, s, k, outcome);
  }

  lemma ScanStepKeepsScanInv(cfg: Config, s: State, k: Key, a: ScanAction)
    requires ScanInv(cfg, s) && ScanEnabled(s, k, a)
    ensures ScanInv(cfg, ScanApply(s, k, a))
  {
    hide ScanInv, AfterFetch, AfterAsk, AfterTriggering, WriteAndReturn, MoveScan, StatusShape, GoodScanRun;
    var t := ScanEffect(s, k, a);
    match a {
      case StartScan =>
        ScanFrame(cfg, s, t);
        FetchIsGood(ScanVersions(t, k), t.asked);
      case DoFetchScan(fails) =>
        GoodFetch(cfg, s, k, fails);
      case DoAsk(answer, now) =>
        var x := Asked(s.scanRuns[k].scan.spec, answer);
        assert t.asked[|s.asked|] == x;
        ScanFrame(cfg, s, t);
        ReadStatusHasShape(cfg, s, k);
        RunIsGood(cfg, t, k);
        GoodAnswered(ScanVersions(t, k), s.scanRuns[k], t.asked, answer, now);
      case DoTrigger(reply) =>
        var x := Triggered(s.scanRuns[k].scan.spec, reply);
        assert t.asked[|s.asked|] == x;
        ScanFrame(cfg, s, t);
        ReadStatusHasShape(cfg, s, k);
        RunIsGood(cfg, t, k);
        GoodTriggered(ScanVersions(t, k), s.scanRuns[k], t.asked, reply);
      case DoWriteStatus(outcome) =>
        WriteKeepsScanInv(cfg, s, k, outcome);
    }
    MoveKeepsScanInv(cfg, t, k, ScanMove(s, k, a));
  }

  lemma FetchIsGood(h: seq<Scan>, asked: seq<Asked>)
    ensures GoodScanRun(h, ScanFetch, asked)
  {
  }

  lemma HistoryIsGood(cfg: Config, s: State, k: Key)
    requires ScanInv(cfg, s) && k in s.scans
    ensures GoodHistory(cfg, k, s.scans[k], s.asked, s.used)
  {
    hide GoodHistory, RunsGood, SeenGood, DelaysGood;
  }

  lemma RunIsGood(cfg: Config, s: State, k: Key)
    requires ScanInv(cfg, s) && k in s.scanRuns
    ensures GoodScanRun(ScanVersions(s, k), s.scanRuns[k], s.asked)
  {
    hide GoodScanRun, HistoriesGood, SeenGood, DelaysGood;
  }

  // ----- steps that create scans, and all others -----

  lemma NewHistory(cfg: Config, k: Key, scan: Scan, asked: seq<Asked>, used: set<(string, ImageRef)>)
    requires WellFormedDigest(scan.spec.digest) && k.name == ScanName(cfg.hash, scan.spec)
    requires scan.status == NEW_STATUS && (k.namespace, scan.spec) in used
    requires scan.imageHash == "" || scan.imageHash == ImageHash(cfg.hash, scan.spec.image)
    ensures GoodHistory(cfg, k, [] + [scan], asked, used)
  {
    hide WellFormedDigest, ScanName, ImageHash;
  }

  lemma CreateKeepsScanInv(cfg: Config, s: State, k: Key, ref: ImageRef, outcome: Outcome)
    requires ScanInv(cfg, s) && (cfg.ScanNamespace(k.namespace), ref) in s.used
    ensures ScanInv(cfg, CreateScan(cfg, s, k, ref, outcome))
  {
    hide ScanInv, GoodHistory, WellFormedDigest, ScanName, ImageHash;
    var key := cfg.ScanKey(k.namespace, ref);
    if key !in s.scans && WellFormedDigest(ref.digest) {
      NewHistory(cfg, key, NewScan(cfg, ref), s.asked, s.used);
      StoreKeepsScanInv(cfg, s, key, NewScan(cfg, ref));
    }
  }

  lemma OtherCreateKeepsScanInv(cfg: Config, s: State, ns: string, ref: ImageRef, labelled: bool)
    requires ScanInv(cfg, s) && WellFormedDigest(ref.digest) && Key(ns, ScanName(cfg.hash, ref)) !in s.scans
    ensures ScanInv(cfg, CreateByOther(cfg, s, ns, ref, labelled))
  {
    hide ScanInv, GoodHistory, WellFormedDigest, ScanName, ImageHash;
    var s' := s.(used := s.used + {(ns, ref)});
    ScanFrame(cfg, s, s');
    var key := Key(ns, ScanName(cfg.hash, ref));
    var scan := if labelled then NewScan(cfg, ref) else NewScan(cfg, ref).(imageHash := "");
    NewHistory(cfg, key, scan, s'.asked, s'.used);
    StoreKeepsScanInv(cfg, s', key, scan);
  }

  lemma RestartKeepsScanInv(cfg: Config, s: State)
    requires ScanInv(cfg, s)
    ensures ScanInv(cfg, RestartProcess(s))
  {
    hide GoodHistory, GoodScanRun;
  }

  lemma DeliveryKeepsScanInv(cfg: Config, s: State, k: Key, upTo: nat)
    requires ScanInv(cfg, s) && upTo <= |ScanVersions(s, k)|
    ensures ScanInv(cfg, DeliverScanEvent(s, k, upTo))
  {
    hide GoodHistory, GoodScanRun;
  }

  lemma EnvStepKeepsScanInv(cfg: Config, s: State, a: EnvAction)
    requires ScanInv(cfg, s) && EnvEnabled(cfg, s, a)
    ensures ScanInv(cfg, EnvApply(cfg, s, a))
  {
    hide ScanInv, WellFormedDigest, ScanName, CreateByOther, RestartProcess, DeliverScanEvent;
    if a.OtherCreate? {
      OtherCreateKeepsScanInv(cfg, s, a.namespace, a.ref, a.labelled);
    } else if a.Restart? {
      RestartKeepsScanInv(cfg, s);
    } else if a.DeliverScan? {
      DeliveryKeepsScanInv(cfg, s, a.key, a.upTo);
    } else {
      ScanFrame(cfg, s, EnvApply(cfg, s, a));
    }
  }

  lemma QueueStepKeepsScanInv(cfg: Config, s: State, a: QueueAction)
    requires ScanInv(cfg, s)
    ensures ScanInv(cfg, QueueApply(cfg, s, a))
  {
    hide ScanInv, Targets, ShowsGate;
    ScanFrame(cfg, s, QueueApply(cfg, s, a));
  }

  /** Of the pod gate controller's steps only the Create touches scans. */
  lemma PodStepKeepsScanInv(cfg: Config, s: State, k: Key, a: PodAction)
    requires ScanInv(cfg, s) && PodEnabled(s, k, a)
    requires a.DoCreateScan? ==> (cfg.ScanNamespace(k.namespace), s.podRuns[k].images[s.podRuns[k].i]) in s.used
    ensures ScanInv(cfg, PodApply(cfg, s, k, a))
  {
    hide ScanInv, CreateScan, PodMove, UpdatePod, Answers, SameScanFields;
    var t := PodEffect(cfg, s, k, a);
    if a.DoCreateScan? {
      CreateKeepsScanInv(cfg, s, k, s.podRuns[k].images[s.podRuns[k].i], a.outcome);
    } else if a.DoUpdatePod? {
      UpdateLeavesScans(s, k, s.podRuns[k], a.outcome);
      ScanFrame(cfg, s, t);
    } else {
      PodSideFields(s, t);
      ScanFrame(cfg, s, t);
    }
    PodSideFields(t, PodApply(cfg, s, k, a));
    ScanFrame(cfg, t, PodApply(cfg, s, k, a));
  }

  lemma PodSideFields(s: State, t: State)
    requires t.scans == s.scans && t.scanRuns == s.scanRuns && t.scanSeen == s.scanSeen && t.delays == s.delays
    requires t.asked == s.asked && s.used <= t.used
    ensures SameScanFields(s, t)
  {
  }

  lemma UpdateLeavesScans(s: State, k: Key, run: PodRun, outcome: Outcome)
    requires !run.PodFetch?
    ensures SameScanFields(s, UpdatePod(s, k, run, outcome))
  {
    hide PodWriteLands;
  }
}
