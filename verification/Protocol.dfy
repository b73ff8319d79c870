/**
 * The scan-gating protocol as a transition system: the pod gate controller
 * (internal/controller/pod_gate_controller.go) and the ImageScan controller
 * (internal/controller/imagescan_controller.go) over one API server.
 *
 * Every call a reconciler makes is a step of its own. Between any two steps anything else may
 * happen: users edit, create and delete pods, events are delivered late or coalesced, timers fire,
 * other workers run, the process restarts.
 *
 * The API server keeps every version an object ever had; the informer cache of the process is a
 * position in that history, so a cached read may be arbitrarily stale, and an event is undelivered
 * exactly while the position lags. A write succeeds only against the current version.
 */
module Protocol {
  import opened Wrappers
  import opened ImageRefs
  import opened Objects
  import opened PodGates
  import opened ScanPhases

  /** An informer event waiting for its handler: the cached position moved from `was` to `now`. */
  datatype Note = Note(key: Key, was: nat, now: nat)

  /** Aqua's answers to GetScanResult. */
  datatype Answer = Found | NotFound | AquaError(message: string)

  /** A call to Aqua about an image, and how it ended: GetScanResult or TriggerScan. */
  datatype Asked = Asked(spec: ImageRef, answer: Answer) | Triggered(spec: ImageRef, reply: Result<string, string>)

  /** A registry's answer to the reconcile of `pod`: what it was asked about, and the digest it gave. */
  datatype Resolution = Resolution(pod: Key, asked: string, digest: string)

  /** What a reconcile that went to wait had found: the version of its pod, and the images not Registered. */
  datatype Halt = Halt(version: nat, pending: seq<ImageRef>)

  /** How a write ends: applied, applied although the caller sees an error, or not applied. */
  datatype Outcome = Applied | ReplyLost | Refused

  /** A running PodGateReconciler.Reconcile: where it is, with its local variables. */
  datatype PodRun =
    | PodFetch
    | Releasing(version: nat, pod: Pod)
    | Resolving(version: nat, pod: Pod, images: seq<ImageRef>, i: nat)
    | Checking(version: nat, pod: Pod, images: seq<ImageRef>, i: nat, pending: seq<ImageRef>)
    | Creating(version: nat, pod: Pod, images: seq<ImageRef>, i: nat, pending: seq<ImageRef>)

  /** The four status updates of ImageScanReconciler.Reconcile. */
  datatype WritePath = AfterLookupError | AfterTriggerError | AfterTrigger | AfterFound

  datatype ScanRun =
    | ScanFetch
    | Asking(version: nat, scan: Scan)
    | Triggering(version: nat, scan: Scan)
    | Writing(version: nat, scan: Scan, path: WritePath)

  /** How a step of a reconciler leaves its run: returned, returned asking for a retry, or still going. */
  datatype Move<Run> = Finish | Retry | Continue(run: Run)

  datatype State = State(
    // API server: all versions, oldest first; None is a deletion
    pods: map<Key, seq<Option<Pod>>>,
    scans: map<Key, seq<Scan>>,
    // informer caches and the events whose handlers have not run
    podSeen: map<Key, nat>,
    scanSeen: map<Key, nat>,
    podNotes: set<Note>,
    scanNotes: set<Note>,
    mapNotes: set<Note>,
    mapped: set<Key>,
    // the work queues: dirty keys, delayed keys, keys being processed
    podDirty: set<Key>,
    podTimers: set<Key>,
    podRuns: map<Key, PodRun>,
    scanDirty: set<Key>,
    scanTimers: set<Key>,
    scanRuns: map<Key, ScanRun>,
    // history
    asked: seq<Asked>,
    delays: set<int>,
    used: set<(string, ImageRef)>,
    resolved: set<Resolution>,
    waiting: map<Key, Halt>,
    listFailed: bool)

  const INIT := State(
    map[], map[], map[], map[], {}, {}, {}, {}, {}, {}, map[], {}, {}, map[], [], {}, {}, {}, map[], false)

  // ----- reading a state -----

  function PodVersions(s: State, k: Key): seq<Option<Pod>> {
    if k in s.pods then s.pods[k] else []
  }

  function ScanVersions(s: State, k: Key): seq<Scan> {
    if k in s.scans then s.scans[k] else []
  }

  function Position(seen: map<Key, nat>, k: Key): nat {
    if k in seen then seen[k] else 0
  }

  /** The object at version `n`; version 0 precedes its creation. */
  function PodAt(s: State, k: Key, n: nat): Option<Pod> {
    if 0 < n <= |PodVersions(s, k)| then PodVersions(s, k)[n - 1] else None
  }

  function ScanAt(s: State, k: Key, n: nat): Option<Scan> {
    if 0 < n <= |ScanVersions(s, k)| then Some(ScanVersions(s, k)[n - 1]) else None
  }

  function StoredPod(s: State, k: Key): Option<Pod> {
    PodAt(s, k, |PodVersions(s, k)|)
  }

  function StoredScan(s: State, k: Key): Option<Scan> {
    ScanAt(s, k, |ScanVersions(s, k)|)
  }

  function CachedPod(s: State, k: Key): Option<Pod> {
    PodAt(s, k, Position(s.podSeen, k))
  }

  function CachedScan(s: State, k: Key): Option<Scan> {
    ScanAt(s, k, Position(s.scanSeen, k))
  }

  // ----- changing a state -----

  function StorePod(s: State, k: Key, pod: Option<Pod>): State {
    s.(pods := s.pods[k := PodVersions(s, k) + [pod]])
  }

  /** An update that changes nothing creates no version. */
  function StoreScan(s: State, k: Key, scan: Scan): State {
    if StoredScan(s, k) == Some(scan) then s else s.(scans := s.scans[k := ScanVersions(s, k) + [scan]])
  }

  function MovePod(s: State, k: Key, move: Move<PodRun>): State {
    s.(podRuns := if move.Continue? then s.podRuns[k := move.run] else s.podRuns - {k},
       podTimers := if move.Retry? then s.podTimers + {k} else s.podTimers)
  }

  function MoveScan(s: State, k: Key, move: Move<ScanRun>): State {
    s.(scanRuns := if move.Continue? then s.scanRuns[k := move.run] else s.scanRuns - {k},
       scanTimers := if move.Retry? then s.scanTimers + {k} else s.scanTimers)
  }

  // ----- events and queues -----

  /** The object a pod event shows the watch predicate: the new one, or the last one if deleted. */
  function EventPod(s: State, note: Note): Option<Pod> {
    if PodAt(s, note.key, note.now).Some? then PodAt(s, note.key, note.now) else PodAt(s, note.key, note.was)
  }

  /** The watch predicate: only pods with our gate are enqueued. */
  predicate ShowsGate(s: State, note: Note) {
    EventPod(s, note).Some? && EventPod(s, note).value.Gated()
  }

  function HandlePodNote(s: State, note: Note): State {
    s.(podNotes := s.podNotes - {note},
       podDirty := if ShowsGate(s, note) then s.podDirty + {note.key} else s.podDirty)
  }

  function HandleScanNote(s: State, note: Note): State {
    s.(scanNotes := s.scanNotes - {note}, scanDirty := s.scanDirty + {note.key})
  }

  /** A pod listed through the gate index that the scan at version `n` concerns. */
  predicate Wakes(cfg: Config, s: State, scanKey: Key, n: nat, k: Key) {
    && CachedPod(s, k).Some? && CachedPod(s, k).value.Gated()
    && ScanAt(s, scanKey, n).Some? && ScanAt(s, scanKey, n).value.status.phase.Terminal()
    && Concerns(cfg, scanKey.namespace, ScanAt(s, scanKey, n).value, k, CachedPod(s, k).value)
  }

  /** The mapper runs on the old and on the new object of an event. */
  function Targets(cfg: Config, s: State, note: Note): set<Key> {
    set k | k in s.podSeen && (Wakes(cfg, s, note.key, note.was, k) || Wakes(cfg, s, note.key, note.now, k))
  }

  /** mapImageScanToPods on one event: the List sees the cache of this moment; when it fails, the event is dropped. */
  function MapScanNote(cfg: Config, s: State, note: Note, listFails: bool): State {
    s.(mapNotes := s.mapNotes - {note},
       mapped := if listFails then s.mapped else s.mapped + Targets(cfg, s, note),
       listFailed := s.listFailed || listFails)
  }

  function EnqueueMapped(s: State, k: Key): State {
    s.(mapped := s.mapped - {k}, podDirty := s.podDirty + {k})
  }

  function FirePodTimer(s: State, k: Key): State {
    s.(podTimers := s.podTimers - {k}, podDirty := s.podDirty + {k})
  }

  function FireScanTimer(s: State, k: Key): State {
    s.(scanTimers := s.scanTimers - {k}, scanDirty := s.scanDirty + {k})
  }

  // ----- the environment -----

  /** A watch event arrives; events in between may have been coalesced. */
  function DeliverPodEvent(s: State, k: Key, upTo: nat): State {
    s.(podSeen := s.podSeen[k := upTo], podNotes := s.podNotes + {Note(k, Position(s.podSeen, k), upTo)})
  }

  /** Both controllers watch ImageScans. */
  function DeliverScanEvent(s: State, k: Key, upTo: nat): State {
    var note := Note(k, Position(s.scanSeen, k), upTo);
    s.(scanSeen := s.scanSeen[k := upTo], scanNotes := s.scanNotes + {note}, mapNotes := s.mapNotes + {note})
  }

  function ResyncPodEvent(s: State, k: Key): State {
    s.(podNotes := s.podNotes + {Note(k, Position(s.podSeen, k), Position(s.podSeen, k))})
  }

  function ResyncScanEvent(s: State, k: Key): State {
    var note := Note(k, Position(s.scanSeen, k), Position(s.scanSeen, k));
    s.(scanNotes := s.scanNotes + {note}, mapNotes := s.mapNotes + {note})
  }

  /** The process restarts: caches, queues, timers and runs are gone; the API server is not. */
  function RestartProcess(s: State): State {
    INIT.(pods := s.pods, scans := s.scans, asked := s.asked, delays := s.delays, used := s.used,
          resolved := s.resolved, listFailed := s.listFailed)
  }

  function NewScan(cfg: Config, ref: ImageRef): Scan {
    Scan(ImageHash(cfg.hash, ref.image), ref, NEW_STATUS)
  }

  /** A scan created by someone else, perhaps by an older version that set no label. */
  function CreateByOther(cfg: Config, s: State, ns: string, ref: ImageRef, labelled: bool): State {
    var scan := NewScan(cfg, ref);
    StoreScan(s.(used := s.used + {(ns, ref)}), Key(ns, ScanName(cfg.hash, ref)), if labelled then scan
      else scan.(imageHash := ""))
  }

  // ----- the pod gate controller: where each step leaves the run -----

  /** The namespace test and the Get of the pod. */
  function AfterGetPod(cfg: Config, s: State, k: Key, fails: bool): Move<PodRun> {
    var pod := CachedPod(s, k);
    var version := Position(s.podSeen, k);
    if cfg.filter.Excludes(k.namespace) then Finish
    else if fails then Retry
    else if pod.None? || !pod.value.Gated() then Finish
    else if pod.value.Bypassed() || pod.value.Images() == [] then Continue(Releasing(version, pod.value))
    else Continue(Resolving(version, pod.value, pod.value.Images(), 0))
  }

  /** One turn of the digest loop; a pinned digest is kept, a failed resolution ends the run. */
  function AfterResolve(run: PodRun, digest: Option<string>): Move<PodRun>
    requires run.Resolving? && run.i < |run.images|
  {
    var img := run.images[run.i];
    if img.digest != "" then Continue(Resolving(run.version, run.pod, run.images, run.i + 1))
    else if digest.None? then Retry
    else
      var images := run.images[run.i := ImageRef(img.image, digest.value)];
      Continue(Resolving(run.version, run.pod, images, run.i + 1))
  }

  /** The answer the registry gave, if it was asked: about the image under its mirrored name. */
  function Answers(cfg: Config, k: Key, run: PodRun, digest: Option<string>): set<Resolution>
    requires run.Resolving? && run.i < |run.images|
  {
    var img := run.images[run.i];
    if img.digest != "" || digest.None? then {} else {Resolution(k, cfg.Mirrored(img).image, digest.value)}
  }

  /** The Get of one image's scan. */
  function AfterGetScan(cfg: Config, s: State, k: Key, run: PodRun, fails: bool): Move<PodRun>
    requires run.Checking? && run.i < |run.images|
  {
    var img := run.images[run.i];
    var scan := CachedScan(s, cfg.ScanKey(k.namespace, img));
    if fails then Retry
    else if scan.None? then Continue(Creating(run.version, run.pod, run.images, run.i, run.pending))
    else if scan.value.status.phase.Registered? then Continue(Checking(run.version, run.pod, run.images, run.i + 1,
      run.pending))
    else Continue(Checking(run.version, run.pod, run.images, run.i + 1, run.pending + [img]))
  }

  /** The Create is refused for a malformed digest, and leaves an existing object as it is. */
  function CreateScan(cfg: Config, s: State, k: Key, ref: ImageRef, outcome: Outcome): State {
    var key := cfg.ScanKey(k.namespace, ref);
    if key in s.scans || outcome.Refused? || !WellFormedDigest(ref.digest) then s
    else StoreScan(s, key, NewScan(cfg, ref))
  }

  function AfterCreate(run: PodRun, outcome: Outcome): Move<PodRun>
    requires run.Creating? && run.i < |run.images|
  {
    var img := run.images[run.i];
    if outcome.Applied? && WellFormedDigest(img.digest)
    then Continue(Checking(run.version, run.pod, run.images, run.i + 1, run.pending + [img]))
    else Retry
  }

  /** The run has decided to remove the gate: unconditionally, or after all scans were Registered. */
  predicate AboutToUpdate(run: PodRun) {
    run.Releasing? || (run.Checking? && run.i == |run.images| && run.pending == [])
  }

  /** An Update takes effect only if the version read is still current. */
  predicate PodWriteLands(s: State, k: Key, run: PodRun, outcome: Outcome) {
    !run.PodFetch? && run.version == |PodVersions(s, k)| && !outcome.Refused?
  }

  /** The Update without the gate. */
  function UpdatePod(s: State, k: Key, run: PodRun, outcome: Outcome): State
    requires !run.PodFetch?
  {
    if PodWriteLands(s, k, run, outcome) then StorePod(s, k, Some(Ungated(run.pod))) else s
  }

  function AfterUpdate(s: State, k: Key, run: PodRun, outcome: Outcome): Move<PodRun> {
    if PodWriteLands(s, k, run, outcome) && outcome.Applied? then Finish else Retry
  }

  // ----- the ImageScan controller -----

  function AfterFetch(s: State, k: Key, fails: bool): Move<ScanRun> {
    var scan := CachedScan(s, k);
    if fails then Retry
    else if scan.None? || scan.value.status.phase.Terminal() then Finish
    else Continue(Asking(Position(s.scanSeen, k), scan.value))
  }

  function AfterAsk(run: ScanRun, answer: Answer, now: int): Move<ScanRun>
    requires run.Asking?
  {
    var st := run.scan.status;
    match answer
    case AquaError(message) => Continue(Writing(run.version, run.scan.(status := FailedStatus(st, message)),
      AfterLookupError))
    case NotFound => Continue(Triggering(run.version, run.scan))
    case Found => Continue(Writing(run.version, run.scan.(status := RegisteredStatus(st, now)), AfterFound))
  }

  function AfterTriggering(run: ScanRun, reply: Result<string, string>): Move<ScanRun>
    requires run.Triggering?
  {
    var st := run.scan.status;
    match reply
    case Err(message) => Continue(Writing(run.version, run.scan.(status := FailedStatus(st, message)),
      AfterTriggerError))
    case Ok(scanID) => Continue(Writing(run.version, run.scan.(status := TriggeredStatus(st, scanID)), AfterTrigger))
  }

  predicate ScanWriteLands(s: State, k: Key, run: ScanRun, outcome: Outcome) {
    run.Writing? && run.version == |ScanVersions(s, k)| && !outcome.Refused?
  }

  /** The Status().Update. */
  function WriteStatus(s: State, k: Key, run: ScanRun, outcome: Outcome): State
    requires run.Writing?
  {
    if ScanWriteLands(s, k, run, outcome) then StoreScan(s, k, run.scan) else s
  }

  /** The delay the return asks for, when it names one: after an error of Aqua. */
  function RequestedDelay(s: State, k: Key, run: ScanRun, outcome: Outcome): Option<int>
    requires run.Writing?
  {
    var ok := ScanWriteLands(s, k, run, outcome) && outcome.Applied?;
    if run.path.AfterLookupError? || (run.path.AfterTriggerError? && ok)
    then Some(Backoff(run.scan.status.retryCount)) else None
  }

  /** The Status().Update, with the requested delay on record. */
  function WriteAndReturn(s: State, k: Key, run: ScanRun, outcome: Outcome): State
    requires run.Writing?
  {
    var delay := RequestedDelay(s, k, run, outcome);
    WriteStatus(s, k, run, outcome).(delays := if delay.Some? then s.delays + {delay.value} else s.delays)
  }

  function AfterWrite(s: State, k: Key, run: ScanRun, outcome: Outcome): Move<ScanRun>
    requires run.Writing?
  {
    var ok := ScanWriteLands(s, k, run, outcome) && outcome.Applied?;
    if run.path.AfterFound? && ok then Finish else Retry
  }

  // ----- steps -----

  /** What users, other writers, the API server and the watch connection do. */
  datatype EnvAction =
    | EditPod(key: Key, pod: Option<Pod>)
    | OtherCreate(namespace: string, ref: ImageRef, labelled: bool)
    | DeliverPod(key: Key, upTo: nat)
    | DeliverScan(key: Key, upTo: nat)
    | ResyncPod(key: Key)
    | ResyncScan(key: Key)
    | Restart

  /** What the event handlers and the timers of the work queues do. */
  datatype QueueAction =
    | HandlePod(note: Note)
    | HandleScan(note: Note)
    | MapScan(note: Note, listFails: bool)
    | AddMapped(key: Key)
    | PodTimer(key: Key)
    | ScanTimer(key: Key)

  /** The steps of PodGateReconciler.Reconcile; FailResolver is a digest resolver that cannot be built. */
  datatype PodAction =
    | StartPod
    | DoGetPod(fails: bool)
    | FailResolver
    | DoResolve(digest: Option<string>)
    | DoBeginChecks
    | DoGetScan(fails: bool)
    | DoCreateScan(outcome: Outcome)
    | DoUpdatePod(outcome: Outcome)
    | Wait

  /** The steps of ImageScanReconciler.Reconcile. */
  datatype ScanAction =
    | StartScan
    | DoFetchScan(fails: bool)
    | DoAsk(answer: Answer, now: int)
    | DoTrigger(reply: Result<string, string>)
    | DoWriteStatus(outcome: Outcome)

  datatype Action =
    | Env(env: EnvAction)
    | Queue(queue: QueueAction)
    | PodStep(key: Key, pod: PodAction)
    | ScanStep(key: Key, scan: ScanAction)

  predicate EnvEnabled(cfg: Config, s: State, a: EnvAction) {
    match a
    case EditPod(k, pod) => pod.Some? || StoredPod(s, k).Some?
    case OtherCreate(ns, ref, labelled) => WellFormedDigest(ref.digest) && Key(ns, ScanName(cfg.hash, ref)) !in s.scans
    case DeliverPod(k, upTo) => Position(s.podSeen, k) < upTo <= |PodVersions(s, k)|
    case DeliverScan(k, upTo) => Position(s.scanSeen, k) < upTo <= |ScanVersions(s, k)|
    case ResyncPod(k) => CachedPod(s, k).Some?
    case ResyncScan(k) => CachedScan(s, k).Some?
    case Restart => true
  }

  predicate QueueEnabled(s: State, a: QueueAction) {
    match a
    case HandlePod(note) => note in s.podNotes
    case HandleScan(note) => note in s.scanNotes
    case MapScan(note, listFails) => note in s.mapNotes
    case AddMapped(k) => k in s.mapped
    case PodTimer(k) => k in s.podTimers
    case ScanTimer(k) => k in s.scanTimers
  }

  /** The run of `k` has the program counter the action needs. */
  predicate PodEnabled(s: State, k: Key, a: PodAction) {
    if a.StartPod? then k in s.podDirty && k !in s.podRuns
    else
      k in s.podRuns &&
      var run := s.podRuns[k];
      match a
      case DoGetPod(fails) => run.PodFetch?
      case FailResolver => run.Resolving? && run.i == 0
      case DoResolve(digest) => run.Resolving? && run.i < |run.images|
      case DoBeginChecks => run.Resolving? && run.i == |run.images|
      case DoGetScan(fails) => run.Checking? && run.i < |run.images|
      case DoCreateScan(outcome) => run.Creating? && run.i < |run.images|
      case DoUpdatePod(outcome) => AboutToUpdate(run)
      case _ => run.Checking? && run.i == |run.images| && run.pending != []
  }

  predicate ScanEnabled(s: State, k: Key, a: ScanAction) {
    if a.StartScan? then k in s.scanDirty && k !in s.scanRuns
    else
      k in s.scanRuns &&
      var run := s.scanRuns[k];
      match a
      case DoFetchScan(fails) => run.ScanFetch?
      case DoAsk(answer, now) => run.Asking?
      case DoTrigger(reply) => run.Triggering?
      case _ => run.Writing?
  }

  function EnvApply(cfg: Config, s: State, a: EnvAction): State {
    match a
    case EditPod(k, pod) => StorePod(s, k, pod)
    case OtherCreate(ns, ref, labelled) => CreateByOther(cfg, s, ns, ref, labelled)
    case DeliverPod(k, upTo) => DeliverPodEvent(s, k, upTo)
    case DeliverScan(k, upTo) => DeliverScanEvent(s, k, upTo)
    case ResyncPod(k) => ResyncPodEvent(s, k)
    case ResyncScan(k) => ResyncScanEvent(s, k)
    case Restart => RestartProcess(s)
  }

  function QueueApply(cfg: Config, s: State, a: QueueAction): State {
    match a
    case HandlePod(note) => HandlePodNote(s, note)
    case HandleScan(note) => HandleScanNote(s, note)
    case MapScan(note, listFails) => MapScanNote(cfg, s, note, listFails)
    case AddMapped(k) => EnqueueMapped(s, k)
    case PodTimer(k) => FirePodTimer(s, k)
    case ScanTimer(k) => FireScanTimer(s, k)
  }

  /** What a step of the pod gate controller does to everything but its own run. */
  function PodEffect(cfg: Config, s: State, k: Key, a: PodAction): State
    requires PodEnabled(s, k, a)
  {
    match a
    case StartPod => s.(podDirty := s.podDirty - {k})
    case DoResolve(digest) => s.(resolved := s.resolved + Answers(cfg, k, s.podRuns[k], digest))
    case DoBeginChecks => s.(used := s.used + Names(cfg, k, s.podRuns[k].images))
    case DoCreateScan(outcome) => CreateScan(cfg, s, k, s.podRuns[k].images[s.podRuns[k].i], outcome)
    case DoUpdatePod(outcome) => UpdatePod(s, k, s.podRuns[k], outcome)
    case Wait => s.(waiting := s.waiting[k := Halt(s.podRuns[k].version, s.podRuns[k].pending)])
    case _ => s
  }

  /** The references whose scans a run is about to consult. */
  function Names(cfg: Config, k: Key, images: seq<ImageRef>): set<(string, ImageRef)> {
    set img | img in images :: (cfg.ScanNamespace(k.namespace), img)
  }

  function PodMove(cfg: Config, s: State, k: Key, a: PodAction): Move<PodRun>
    requires PodEnabled(s, k, a)
  {
    match a
    case StartPod => Continue(PodFetch)
    case DoGetPod(fails) => AfterGetPod(cfg, s, k, fails)
    case FailResolver => Retry
    case DoResolve(digest) => AfterResolve(s.podRuns[k], digest)
    case DoBeginChecks => Continue(Checking(s.podRuns[k].version, s.podRuns[k].pod, s.podRuns[k].images, 0, []))
    case DoGetScan(fails) => AfterGetScan(cfg, s, k, s.podRuns[k], fails)
    case DoCreateScan(outcome) => AfterCreate(s.podRuns[k], outcome)
    case DoUpdatePod(outcome) => AfterUpdate(s, k, s.podRuns[k], outcome)
    case Wait => Finish
  }

  function PodApply(cfg: Config, s: State, k: Key, a: PodAction): State
    requires PodEnabled(s, k, a)
  {
    MovePod(PodEffect(cfg, s, k, a), k, PodMove(cfg, s, k, a))
  }

  /** What a step of the ImageScan controller does to everything but its own run. */
  function ScanEffect(s: State, k: Key, a: ScanAction): State
    requires ScanEnabled(s, k, a)
  {
    match a
    case StartScan => s.(scanDirty := s.scanDirty - {k})
    case DoAsk(answer, now) => s.(asked := s.asked + [Asked(s.scanRuns[k].scan.spec, answer)])
    case DoTrigger(reply) => s.(asked := s.asked + [Triggered(s.scanRuns[k].scan.spec, reply)])
    case DoWriteStatus(outcome) => WriteAndReturn(s, k, s.scanRuns[k], outcome)
    case _ => s
  }

  function ScanMove(s: State, k: Key, a: ScanAction): Move<ScanRun>
    requires ScanEnabled(s, k, a)
  {
    match a
    case StartScan => Continue(ScanFetch)
    case DoFetchScan(fails) => AfterFetch(s, k, fails)
    case DoAsk(answer, now) => AfterAsk(s.scanRuns[k], answer, now)
    case DoTrigger(reply) => AfterTriggering(s.scanRuns[k], reply)
    case DoWriteStatus(outcome) => AfterWrite(s, k, s.scanRuns[k], outcome)
  }

  function ScanApply(s: State, k: Key, a: ScanAction): State
    requires ScanEnabled(s, k, a)
  {
    MoveScan(ScanEffect(s, k, a), k, ScanMove(s, k, a))
  }

  predicate Enabled(cfg: Config, s: State, a: Action) {
    match a
    case Env(e) => EnvEnabled(cfg, s, e)
    case Queue(q) => QueueEnabled(s, q)
    case PodStep(k, p) => PodEnabled(s, k, p)
    case ScanStep(k, c) => ScanEnabled(s, k, c)
  }

  function Apply(cfg: Config, s: State, a: Action): State
    requires Enabled(cfg, s, a)
  {
    match a
    case Env(e) => EnvApply(cfg, s, e)
    case Queue(q) => QueueApply(cfg, s, q)
    case PodStep(k, p) => PodApply(cfg, s, k, p)
    case ScanStep(k, c) => ScanApply(s, k, c)
  }

  // ----- runs -----

  /** Executing a list of actions from `s`, each enabled when its turn comes. */
  ghost predicate Executes(cfg: Config, s: State, actions: seq<Action>, t: State)
    decreases |actions|
  {
    if actions == [] then s == t
    else Enabled(cfg, s, actions[0]) && Executes(cfg, Apply(cfg, s, actions[0]), actions[1..], t)
  }

  ghost predicate Reaches(cfg: Config, s: State, t: State) {
    exists actions :: Executes(cfg, s, actions, t)
  }

  ghost predicate Reachable(cfg: Config, t: State) {
    Reaches(cfg, INIT, t)
  }

  lemma {:induction false} ExecutesAppend(cfg: Config, s: State, xs: seq<Action>, t: State, ys: seq<Action>, u: State)
    requires Executes(cfg, s, xs, t) && Executes(cfg, t, ys, u)
    ensures Executes(cfg, s, xs + ys, u)
    decreases |xs|
  {
    hide Enabled, Apply;
    if xs == [] {
      assert xs + ys == ys;
    } else {
      assert (xs + ys)[1..] == xs[1..] + ys;
      ExecutesAppend(cfg, Apply(cfg, s, xs[0]), xs[1..], t, ys, u);
    }
  }

  lemma ReachesTransitive(cfg: Config, s: State, t: State, u: State)
    requires Reaches(cfg, s, t) && Reaches(cfg, t, u)
    ensures Reaches(cfg, s, u)
  {
    hide Enabled, Apply;
    var xs :| Executes(cfg, s, xs, t);
    var ys :| Executes(cfg, t, ys, u);
    ExecutesAppend(cfg, s, xs, t, ys, u);
  }

  lemma ReachesStep(cfg: Config, s: State, t: State, a: Action)
    requires Reaches(cfg, s, t) && Enabled(cfg, t, a)
    ensures Reaches(cfg, s, Apply(cfg, t, a))
  {
    hide Enabled, Apply;
    assert Executes(cfg, t, [a], Apply(cfg, t, a));
    ReachesTransitive(cfg, s, t, Apply(cfg, t, a));
  }
}
