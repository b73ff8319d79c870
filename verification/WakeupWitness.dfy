/**
 * Both hypotheses of the wakeup theorem are needed. One execution, for any two references that
 * share a scan name: the reconcile of a first pod creates the scan, with the label of its own image;
 * that pod is deleted; a second pod, with the other image, goes to wait on the same scan; the scan is
 * Registered, and the system comes to rest with the second pod still gated. It happens when the image
 * hashes differ, and also when the List of the mapper fails.
 */
module WakeupWitness {
  import opened Wrappers
  import opened ImageRefs
  import opened Objects
  import opened PodGates
  import opened ScanPhases
  import opened Protocol
  import opened Wakeup
  import opened NoLostWakeup

  /** The digest a reconcile can consult this reference under. */
  predicate Consultable(ref: ImageRef) {
    && ref.image != "" && WellFormedDigest(ref.digest)
    && (PinnedDigest(ref.image) == "" || PinnedDigest(ref.image) == ref.digest)
  }

  ghost predicate Leads(cfg: Config, s: State, a: Action, t: State) {
    Enabled(cfg, s, a) && Apply(cfg, s, a) == t
  }

  lemma Go(cfg: Config, o: State, s: State, a: Action, t: State)
    requires Reaches(cfg, o, s) && Leads(cfg, s, a, t)
    ensures Reaches(cfg, o, t)
  {
    hide Reaches, Enabled, Apply;
    ReachesStep(cfg, o, s, a);
  }

  lemma Start(cfg: Config)
    ensures Reachable(cfg, INIT)
  {
    hide Enabled, Apply;
    assert Executes(cfg, INIT, [], INIT);
  }

  // ----- steps of the pod side, wherever they happen -----

  function Edited(s: State, k: Key, pod: Option<Pod>): State {
    s.(pods := s.pods[k := PodVersions(s, k) + [pod]])
  }

  function Delivered(s: State, k: Key, was: nat, now: nat): State {
    s.(podSeen := s.podSeen[k := now], podNotes := {Note(k, was, now)})
  }

  function Queued(s: State, k: Key): State { s.(podNotes := {}, podDirty := {k}) }

  function Started(s: State, k: Key): State { s.(podDirty := {}, podRuns := map[k := PodFetch]) }

  /** The run goes on from `s`, where it is the only one. */
  function Continued(s: State, k: Key, run: PodRun): State { s.(podRuns := map[k := run]) }

  lemma Edit(cfg: Config, s: State, k: Key, pod: Option<Pod>)
    requires pod.Some? || StoredPod(s, k).Some?
    ensures Leads(cfg, s, Env(EditPod(k, pod)), Edited(s, k, pod))
  {
    hide QueueEnabled, QueueApply, PodEnabled, PodApply, ScanEnabled, ScanApply;
  }

  lemma Deliver(cfg: Config, s: State, k: Key, was: nat, now: nat)
    requires s.podNotes == {} && Position(s.podSeen, k) == was < now <= |PodVersions(s, k)|
    ensures Leads(cfg, s, Env(DeliverPod(k, now)), Delivered(s, k, was, now))
  {
    hide QueueEnabled, QueueApply, PodEnabled, PodApply, ScanEnabled, ScanApply, PodVersions, Position;
    hide StorePod, CreateByOther, DeliverScanEvent, ResyncPodEvent, ResyncScanEvent, RestartProcess;
  }

  lemma Handle(cfg: Config, s: State, k: Key, note: Note)
    requires s.podNotes == {note} && note.key == k && s.podDirty == {} && ShowsGate(s, note)
    ensures Leads(cfg, s, Queue(HandlePod(note)), Queued(s, k))
  {
    hide EnvEnabled, EnvApply, PodEnabled, PodApply, ScanEnabled, ScanApply, ShowsGate;
  }

  lemma Begin(cfg: Config, s: State, k: Key)
    requires s.podDirty == {k} && s.podRuns == map[]
    ensures Leads(cfg, s, PodStep(k, StartPod), Started(s, k))
  {
    hide EnvEnabled, EnvApply, QueueEnabled, QueueApply, ScanEnabled, ScanApply;
    hide AfterGetPod, AfterResolve, AfterGetScan, AfterCreate, AfterUpdate, UpdatePod, CreateScan, Names, Answers;
  }

  lemma OnlyPodRun(s: State, k: Key, run: PodRun)
    requires s.podRuns.Keys == {k}
    ensures MovePod(s, k, Continue(run)) == Continued(s, k, run)
  {
    assert s.podRuns[k := run] == map[k := run];
  }

  /** The only run takes a step and goes on. */
  lemma Proceed(cfg: Config, s: State, k: Key, a: PodAction, run: PodRun)
    requires s.podRuns.Keys == {k} && PodEnabled(s, k, a) && PodMove(cfg, s, k, a) == Continue(run)
    requires PodEffect(cfg, s, k, a).podRuns == s.podRuns
    ensures Leads(cfg, s, PodStep(k, a), Continued(PodEffect(cfg, s, k, a), k, run))
  {
    hide EnvEnabled, EnvApply, QueueEnabled, QueueApply, ScanEnabled, ScanApply, PodEnabled, PodEffect, PodMove;
    hide MovePod;
    OnlyPodRun(PodEffect(cfg, s, k, a), k, run);
  }

  /** The only run takes its last step, and asks for nothing more. */
  lemma Conclude(cfg: Config, s: State, k: Key, a: PodAction)
    requires s.podRuns.Keys == {k} && PodEnabled(s, k, a) && PodMove(cfg, s, k, a) == Finish
    requires PodEffect(cfg, s, k, a).podRuns == s.podRuns
    ensures Leads(cfg, s, PodStep(k, a), PodEffect(cfg, s, k, a).(podRuns := map[]))
  {
    hide EnvEnabled, EnvApply, QueueEnabled, QueueApply, ScanEnabled, ScanApply, PodEnabled, PodEffect, PodMove;
    assert s.podRuns - {k} == map[];
  }

  /** No pod event, queued pod or pod reconcile. */
  predicate PodSideIdle(s: State) {
    s.podNotes == {} && s.podDirty == {} && s.podRuns == map[]
  }

  /** An event brings the pod from version `was` to `now`; the state its reconcile starts in. */
  function Awake(s: State, k: Key, now: nat): State {
    s.(podSeen := s.podSeen[k := now], podRuns := map[k := PodFetch])
  }

  lemma PodIsWoken(cfg: Config, o: State, s: State, k: Key, was: nat, now: nat)
    requires Reaches(cfg, o, s) && PodSideIdle(s) && Position(s.podSeen, k) == was < now <= |PodVersions(s, k)|
    requires ShowsGate(s, Note(k, was, now))
    ensures Reaches(cfg, o, Awake(s, k, now))
  {
    hide Reaches, Leads, Position, PodVersions, ShowsGate;
    Deliver(cfg, s, k, was, now);
    var d := Delivered(s, k, was, now);
    Go(cfg, o, s, Env(DeliverPod(k, now)), d);
    StillShows(s, d, Note(k, was, now));
    Handle(cfg, d, k, Note(k, was, now));
    Go(cfg, o, d, Queue(HandlePod(Note(k, was, now))), Queued(d, k));
    Begin(cfg, Queued(d, k), k);
    Go(cfg, o, Queued(d, k), PodStep(k, StartPod), Started(Queued(d, k), k));
    assert Started(Queued(d, k), k) == Awake(s, k, now);
  }

  lemma StillShows(s: State, t: State, note: Note)
    requires t.pods == s.pods && ShowsGate(s, note)
    ensures ShowsGate(t, note)
  {
  }

  // ----- a pod is created and its reconcile comes to the first scan -----

  function OneImagePod(image: string): Pod {
    Pod(map[], map[], [SCHEDULING_GATE], PodSpec([], [image], []))
  }

  function Fetched(ref: ImageRef): PodRun { Resolving(1, OneImagePod(ref.image), [FromImage(ref.image)], 0) }
  function Completed(ref: ImageRef): PodRun { Resolving(1, OneImagePod(ref.image), [ref], 1) }
  function Begun(ref: ImageRef): PodRun { Checking(1, OneImagePod(ref.image), [ref], 0, []) }

  lemma OnlyImage(image: string)
    requires image != ""
    ensures OneImagePod(image).Images() == [FromImage(image)]
  {
    hide FromImage;
    assert OneImagePod(image).spec.AllImages() == [] + [image];
    ExtractOne([], image);
  }

  lemma GetReads(cfg: Config, s: State, k: Key, ref: ImageRef)
    requires !cfg.filter.Excludes(k.namespace) && ref.image != ""
    requires Position(s.podSeen, k) == 1 && CachedPod(s, k) == Some(OneImagePod(ref.image))
    ensures AfterGetPod(cfg, s, k, false) == Continue(Fetched(ref))
  {
    hide FromImage, ExtractFromPodSpec, NamespaceFilter.Excludes, Position, CachedPod;
    OnlyImage(ref.image);
  }

  lemma PodIsFetched(cfg: Config, s: State, k: Key, ref: ImageRef)
    requires !cfg.filter.Excludes(k.namespace) && ref.image != "" && s.podRuns == map[k := PodFetch]
    requires Position(s.podSeen, k) == 1 && CachedPod(s, k) == Some(OneImagePod(ref.image))
    ensures Leads(cfg, s, PodStep(k, DoGetPod(false)), Continued(s, k, Fetched(ref)))
  {
    hide Leads, NamespaceFilter.Excludes, FromImage, Position, CachedPod, Fetched;
    hide AfterGetPod, AfterResolve, AfterGetScan, AfterCreate, AfterUpdate, UpdatePod, CreateScan, Names, Answers;
    GetReads(cfg, s, k, ref);
    Proceed(cfg, s, k, DoGetPod(false), Fetched(ref));
  }

  lemma AnswerCompletes(ref: ImageRef)
    requires Consultable(ref)
    ensures AfterResolve(Fetched(ref), Some(ref.digest)) == Continue(Completed(ref))
  {
    hide PinnedDigest, WellFormedDigest;
    assert [FromImage(ref.image)][0 := ref] == [ref];
  }

  function Noted(cfg: Config, s: State, k: Key, ref: ImageRef): State {
    s.(resolved := s.resolved + Answers(cfg, k, Fetched(ref), Some(ref.digest)))
  }

  lemma DigestIsResolved(cfg: Config, s: State, k: Key, ref: ImageRef)
    requires Consultable(ref) && s.podRuns == map[k := Fetched(ref)]
    ensures Leads(cfg, s, PodStep(k, DoResolve(Some(ref.digest))), Continued(Noted(cfg, s, k, ref), k, Completed(ref)))
  {
    hide Leads, Consultable, FromImage, Completed;
    hide AfterGetPod, AfterResolve, AfterGetScan, AfterCreate, AfterUpdate, UpdatePod, CreateScan, Names, Answers;
    AnswerCompletes(ref);
    Proceed(cfg, s, k, DoResolve(Some(ref.digest)), Completed(ref));
  }

  function Named(cfg: Config, s: State, k: Key, ref: ImageRef): State {
    s.(used := s.used + {(cfg.ScanNamespace(k.namespace), ref)})
  }

  lemma OnlyName(cfg: Config, k: Key, ref: ImageRef)
    ensures Names(cfg, k, [ref]) == {(cfg.ScanNamespace(k.namespace), ref)}
  {
    assert ref in [ref];
  }

  lemma ChecksAreBegun(cfg: Config, s: State, k: Key, ref: ImageRef)
    requires s.podRuns == map[k := Completed(ref)]
    ensures Leads(cfg, s, PodStep(k, DoBeginChecks), Continued(Named(cfg, s, k, ref), k, Begun(ref)))
  {
    hide Leads;
    hide AfterGetPod, AfterResolve, AfterGetScan, AfterCreate, AfterUpdate, UpdatePod, CreateScan, Names, Answers;
    OnlyName(cfg, k, ref);
    Proceed(cfg, s, k, DoBeginChecks, Begun(ref));
  }

  /** The state in which the reconcile of a new pod is about to read its only scan. */
  function Checks(cfg: Config, s: State, k: Key, ref: ImageRef): State {
    s.(pods := s.pods[k := [Some(OneImagePod(ref.image))]], podSeen := s.podSeen[k := 1],
       podRuns := map[k := Begun(ref)],
       resolved := s.resolved + Answers(cfg, k, Fetched(ref), Some(ref.digest)),
       used := s.used + {(cfg.ScanNamespace(k.namespace), ref)})
  }

  lemma NewPodShows(s: State, k: Key, pod: Pod)
    requires k !in s.pods && pod.Gated()
    ensures Edited(s, k, Some(pod)).pods[k] == [Some(pod)] && ShowsGate(Edited(s, k, Some(pod)), Note(k, 0, 1))
  {
    assert [] + [Some(pod)] == [Some(pod)];
  }

  lemma PodComesToChecks(cfg: Config, o: State, s: State, k: Key, ref: ImageRef)
    requires Reaches(cfg, o, s) && PodSideIdle(s) && k !in s.pods && k !in s.podSeen
    requires Consultable(ref) && !cfg.filter.Excludes(k.namespace)
    ensures Reaches(cfg, o, Checks(cfg, s, k, ref))
  {
    hide Reaches, Leads, WellFormedDigest, PinnedDigest, NamespaceFilter.Excludes, ShowsGate, Fetched, Completed;
    hide Answers;
    var pod := OneImagePod(ref.image);
    Edit(cfg, s, k, Some(pod));
    var e := Edited(s, k, Some(pod));
    Go(cfg, o, s, Env(EditPod(k, Some(pod))), e);
    NewPodShows(s, k, pod);
    PodIsWoken(cfg, o, e, k, 0, 1);
    RunComesToChecks(cfg, o, Awake(e, k, 1), k, ref);
    assert Continued(Named(cfg, Noted(cfg, Awake(e, k, 1), k, ref), k, ref), k, Begun(ref)) == Checks(cfg, s, k, ref);
  }

  lemma RunComesToChecks(cfg: Config, o: State, s: State, k: Key, ref: ImageRef)
    requires Reaches(cfg, o, s) && Consultable(ref) && !cfg.filter.Excludes(k.namespace)
    requires s.podRuns == map[k := PodFetch]
    requires Position(s.podSeen, k) == 1 && CachedPod(s, k) == Some(OneImagePod(ref.image))
    ensures Reaches(cfg, o, Continued(Named(cfg, Noted(cfg, s, k, ref), k, ref), k, Begun(ref)))
  {
    hide Reaches, Leads, NamespaceFilter.Excludes, WellFormedDigest, PinnedDigest, Position, CachedPod, Answers;
    hide Fetched, Completed, Begun;
    PodIsFetched(cfg, s, k, ref);
    var f := Continued(s, k, Fetched(ref));
    Go(cfg, o, s, PodStep(k, DoGetPod(false)), f);
    DigestIsResolved(cfg, f, k, ref);
    var c := Continued(Noted(cfg, f, k, ref), k, Completed(ref));
    Go(cfg, o, f, PodStep(k, DoResolve(Some(ref.digest))), c);
    ChecksAreBegun(cfg, c, k, ref);
    Go(cfg, o, c, PodStep(k, DoBeginChecks), Continued(Named(cfg, c, k, ref), k, Begun(ref)));
    assert Continued(Named(cfg, c, k, ref), k, Begun(ref))
           == Continued(Named(cfg, Noted(cfg, s, k, ref), k, ref), k, Begun(ref));
  }

  // ----- the reconcile goes to wait -----

  function Missing(ref: ImageRef): PodRun { Creating(1, OneImagePod(ref.image), [ref], 0, []) }
  function Pending(ref: ImageRef): PodRun { Checking(1, OneImagePod(ref.image), [ref], 1, [ref]) }

  lemma ReadsNoScan(cfg: Config, s: State, k: Key, ref: ImageRef)
    requires CachedScan(s, cfg.ScanKey(k.namespace, ref)).None?
    ensures AfterGetScan(cfg, s, k, Begun(ref), false) == Continue(Missing(ref))
  {
    hide ScanName, CachedScan;
  }

  lemma ScanIsMissing(cfg: Config, s: State, k: Key, ref: ImageRef)
    requires s.podRuns == map[k := Begun(ref)] && CachedScan(s, cfg.ScanKey(k.namespace, ref)).None?
    ensures Leads(cfg, s, PodStep(k, DoGetScan(false)), Continued(s, k, Missing(ref)))
  {
    hide Leads, ScanName, CachedScan, Missing;
    hide AfterGetPod, AfterResolve, AfterGetScan, AfterCreate, AfterUpdate, UpdatePod, CreateScan, Names, Answers;
    ReadsNoScan(cfg, s, k, ref);
    Proceed(cfg, s, k, DoGetScan(false), Missing(ref));
  }

  function Recorded(cfg: Config, s: State, k: Key, ref: ImageRef): State {
    s.(scans := s.scans[cfg.ScanKey(k.namespace, ref) := [NewScan(cfg, ref)]])
  }

  lemma CreateStores(cfg: Config, s: State, k: Key, ref: ImageRef)
    requires cfg.ScanKey(k.namespace, ref) !in s.scans && WellFormedDigest(ref.digest)
    ensures CreateScan(cfg, s, k, ref, Applied) == Recorded(cfg, s, k, ref)
  {
    hide ScanName, NewScan, WellFormedDigest;
    assert [] + [NewScan(cfg, ref)] == [NewScan(cfg, ref)];
  }

  lemma CreatedIsPending(ref: ImageRef)
    requires WellFormedDigest(ref.digest)
    ensures AfterCreate(Missing(ref), Applied) == Continue(Pending(ref))
  {
    hide WellFormedDigest;
    assert [] + [ref] == [ref];
  }

  /** The controller's own Create, which sets the label for good. */
  lemma ScanIsCreated(cfg: Config, s: State, k: Key, ref: ImageRef)
    requires s.podRuns == map[k := Missing(ref)] && cfg.ScanKey(k.namespace, ref) !in s.scans
    requires WellFormedDigest(ref.digest)
    ensures Leads(cfg, s, PodStep(k, DoCreateScan(Applied)), Continued(Recorded(cfg, s, k, ref), k, Pending(ref)))
  {
    hide Leads, ScanName, NewScan, WellFormedDigest, Pending;
    hide AfterGetPod, AfterResolve, AfterGetScan, AfterCreate, AfterUpdate, UpdatePod, CreateScan, Names, Answers;
    CreateStores(cfg, s, k, ref);
    CreatedIsPending(ref);
    Proceed(cfg, s, k, DoCreateScan(Applied), Pending(ref));
  }

  lemma ReadsUnregistered(cfg: Config, s: State, k: Key, ref: ImageRef)
    requires var scan := CachedScan(s, cfg.ScanKey(k.namespace, ref));
             scan.Some? && !scan.value.status.phase.Registered?
    ensures AfterGetScan(cfg, s, k, Begun(ref), false) == Continue(Pending(ref))
  {
    hide ScanName, CachedScan;
    assert [] + [ref] == [ref];
  }

  lemma ScanIsPending(cfg: Config, s: State, k: Key, ref: ImageRef)
    requires s.podRuns == map[k := Begun(ref)]
    requires var scan := CachedScan(s, cfg.ScanKey(k.namespace, ref));
             scan.Some? && !scan.value.status.phase.Registered?
    ensures Leads(cfg, s, PodStep(k, DoGetScan(false)), Continued(s, k, Pending(ref)))
  {
    hide Leads, ScanName, CachedScan, Pending;
    hide AfterGetPod, AfterResolve, AfterGetScan, AfterCreate, AfterUpdate, UpdatePod, CreateScan, Names, Answers;
    ReadsUnregistered(cfg, s, k, ref);
    Proceed(cfg, s, k, DoGetScan(false), Pending(ref));
  }

  function Halted(s: State, k: Key, ref: ImageRef): State {
    s.(podRuns := map[], waiting := s.waiting[k := Halt(1, [ref])])
  }

  lemma PodWaits(cfg: Config, s: State, k: Key, ref: ImageRef)
    requires s.podRuns == map[k := Pending(ref)]
    ensures Leads(cfg, s, PodStep(k, Wait), Halted(s, k, ref))
  {
    hide Leads;
    hide AfterGetPod, AfterResolve, AfterGetScan, AfterCreate, AfterUpdate, UpdatePod, CreateScan, Names, Answers;
    Conclude(cfg, s, k, Wait);
  }

  /** The first pod of an image: its reconcile creates the scan and goes to wait. */
  function FirstWaits(cfg: Config, s: State, k: Key, ref: ImageRef): State {
    Halted(Recorded(cfg, Checks(cfg, s, k, ref), k, ref), k, ref)
  }

  lemma RunsLeaveNoTrace(cfg: Config, s: State, k: Key, ref: ImageRef)
    ensures Halted(Continued(Recorded(cfg, Continued(s, k, Missing(ref)), k, ref), k, Pending(ref)), k, ref)
            == Halted(Recorded(cfg, s, k, ref), k, ref)
  {
    hide ScanName, NewScan;
  }

  lemma FirstPodWaits(cfg: Config, o: State, s: State, k: Key, ref: ImageRef)
    requires Reaches(cfg, o, Checks(cfg, s, k, ref)) && Consultable(ref)
    requires cfg.ScanKey(k.namespace, ref) !in s.scans && CachedScan(s, cfg.ScanKey(k.namespace, ref)).None?
    ensures Reaches(cfg, o, FirstWaits(cfg, s, k, ref))
  {
    hide Reaches, Leads, WellFormedDigest, PinnedDigest, ScanName, NewScan, Answers, Begun, Halted;
    var c := Checks(cfg, s, k, ref);
    ScanIsMissing(cfg, c, k, ref);
    var m := Continued(c, k, Missing(ref));
    Go(cfg, o, c, PodStep(k, DoGetScan(false)), m);
    ScanIsCreated(cfg, m, k, ref);
    var r := Continued(Recorded(cfg, m, k, ref), k, Pending(ref));
    Go(cfg, o, m, PodStep(k, DoCreateScan(Applied)), r);
    PodWaits(cfg, r, k, ref);
    Go(cfg, o, r, PodStep(k, Wait), Halted(r, k, ref));
    RunsLeaveNoTrace(cfg, c, k, ref);
  }

  /** A pod whose scan is already there, and not Registered. */
  function NextWaits(cfg: Config, s: State, k: Key, ref: ImageRef): State {
    Halted(Checks(cfg, s, k, ref), k, ref)
  }

  lemma NextPodWaits(cfg: Config, o: State, s: State, k: Key, ref: ImageRef)
    requires Reaches(cfg, o, Checks(cfg, s, k, ref))
    requires var scan := CachedScan(s, cfg.ScanKey(k.namespace, ref));
             scan.Some? && !scan.value.status.phase.Registered?
    ensures Reaches(cfg, o, NextWaits(cfg, s, k, ref))
  {
    hide Reaches, Leads, ScanName, Answers, Begun;
    var c := Checks(cfg, s, k, ref);
    ScanIsPending(cfg, c, k, ref);
    var p := Continued(c, k, Pending(ref));
    Go(cfg, o, c, PodStep(k, DoGetScan(false)), p);
    PodWaits(cfg, p, k, ref);
    Go(cfg, o, p, PodStep(k, Wait), Halted(p, k, ref));
    assert Halted(p, k, ref) == NextWaits(cfg, s, k, ref);
  }

  // ----- the first pod is deleted -----

  function Gone(s: State, k: Key): State {
    s.(pods := s.pods[k := PodVersions(s, k) + [None]], podSeen := s.podSeen[k := 2])
  }

  lemma GetReadsNothing(cfg: Config, s: State, k: Key)
    requires !cfg.filter.Excludes(k.namespace) && CachedPod(s, k).None? && s.podRuns == map[k := PodFetch]
    ensures Leads(cfg, s, PodStep(k, DoGetPod(false)), s.(podRuns := map[]))
  {
    hide Leads, NamespaceFilter.Excludes, CachedPod;
    hide AfterResolve, AfterGetScan, AfterCreate, AfterUpdate, UpdatePod, CreateScan, Names, Answers;
    Conclude(cfg, s, k, DoGetPod(false));
  }

  lemma PodIsDeleted(cfg: Config, o: State, s: State, k: Key, pod: Pod)
    requires Reaches(cfg, o, s) && PodSideIdle(s) && !cfg.filter.Excludes(k.namespace)
    requires k in s.pods && s.pods[k] == [Some(pod)] && pod.Gated() && Position(s.podSeen, k) == 1
    ensures Reaches(cfg, o, Gone(s, k))
  {
    hide Reaches, Leads, NamespaceFilter.Excludes;
    var e := Edited(s, k, None);
    Edit(cfg, s, k, None);
    Go(cfg, o, s, Env(EditPod(k, None)), e);
    assert e.pods[k] == [Some(pod), None];
    PodIsWoken(cfg, o, e, k, 1, 2);
    var w := Awake(e, k, 2);
    GetReadsNothing(cfg, w, k);
    Go(cfg, o, w, PodStep(k, DoGetPod(false)), w.(podRuns := map[]));
    assert w.(podRuns := map[]) == Gone(s, k);
  }

  // ----- steps of the scan side, wherever they happen -----

  function ScanDelivered(s: State, k: Key, note: Note): State {
    s.(scanSeen := s.scanSeen[k := note.now], scanNotes := {note}, mapNotes := {note})
  }

  function ScanQueued(s: State, k: Key): State { s.(scanNotes := {}, scanDirty := {k}) }

  function NoneMapped(s: State, fails: bool): State { s.(mapNotes := {}, listFailed := s.listFailed || fails) }

  function ScanStarted(s: State, k: Key): State { s.(scanDirty := {}, scanRuns := map[k := ScanFetch]) }

  function ScanContinued(s: State, k: Key, run: ScanRun): State { s.(scanRuns := map[k := run]) }

  /** No scan event, queued scan or scan reconcile. */
  predicate ScanSideIdle(s: State) {
    s.scanNotes == {} && s.mapNotes == {} && s.scanDirty == {} && s.scanRuns == map[]
  }

  lemma ScanIsDelivered(cfg: Config, s: State, k: Key, note: Note)
    requires ScanSideIdle(s) && note == Note(k, Position(s.scanSeen, k), note.now)
    requires Position(s.scanSeen, k) < note.now <= |ScanVersions(s, k)|
    ensures Leads(cfg, s, Env(DeliverScan(k, note.now)), ScanDelivered(s, k, note))
  {
    hide QueueEnabled, QueueApply, PodEnabled, PodApply, ScanEnabled, ScanApply, ScanVersions, Position;
    hide StorePod, CreateByOther, DeliverPodEvent, ResyncPodEvent, ResyncScanEvent, RestartProcess;
  }

  lemma ScanIsHandled(cfg: Config, s: State, k: Key, note: Note)
    requires s.scanNotes == {note} && note.key == k && s.scanDirty == {}
    ensures Leads(cfg, s, Queue(HandleScan(note)), ScanQueued(s, k))
  {
    hide EnvEnabled, EnvApply, PodEnabled, PodApply, ScanEnabled, ScanApply, ShowsGate, Targets;
  }

  lemma NobodyIsMapped(cfg: Config, s: State, note: Note, fails: bool)
    requires s.mapNotes == {note} && (fails || Targets(cfg, s, note) == {})
    ensures Leads(cfg, s, Queue(MapScan(note, fails)), NoneMapped(s, fails))
  {
    hide EnvEnabled, EnvApply, PodEnabled, PodApply, ScanEnabled, ScanApply, ShowsGate, Targets;
  }

  lemma ScanIsStarted(cfg: Config, s: State, k: Key)
    requires s.scanDirty == {k} && s.scanRuns == map[]
    ensures Leads(cfg, s, ScanStep(k, StartScan), ScanStarted(s, k))
  {
    hide EnvEnabled, EnvApply, QueueEnabled, QueueApply, PodEnabled, PodApply;
    hide AfterFetch, AfterAsk, AfterTriggering, AfterWrite, WriteAndReturn;
  }

  lemma OnlyScanRun(s: State, k: Key, run: ScanRun)
    requires s.scanRuns.Keys == {k}
    ensures MoveScan(s, k, Continue(run)) == ScanContinued(s, k, run)
  {
    assert s.scanRuns[k := run] == map[k := run];
  }

  lemma ScanProceeds(cfg: Config, s: State, k: Key, a: ScanAction, run: ScanRun)
    requires s.scanRuns.Keys == {k} && ScanEnabled(s, k, a) && ScanMove(s, k, a) == Continue(run)
    requires ScanEffect(s, k, a).scanRuns == s.scanRuns
    ensures Leads(cfg, s, ScanStep(k, a), ScanContinued(ScanEffect(s, k, a), k, run))
  {
    hide EnvEnabled, EnvApply, QueueEnabled, QueueApply, PodEnabled, PodApply, ScanEnabled, ScanEffect, ScanMove;
    hide MoveScan;
    OnlyScanRun(ScanEffect(s, k, a), k, run);
  }

  lemma ScanConcludes(cfg: Config, s: State, k: Key, a: ScanAction)
    requires s.scanRuns.Keys == {k} && ScanEnabled(s, k, a) && ScanMove(s, k, a) == Finish
    requires ScanEffect(s, k, a).scanRuns == s.scanRuns
    ensures Leads(cfg, s, ScanStep(k, a), ScanEffect(s, k, a).(scanRuns := map[]))
  {
    hide EnvEnabled, EnvApply, QueueEnabled, QueueApply, PodEnabled, PodApply, ScanEnabled, ScanEffect, ScanMove;
    assert s.scanRuns - {k} == map[];
  }

  /** An event brings the scan to version `now`, and no pod is mapped; the state its reconcile starts in. */
  function ScanAwake(s: State, k: Key, now: nat, fails: bool): State {
    s.(scanSeen := s.scanSeen[k := now], scanRuns := map[k := ScanFetch], listFailed := s.listFailed || fails)
  }

  lemma SameTargets(cfg: Config, s: State, t: State, note: Note)
    requires t.pods == s.pods && t.podSeen == s.podSeen && t.scans == s.scans
    ensures Targets(cfg, t, note) == Targets(cfg, s, note)
  {
    hide Concerns;
  }

  lemma ScanIsWoken(cfg: Config, o: State, s: State, k: Key, note: Note, fails: bool)
    requires Reaches(cfg, o, s) && ScanSideIdle(s) && note == Note(k, Position(s.scanSeen, k), note.now)
    requires Position(s.scanSeen, k) < note.now <= |ScanVersions(s, k)| && (fails || Targets(cfg, s, note) == {})
    ensures Reaches(cfg, o, ScanAwake(s, k, note.now, fails))
  {
    hide Reaches, Leads, Position, ScanVersions, Targets;
    ScanIsDelivered(cfg, s, k, note);
    var d := ScanDelivered(s, k, note);
    Go(cfg, o, s, Env(DeliverScan(k, note.now)), d);
    ScanIsHandled(cfg, d, k, note);
    var q := ScanQueued(d, k);
    Go(cfg, o, d, Queue(HandleScan(note)), q);
    SameTargets(cfg, s, q, note);
    NobodyIsMapped(cfg, q, note, fails);
    var m := NoneMapped(q, fails);
    Go(cfg, o, q, Queue(MapScan(note, fails)), m);
    ScanIsStarted(cfg, m, k);
    Go(cfg, o, m, ScanStep(k, StartScan), ScanStarted(m, k));
    assert ScanStarted(m, k) == ScanAwake(s, k, note.now, fails);
  }

  // ----- the scan is asked for, and Registered -----

  function Done(scan: Scan): Scan { Scan(scan.imageHash, scan.spec, RegisteredStatus(scan.status, 0)) }

  lemma ScanIsFetched(cfg: Config, s: State, k: Key, scan: Scan)
    requires s.scanRuns == map[k := ScanFetch] && Position(s.scanSeen, k) == 1
    requires CachedScan(s, k) == Some(scan) && !scan.status.phase.Terminal()
    ensures Leads(cfg, s, ScanStep(k, DoFetchScan(false)), ScanContinued(s, k, Asking(1, scan)))
  {
    hide Leads, CachedScan, Position, AfterAsk, AfterTriggering, AfterWrite, WriteAndReturn;
    ScanProceeds(cfg, s, k, DoFetchScan(false), Asking(1, scan));
  }

  function Recalled(s: State, scan: Scan): State { s.(asked := s.asked + [Asked(scan.spec, Found)]) }

  lemma ScanIsFound(cfg: Config, s: State, k: Key, scan: Scan)
    requires s.scanRuns == map[k := Asking(1, scan)]
    ensures Leads(cfg, s, ScanStep(k, DoAsk(Found, 0)),
            ScanContinued(Recalled(s, scan), k, Writing(1, Done(scan), AfterFound)))
  {
    hide Leads, AfterFetch, AfterTriggering, AfterWrite, WriteAndReturn, RegisteredStatus;
    ScanProceeds(cfg, s, k, DoAsk(Found, 0), Writing(1, Done(scan), AfterFound));
  }

  /** Aqua's answer is in the reconcile's hands, and not yet written. */
  function Held(s: State, k: Key, scan: Scan): State {
    s.(scanSeen := s.scanSeen[k := 1], asked := s.asked + [Asked(scan.spec, Found)],
       scanRuns := map[k := Writing(1, Done(scan), AfterFound)])
  }

  lemma NewScanMapsNobody(cfg: Config, s: State, k: Key, scan: Scan)
    requires k in s.scans && s.scans[k] == [scan] && !scan.status.phase.Terminal()
    ensures Targets(cfg, s, Note(k, 0, 1)) == {}
  {
    hide Concerns;
  }

  lemma ScanIsHeld(cfg: Config, o: State, s: State, k: Key, scan: Scan)
    requires Reaches(cfg, o, s) && ScanSideIdle(s) && k in s.scans && s.scans[k] == [scan] && k !in s.scanSeen
    requires !scan.status.phase.Terminal() && !s.listFailed
    ensures Reaches(cfg, o, Held(s, k, scan))
  {
    hide Reaches, Leads, Done, Targets;
    NewScanMapsNobody(cfg, s, k, scan);
    ScanIsWoken(cfg, o, s, k, Note(k, 0, 1), false);
    var w := ScanAwake(s, k, 1, false);
    ScanIsFetched(cfg, w, k, scan);
    var a := ScanContinued(w, k, Asking(1, scan));
    Go(cfg, o, w, ScanStep(k, DoFetchScan(false)), a);
    ScanIsFound(cfg, a, k, scan);
    var f := ScanContinued(Recalled(a, scan), k, Writing(1, Done(scan), AfterFound));
    Go(cfg, o, a, ScanStep(k, DoAsk(Found, 0)), f);
    assert f == Held(s, k, scan);
  }

  function Written(s: State, k: Key, scan: Scan): State { s.(scans := s.scans[k := [scan, Done(scan)]]) }

  lemma StatusIsStored(s: State, k: Key, scan: Scan)
    requires k in s.scans && s.scans[k] == [scan] && !scan.status.phase.Terminal()
    ensures StoreScan(s, k, Done(scan)) == Written(s, k, scan)
  {
    assert [scan] + [Done(scan)] == [scan, Done(scan)];
  }

  lemma OneVersion(s: State, k: Key, scan: Scan)
    requires k in s.scans && s.scans[k] == [scan]
    ensures |ScanVersions(s, k)| == 1
  {
  }

  lemma WriteRegisters(s: State, k: Key, scan: Scan)
    requires k in s.scans && s.scans[k] == [scan] && !scan.status.phase.Terminal()
    ensures var run := Writing(1, Done(scan), AfterFound);
            AfterWrite(s, k, run, Applied) == Finish && WriteAndReturn(s, k, run, Applied) == Written(s, k, scan)
  {
    hide StoreScan, Done, ScanVersions;
    StatusIsStored(s, k, scan);
    OneVersion(s, k, scan);
    assert RequestedDelay(s, k, Writing(1, Done(scan), AfterFound), Applied) == None;
  }

  lemma StatusIsWritten(cfg: Config, s: State, k: Key, scan: Scan)
    requires k in s.scans && s.scans[k] == [scan] && !scan.status.phase.Terminal()
    requires s.scanRuns == map[k := Writing(1, Done(scan), AfterFound)]
    ensures Leads(cfg, s, ScanStep(k, DoWriteStatus(Applied)), Written(s, k, scan).(scanRuns := map[]))
  {
    hide Leads, AfterFetch, AfterAsk, AfterTriggering, AfterWrite, WriteAndReturn, Done;
    WriteRegisters(s, k, scan);
    ScanConcludes(cfg, s, k, DoWriteStatus(Applied));
  }

  /** The scan is Registered, its event handled and its reconcile over, and no pod was mapped. */
  function Closed(s: State, k: Key, scan: Scan, fails: bool): State {
    s.(scans := s.scans[k := [scan, Done(scan)]], scanSeen := s.scanSeen[k := 2], scanRuns := map[],
       listFailed := s.listFailed || fails)
  }

  lemma RegisteredIsLeftAlone(cfg: Config, s: State, k: Key)
    requires s.scanRuns == map[k := ScanFetch] && CachedScan(s, k).Some?
    requires CachedScan(s, k).value.status.phase.Terminal()
    ensures Leads(cfg, s, ScanStep(k, DoFetchScan(false)), s.(scanRuns := map[]))
  {
    hide Leads, CachedScan, AfterAsk, AfterTriggering, AfterWrite, WriteAndReturn;
    ScanConcludes(cfg, s, k, DoFetchScan(false));
  }

  lemma ScanSettles(cfg: Config, o: State, s: State, k: Key, scan: Scan, fails: bool)
    requires Reaches(cfg, o, s) && k in s.scans && s.scans[k] == [scan] && !scan.status.phase.Terminal()
    requires s.scanNotes == {} && s.mapNotes == {} && s.scanDirty == {} && Position(s.scanSeen, k) == 1
    requires s.scanRuns == map[k := Writing(1, Done(scan), AfterFound)]
    requires fails || Targets(cfg, Written(s, k, scan), Note(k, 1, 2)) == {}
    ensures Reaches(cfg, o, Closed(s, k, scan, fails))
  {
    hide Reaches, Leads, Targets;
    StatusIsWritten(cfg, s, k, scan);
    var r := Written(s, k, scan).(scanRuns := map[]);
    Go(cfg, o, s, ScanStep(k, DoWriteStatus(Applied)), r);
    SameTargets(cfg, Written(s, k, scan), r, Note(k, 1, 2));
    ScanIsWoken(cfg, o, r, k, Note(k, 1, 2), fails);
    var w := ScanAwake(r, k, 2, fails);
    RegisteredIsLeftAlone(cfg, w, k);
    Go(cfg, o, w, ScanStep(k, DoFetchScan(false)), w.(scanRuns := map[]));
    assert w.(scanRuns := map[]) == Closed(s, k, scan, fails);
  }

  // ----- the execution -----

  /** The first pod in namespace `ns` runs image `a`, the second `b`; the List of the mapper fails if `fails`. */
  datatype Story = Story(cfg: Config, ns: string, a: ImageRef, b: ImageRef, fails: bool)
  {
    ghost predicate Valid() {
      && !cfg.filter.Excludes(ns) && Consultable(a) && Consultable(b)
      && ScanName(cfg.hash, a) == ScanName(cfg.hash, b)
      && (fails || ImageHash(cfg.hash, a.image) != ImageHash(cfg.hash, b.image))
    }

    function First(): Key { Key(ns, "first") }
    function Second(): Key { Key(ns, "second") }
    function SK(): Key { cfg.ScanKey(ns, b) }
    function Fresh(): Scan { NewScan(cfg, a) }
    function Ref(ref: ImageRef): (string, ImageRef) { (cfg.ScanNamespace(ns), ref) }
  }

  function T1(w: Story): State {
    State(map[w.First() := [Some(OneImagePod(w.a.image)), None]], map[w.SK() := [w.Fresh()]],
          map[w.First() := 2], map[],
          {}, {}, {}, {}, {}, {}, map[], {}, {}, map[], [], {}, {w.Ref(w.a)},
          Answers(w.cfg, w.First(), Fetched(w.a), Some(w.a.digest)), map[w.First() := Halt(1, [w.a])], false)
  }

  function Stuck(w: Story): State {
    State(map[w.First() := [Some(OneImagePod(w.a.image)), None], w.Second() := [Some(OneImagePod(w.b.image))]],
          map[w.SK() := [w.Fresh(), Done(w.Fresh())]], map[w.First() := 2, w.Second() := 1], map[w.SK() := 2],
          {}, {}, {}, {}, {}, {}, map[], {}, {}, map[], [Asked(w.a, Found)], {}, {w.Ref(w.a), w.Ref(w.b)},
          Answers(w.cfg, w.First(), Fetched(w.a), Some(w.a.digest))
            + Answers(w.cfg, w.Second(), Fetched(w.b), Some(w.b.digest)),
          map[w.First() := Halt(1, [w.a]), w.Second() := Halt(1, [w.b])], w.fails)
  }

  /** The state in which the first pod waits. */
  function T0(w: Story): State {
    State(map[w.First() := [Some(OneImagePod(w.a.image))]], map[w.SK() := [w.Fresh()]], map[w.First() := 1], map[],
          {}, {}, {}, {}, {}, {}, map[], {}, {}, map[], [], {}, {w.Ref(w.a)},
          Answers(w.cfg, w.First(), Fetched(w.a), Some(w.a.digest)), map[w.First() := Halt(1, [w.a])], false)
  }

  lemma T0IsFirst(w: Story)
    requires w.Valid()
    ensures FirstWaits(w.cfg, INIT, w.First(), w.a) == T0(w)
  {
    hide ScanName, NewScan, Answers, Fetched, Consultable, ImageHash, NamespaceFilter.Excludes, OneImagePod;
  }

  lemma T1IsGone(w: Story)
    ensures Gone(T0(w), w.First()) == T1(w)
  {
    hide ScanName, NewScan, Answers, Fetched, OneImagePod;
    assert [Some(OneImagePod(w.a.image))] + [None] == [Some(OneImagePod(w.a.image)), None];
  }

  /** The first pod comes, has its scan created, and goes. */
  lemma FirstPodComesAndGoes(w: Story)
    requires w.Valid()
    ensures Reachable(w.cfg, T1(w))
  {
    hide Reaches, ScanName, NewScan, Answers, WellFormedDigest, PinnedDigest, NamespaceFilter.Excludes, ImageHash, T1;
    Start(w.cfg);
    PodComesToChecks(w.cfg, INIT, INIT, w.First(), w.a);
    FirstPodWaits(w.cfg, INIT, INIT, w.First(), w.a);
    T0IsFirst(w);
    PodIsDeleted(w.cfg, INIT, T0(w), w.First(), OneImagePod(w.a.image));
    T1IsGone(w);
  }

  lemma T1IsReady(w: Story)
    ensures var s := T1(w);
            && ScanSideIdle(s) && PodSideIdle(s) && w.Second() !in s.pods && w.Second() !in s.podSeen && !s.listFailed
            && w.SK() in s.scans && s.scans[w.SK()] == [w.Fresh()] && w.SK() !in s.scanSeen
    ensures CachedScan(Held(T1(w), w.SK(), w.Fresh()), w.SK()) == Some(w.Fresh()) && w.Fresh().status.phase.Unset?
  {
    hide ScanName, ImageHash, Answers, Fetched, OneImagePod, Done;
  }

  /** The second pod comes while Aqua's answer is being written, and goes to wait. */
  lemma SecondPodWaits(w: Story)
    requires w.Valid() && Reachable(w.cfg, T1(w))
    ensures Reachable(w.cfg, NextWaits(w.cfg, Held(T1(w), w.SK(), w.Fresh()), w.Second(), w.b))
  {
    hide Reaches, ScanName, Answers, WellFormedDigest, PinnedDigest, NamespaceFilter.Excludes, ImageHash, T1;
    hide CachedScan;
    T1IsReady(w);
    ScanIsHeld(w.cfg, INIT, T1(w), w.SK(), w.Fresh());
    var h := Held(T1(w), w.SK(), w.Fresh());
    PodComesToChecks(w.cfg, INIT, h, w.Second(), w.b);
    NextPodWaits(w.cfg, INIT, h, w.Second(), w.b);
  }

  /** The state in which the second pod waits, and the status is still to be written. */
  function T2(w: Story): State {
    Stuck(w).(scans := map[w.SK() := [w.Fresh()]], scanSeen := map[w.SK() := 1],
              scanRuns := map[w.SK() := Writing(1, Done(w.Fresh()), AfterFound)], listFailed := false)
  }

  lemma T2IsNext(w: Story)
    ensures NextWaits(w.cfg, Held(T1(w), w.SK(), w.Fresh()), w.Second(), w.b) == T2(w)
  {
    hide ScanName, ImageHash, Answers, Fetched, Done, OneImagePod;
  }

  lemma StuckIsClosed(w: Story)
    ensures Closed(T2(w), w.SK(), w.Fresh(), w.fails) == Stuck(w)
  {
    hide ScanName, NewScan, Answers, Fetched, Done, OneImagePod;
  }

  lemma OtherHash(w: Story, scan: Scan)
    requires w.Valid() && !w.fails && scan.imageHash == ImageHash(w.cfg.hash, w.a.image)
    ensures !Concerns(w.cfg, w.SK().namespace, scan, w.Second(), OneImagePod(w.b.image))
  {
    hide ScanName, ImageHash, Consultable, NamespaceFilter.Excludes;
    assert ImageHash(w.cfg.hash, w.a.image) != "";
  }

  /** The mapper does not find the second pod, and the first is gone. */
  lemma RegistrationMapsNobody(w: Story)
    requires w.Valid()
    ensures w.fails || Targets(w.cfg, Stuck(w), Note(w.SK(), 1, 2)) == {}
  {
    hide ScanName, ImageHash, Story.Valid, Concerns, Answers;
    if !w.fails {
      OtherHash(w, w.Fresh());
      OtherHash(w, Done(w.Fresh()));
    }
  }

  lemma StuckIsReachable(w: Story)
    requires w.Valid()
    ensures Reachable(w.cfg, Stuck(w))
  {
    hide Reaches, ScanName, Answers, Story.Valid, ImageHash, Targets;
    FirstPodComesAndGoes(w);
    SecondPodWaits(w);
    T2IsNext(w);
    StuckIsClosed(w);
    RegistrationMapsNobody(w);
    SameTargets(w.cfg, Stuck(w), Written(T2(w), w.SK(), w.Fresh()), Note(w.SK(), 1, 2));
    ScanSettles(w.cfg, INIT, T2(w), w.SK(), w.Fresh(), w.fails);
  }

  // ----- where it ends -----

  /**
   * In scope, gated, and left alone: the system is at rest, the last reconcile of the pod read it as it
   * is stored and went to wait for `ref` only, and the scan for `ref` is Registered.
   */
  ghost predicate Forgotten(cfg: Config, s: State, k: Key, ref: ImageRef) {
    && Need(cfg, s, k) && AtRest(s)
    && k in s.waiting && s.waiting[k] == Halt(|PodVersions(s, k)|, [ref])
    && RefOf(cfg, s.resolved, k, StoredPod(s, k).value, ref)
    && StoredScan(s, cfg.ScanKey(k.namespace, ref)).Some?
    && StoredScan(s, cfg.ScanKey(k.namespace, ref)).value.status.phase.Registered?
  }

  /** The two notions exclude each other, in every state. */
  lemma ForgottenIsNotServed(cfg: Config, s: State, k: Key, ref: ImageRef)
    requires Forgotten(cfg, s, k, ref)
    ensures !Served(cfg, s, k)
  {
    hide AtRest, Need, Open, Due, RefOf, MatchHash, ImageHash, ScanName, StoredScan;
    RestIsNotDue(s, k);
    RestIsNotOpen(s, cfg.ScanKey(k.namespace, ref));
    forall x ensures !WaitsOn(cfg, s, k, x) {
      assert x in [ref] ==> x == ref;
    }
  }

  lemma StuckRefOf(w: Story)
    requires w.Valid()
    ensures RefOf(w.cfg, Stuck(w).resolved, w.Second(), OneImagePod(w.b.image), w.b)
  {
    hide WellFormedDigest, PinnedDigest, ScanName, ImageHash, Config.Mirrored, NewScan, Done, Config.ScanKey;
    OnlyImage(w.b.image);
    assert OneImagePod(w.b.image).Images()[0] == FromImage(w.b.image);
  }

  lemma StuckIsAtRest(w: Story)
    ensures AtRest(Stuck(w))
  {
    hide ScanName, ImageHash, Answers, Done;
  }

  lemma StuckPod(w: Story)
    requires w.Valid()
    ensures Need(w.cfg, Stuck(w), w.Second()) && StoredPod(Stuck(w), w.Second()) == Some(OneImagePod(w.b.image))
    ensures |PodVersions(Stuck(w), w.Second())| == 1
  {
    hide ScanName, ImageHash, Answers, Done, Consultable, NamespaceFilter.Excludes;
  }

  lemma StuckScan(w: Story)
    ensures var scan := StoredScan(Stuck(w), w.SK()); scan.Some? && scan.value.status.phase.Registered?
  {
    hide ScanName, ImageHash, Answers;
  }

  lemma StuckIsForgotten(w: Story)
    requires w.Valid()
    ensures Forgotten(w.cfg, Stuck(w), w.Second(), w.b)
  {
    hide ScanName, ImageHash, RefOf, Story.Valid, AtRest, Need, StoredPod, StoredScan, PodVersions, Answers, Done;
    StuckRefOf(w);
    StuckIsAtRest(w);
    StuckPod(w);
    StuckScan(w);
  }

  /** The execution, for every choice of the two references. */
  lemma PodIsForgotten(w: Story)
    requires w.Valid()
    ensures Reachable(w.cfg, Stuck(w)) && Forgotten(w.cfg, Stuck(w), w.Second(), w.b)
    ensures Stuck(w).listFailed == w.fails && Stuck(w).used == {w.Ref(w.a), w.Ref(w.b)}
  {
    hide Reachable, Forgotten, Story.Valid;
    StuckIsReachable(w);
    StuckIsForgotten(w);
  }

  // ----- exactly when no wakeup is lost -----

  /** References that share a scan name are labelled alike. */
  ghost predicate NamesAgree(cfg: Config, refs: set<ImageRef>) {
    forall a, b :: a in refs && b in refs && ScanName(cfg.hash, a) == ScanName(cfg.hash, b)
                   ==> ImageHash(cfg.hash, a.image) == ImageHash(cfg.hash, b.image)
  }

  /** Only these references were ever consulted, whatever the namespace. */
  ghost predicate UsesOnly(s: State, refs: set<ImageRef>) {
    forall use :: use in s.used ==> use.1 in refs
  }

  /** No execution that consults only these references, with no failing List, leaves a gated pod unserved. */
  ghost predicate NeverForgets(cfg: Config, refs: set<ImageRef>) {
    forall s: State, k :: Reachable(cfg, s) && UsesOnly(s, refs) && !s.listFailed && Need(cfg, s, k)
      ==> Served(cfg, s, k)
  }

  lemma AgreementServes(cfg: Config, refs: set<ImageRef>, s: State, k: Key)
    requires NamesAgree(cfg, refs) && Reachable(cfg, s) && UsesOnly(s, refs) && !s.listFailed && Need(cfg, s, k)
    ensures Served(cfg, s, k)
  {
    hide Reachable, Need, Served, ScanName, ImageHash;
    forall ns, a, b | (ns, a) in s.used && (ns, b) in s.used && ScanName(cfg.hash, a) == ScanName(cfg.hash, b)
      ensures ImageHash(cfg.hash, a.image) == ImageHash(cfg.hash, b.image)
    {
      assert (ns, a).1 in refs && (ns, b).1 in refs;
    }
    NeedExactly(cfg, s, k);
    EveryGatedPodIsServed(cfg, s, k);
  }

  /**
   * The label hypothesis, exactly: for any set of references some namespace in scope can consult,
   * no wakeup is ever lost if and only if references of the set that share a scan name share the
   * hash of the image string.
   */
  lemma LabelsDecideWakeup(cfg: Config, ns: string, refs: set<ImageRef>)
    requires !cfg.filter.Excludes(ns)
    requires forall ref :: ref in refs ==> Consultable(ref)
    ensures NeverForgets(cfg, refs) <==> NamesAgree(cfg, refs)
  {
    hide Reachable, Need, Served, UsesOnly, Consultable, Stuck, ScanName, ImageHash, Forgotten;
    if NamesAgree(cfg, refs) {
      forall s: State, k | Reachable(cfg, s) && UsesOnly(s, refs) && !s.listFailed && Need(cfg, s, k)
        ensures Served(cfg, s, k)
      {
        AgreementServes(cfg, refs, s, k);
      }
    } else {
      var a, b :| a in refs && b in refs && ScanName(cfg.hash, a) == ScanName(cfg.hash, b)
                  && ImageHash(cfg.hash, a.image) != ImageHash(cfg.hash, b.image);
      DisagreementForgets(Story(cfg, ns, a, b, false), refs);
    }
  }

  lemma DisagreementForgets(w: Story, refs: set<ImageRef>)
    requires w.Valid() && !w.fails && w.a in refs && w.b in refs
    ensures !NeverForgets(w.cfg, refs)
  {
    hide Reachable, Need, Served, Stuck, Story.Valid;
    PodIsForgotten(w);
    ForgottenIsNotServed(w.cfg, Stuck(w), w.Second(), w.b);
    assert UsesOnly(Stuck(w), refs);
    assert Need(w.cfg, Stuck(w), w.Second());
  }

  /** The List hypothesis is needed for every image: one failing List loses the wakeup even with a single image. */
  lemma FailingListForgets(cfg: Config, ns: string, ref: ImageRef) returns (s: State, k: Key)
    requires !cfg.filter.Excludes(ns) && Consultable(ref)
    ensures Reachable(cfg, s) && LabelsAgree(cfg, s.used) && s.listFailed
    ensures Forgotten(cfg, s, k, ref)
  {
    hide Reachable, Forgotten, Served, Stuck, Consultable, ScanName, ImageHash;
    var w := Story(cfg, ns, ref, ref, true);
    PodIsForgotten(w);
    s, k := Stuck(w), w.Second();
  }
}
