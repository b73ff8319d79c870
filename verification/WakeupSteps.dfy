/** Every step keeps every pod woken; hence the wakeup theorem over all executions. */
module WakeupSteps {
  import opened Wrappers
  import opened Filtering
  import opened ImageRefs
  import opened Objects
  import opened PodGates
  import opened Protocol
  import opened ScanInvariant
  import opened GateInvariant
  import opened GateSafety
  import opened Wakeup

  // ----- pods that are due stay due -----

  /** Nothing the pod could be due by has gone. */
  ghost predicate DueStays(s: State, t: State, k: Key) {
    && PodVersions(t, k) == PodVersions(s, k)
    && Position(t.podSeen, k) == Position(s.podSeen, k)
    && s.podNotes <= t.podNotes && s.mapped <= t.mapped && s.podTimers <= t.podTimers
    && (k in s.podDirty ==> k in t.podDirty)
  }

  lemma DueIfStays(s: State, t: State, k: Key)
    requires DueStays(s, t, k) && Due(s, k)
    ensures Due(t, k)
  {
  }

  lemma DuePods(s: State, t: State, k: Key)
    requires DueStays(s, t, k)
    ensures Due(s, k) ==> Due(t, k)
  {
    hide DueStays, Due;
    if Due(s, k) {
      DueIfStays(s, t, k);
    }
  }

  // ----- the environment -----

  lemma EditedPodIsDue(s: State, k: Key, pod: Option<Pod>)
    requires PodsSeen(s)
    ensures Due(StorePod(s, k, pod), k)
  {
  }

  lemma DeliveredPodIsDue(s: State, k: Key, upTo: nat)
    requires upTo <= |PodVersions(s, k)|
    ensures Due(DeliverPodEvent(s, k, upTo), k)
  {
    var t := DeliverPodEvent(s, k, upTo);
    assert Note(k, Position(s.podSeen, k), upTo) in t.podNotes;
  }

  lemma EveryPodIsDueAfterRestart(cfg: Config, s: State, k: Key)
    ensures Woken(cfg, RestartProcess(s), k)
  {
    hide Busy, Waits;
  }

  lemma DeliveryAdvances(s: State, key: Key, upTo: nat)
    requires upTo <= |ScanVersions(s, key)|
    ensures ScansAdvance(s, DeliverScanEvent(s, key, upTo))
  {
    var t := DeliverScanEvent(s, key, upTo);
    var note := Note(key, Position(s.scanSeen, key), upTo);
    forall x | Open(s, x) ensures Open(t, x) {
      assert note in t.mapNotes;
    }
  }

  lemma EditKeepsWoken(cfg: Config, s: State, k0: Key, pod: Option<Pod>, k: Key)
    requires Inv(cfg, StorePod(s, k0, pod)) && LabelsAgree(cfg, s.used) && PodsSeen(s) && Woken(cfg, s, k)
    ensures Woken(cfg, StorePod(s, k0, pod), k)
  {
    hide Inv, LabelsAgree, Busy, Waits, Due, Need, ScansAdvance;
    var t := StorePod(s, k0, pod);
    if k == k0 {
      EditedPodIsDue(s, k, pod);
    } else {
      hide Woken, PodsSeen;
      DuePods(s, t, k);
      UntouchedScansAdvance(s, t);
      WokenAdvances(cfg, s, t, k);
    }
  }

  lemma DeliverPodKeepsWoken(cfg: Config, s: State, k0: Key, upTo: nat, k: Key)
    requires Inv(cfg, DeliverPodEvent(s, k0, upTo)) && LabelsAgree(cfg, s.used) && Woken(cfg, s, k)
    requires upTo <= |PodVersions(s, k0)|
    ensures Woken(cfg, DeliverPodEvent(s, k0, upTo), k)
  {
    hide Inv, LabelsAgree, Busy, Waits, Due, Need, ScansAdvance;
    var t := DeliverPodEvent(s, k0, upTo);
    if k == k0 {
      DeliveredPodIsDue(s, k, upTo);
    } else {
      hide Woken;
      DuePods(s, t, k);
      UntouchedScansAdvance(s, t);
      WokenAdvances(cfg, s, t, k);
    }
  }

  /** A step that leaves the pods, their queues and their runs alone. */
  ghost predicate PodSideSame(s: State, t: State) {
    && t.pods == s.pods && t.podSeen == s.podSeen && t.podRuns == s.podRuns && s.podNotes <= t.podNotes
    && t.podDirty == s.podDirty && t.mapped == s.mapped && t.podTimers == s.podTimers && t.waiting == s.waiting
  }

  lemma PodSideSameKeepsWoken(cfg: Config, s: State, t: State, k: Key)
    requires Inv(cfg, t) && LabelsAgree(cfg, t.used) && Woken(cfg, s, k)
    requires PodSideSame(s, t) && ScansAdvance(s, t)
    ensures Woken(cfg, t, k)
  {
    hide Inv, LabelsAgree, Woken, Due, Need, ScansAdvance;
    DuePods(s, t, k);
    WokenAdvances(cfg, s, t, k);
  }

  lemma OtherCreateIsScanSide(cfg: Config, s: State, ns: string, ref: ImageRef, labelled: bool)
    ensures var t := CreateByOther(cfg, s, ns, ref, labelled);
            PodSideSame(s, t) && t.scanSeen == s.scanSeen && t.mapNotes == s.mapNotes && t.resolved == s.resolved
  {
    hide ScanName, NewScan;
  }

  lemma EnvStepKeepsWoken(cfg: Config, s: State, a: EnvAction, k: Key)
    requires Inv(cfg, s) && Kept(cfg, s, EnvApply(cfg, s, a)) && EnvEnabled(cfg, s, a)
    requires LabelsAgree(cfg, EnvApply(cfg, s, a).used) && PodsSeen(s) && Woken(cfg, s, k)
    ensures Woken(cfg, EnvApply(cfg, s, a), k)
  {
    hide ScanInv, GateInv, LabelsAgree, Woken, PodsSeen, PodsExtend, Extends, ScansAdvance, ScanName, WellFormedDigest;
    hide StorePod, DeliverPodEvent, DeliverScanEvent, RestartProcess, CreateByOther;
    var t := EnvApply(cfg, s, a);
    match a {
      case EditPod(k0, pod) =>
        EditLeavesUsed(s, k0, pod);
        EditKeepsWoken(cfg, s, k0, pod, k);
      case DeliverPod(k0, upTo) =>
        EditLeavesUsed(s, k0, None);
        DeliverLeavesUsed(s, k0, upTo);
        DeliverPodKeepsWoken(cfg, s, k0, upTo, k);
      case Restart => EveryPodIsDueAfterRestart(cfg, s, k);
      case DeliverScan(key, upTo) =>
        DeliveryAdvances(s, key, upTo);
        DeliveryIsScanSide(s, key, upTo);
        PodSideSameKeepsWoken(cfg, s, t, k);
      case OtherCreate(ns, ref, labelled) =>
        OtherCreateIsScanSide(cfg, s, ns, ref, labelled);
        StayingEventsAdvance(cfg, s, t);
        PodSideSameKeepsWoken(cfg, s, t, k);
      case _ =>
        StayingEventsAdvance(cfg, s, t);
        PodSideSameKeepsWoken(cfg, s, t, k);
    }
  }

  lemma EditLeavesUsed(s: State, k: Key, pod: Option<Pod>)
    ensures StorePod(s, k, pod).used == s.used
  {
  }

  lemma DeliverLeavesUsed(s: State, k: Key, upTo: nat)
    ensures DeliverPodEvent(s, k, upTo).used == s.used
  {
  }

  lemma DeliveryIsScanSide(s: State, key: Key, upTo: nat)
    ensures PodSideSame(s, DeliverScanEvent(s, key, upTo))
  {
  }

  // ----- event handlers and timers -----

  /** Handling the event of the newest version of a gated pod enqueues it. */
  lemma HandlingKeepsDue(cfg: Config, s: State, note: Note, k: Key)
    requires Need(cfg, s, k) && Due(s, k)
    ensures Due(HandlePodNote(s, note), k)
  {
    var t := HandlePodNote(s, note);
    if n :| n in s.podNotes && n.key == k && n.now == |PodVersions(s, k)| {
      if n != note {
        assert n in t.podNotes;
      }
    }
  }

  lemma EnqueuingKeepsDue(s: State, k0: Key, k: Key)
    requires Due(s, k)
    ensures Due(EnqueueMapped(s, k0), k)
  {
    assert EnqueueMapped(s, k0).podNotes == s.podNotes;
  }

  lemma TimerKeepsDue(s: State, k0: Key, k: Key)
    requires Due(s, k)
    ensures Due(FirePodTimer(s, k0), k)
  {
    assert FirePodTimer(s, k0).podNotes == s.podNotes;
  }

  lemma RefUsesHash(cfg: Config, resolved: set<Resolution>, k: Key, pod: Pod, ref: ImageRef)
    requires RefOf(cfg, resolved, k, pod, ref)
    ensures UsesHash(cfg, pod, ImageHash(cfg.hash, ref.image))
  {
    hide ImageHash;
    ExtractedImages(pod.spec.AllImages());
    var j :| 0 <= j < |pod.Images()| && Settled(cfg, resolved, k, pod.Images()[j], ref);
    assert pod.Images()[j] in pod.Images();
  }

  /** The mapper finds every pod that a terminal scan kept waiting, unless the pod has a newer event to come. */
  lemma MapperFindsPod(cfg: Config, s: State, k: Key, pod: Pod, ref: ImageRef)
    requires Need(cfg, s, k) && StoredPod(s, k) == Some(pod) && Blocks(cfg, s, k, pod, ref) && PodsSeen(s)
    requires Position(s.podSeen, k) == |PodVersions(s, k)|
    requires StoredScan(s, cfg.ScanKey(k.namespace, ref)).value.status.phase.Terminal()
    ensures var key := cfg.ScanKey(k.namespace, ref); k in s.podSeen && Wakes(cfg, s, key, |ScanVersions(s, key)|, k)
  {
    hide RefOf, MatchHash, UsesHash, ScanName, ImageHash;
    RefUsesHash(cfg, s.resolved, k, pod, ref);
  }

  lemma MappedIsDue(cfg: Config, s: State, note: Note, k: Key)
    requires k in s.podSeen && Wakes(cfg, s, note.key, note.now, k)
    ensures Due(MapScanNote(cfg, s, note, false), k)
  {
    hide Wakes;
    assert k in Targets(cfg, s, note);
  }

  lemma MappingKeepsLatest(cfg: Config, s: State, note: Note, key: Key)
    requires Open(s, key) && !(note.key == key && note.now == |ScanVersions(s, key)|)
    ensures Open(MapScanNote(cfg, s, note, false), key)
  {
    hide Targets;
    var t := MapScanNote(cfg, s, note, false);
    if n :| n in s.mapNotes && n.key == key && n.now == |ScanVersions(s, key)| {
      assert n in t.mapNotes;
    }
  }

  lemma MappingKeepsUnregistered(cfg: Config, s: State, note: Note, key: Key)
    requires Open(s, key)
    requires !StoredScan(s, key).value.status.phase.Registered?
    ensures Open(MapScanNote(cfg, s, note, false), key)
  {
    hide Targets;
  }

  lemma MappingKeepsDue(cfg: Config, s: State, note: Note, k: Key)
    requires Due(s, k) || Position(s.podSeen, k) < |PodVersions(s, k)|
    ensures Due(MapScanNote(cfg, s, note, false), k)
  {
    hide Targets;
    assert MapScanNote(cfg, s, note, false).podNotes == s.podNotes;
  }

  lemma MappingKeepsBlocks(cfg: Config, s: State, note: Note, k: Key, pod: Pod, ref: ImageRef)
    requires Need(cfg, s, k) && StoredPod(s, k) == Some(pod) && Blocks(cfg, s, k, pod, ref) && PodsSeen(s)
    ensures var t := MapScanNote(cfg, s, note, false); Blocks(cfg, t, k, pod, ref) || Due(t, k)
  {
    hide RefOf, MatchHash, Due, Open, Need, ScanName, ImageHash, Wakes, Targets;
    var t := MapScanNote(cfg, s, note, false);
    var key := cfg.ScanKey(k.namespace, ref);
    OpenIsStored(s, key);
    if Position(s.podSeen, k) < |PodVersions(s, k)| {
      MappingKeepsDue(cfg, s, note, k);
    } else if !StoredScan(s, key).value.status.phase.Registered? {
      MappingKeepsUnregistered(cfg, s, note, key);
    } else if note.key == key && note.now == |ScanVersions(s, key)| {
      MapperFindsPod(cfg, s, k, pod, ref);
      MappedIsDue(cfg, s, note, k);
    } else {
      MappingKeepsLatest(cfg, s, note, key);
    }
  }

  /** A run that read the current version has the stored pod in hand. */
  lemma CopyIsStored(cfg: Config, s: State, k: Key)
    requires GateInv(cfg, s) && k in s.podRuns && !s.podRuns[k].PodFetch?
    requires s.podRuns[k].version == |PodVersions(s, k)|
    ensures StoredPod(s, k) == Some(s.podRuns[k].pod)
  {
    hide GateInv, GoodProgress;
    RunOfInv(cfg, s, k);
  }

  lemma MappingKeepsRun(cfg: Config, s: State, note: Note, k: Key, run: PodRun)
    requires Need(cfg, s, k) && PodsSeen(s) && Covered(cfg, s, k, run)
    requires !run.PodFetch? && StoredPod(s, k) == Some(run.pod)
    ensures var t := MapScanNote(cfg, s, note, false); Covered(cfg, t, k, run) || Due(t, k)
  {
    hide Need, PodsSeen, Blocks, Due, StoredPod, ScanName, Targets;
    if run.Checking? || run.Creating? {
      if run.pending != [] {
        MappingKeepsBlocks(cfg, s, note, k, run.pod, run.pending[0]);
      }
      if run.Creating? && run.i < |run.images| && cfg.ScanKey(k.namespace, run.images[run.i]) in s.scans {
        MappingKeepsBlocks(cfg, s, note, k, run.pod, run.images[run.i]);
      }
    }
  }

  lemma MappingKeepsBusy(cfg: Config, s: State, note: Note, k: Key)
    requires GateInv(cfg, s) && Need(cfg, s, k) && PodsSeen(s) && Busy(cfg, s, k)
    ensures var t := MapScanNote(cfg, s, note, false); Busy(cfg, t, k) || Due(t, k)
  {
    hide GateInv, PodsSeen, Need, Covered, Due, Targets;
    if !s.podRuns[k].PodFetch? {
      CopyIsStored(cfg, s, k);
      MappingKeepsRun(cfg, s, note, k, s.podRuns[k]);
    }
  }

  lemma MappingKeepsWoken(cfg: Config, s: State, note: Note, k: Key)
    requires GateInv(cfg, s) && PodsSeen(s) && Woken(cfg, s, k)
    ensures Woken(cfg, MapScanNote(cfg, s, note, false), k)
  {
    hide GateInv, Blocks, Due, Targets, Covered;
    var t := MapScanNote(cfg, s, note, false);
    if Need(cfg, s, k) {
      if Due(s, k) {
        MappingKeepsDue(cfg, s, note, k);
      } else if k in s.podRuns {
        MappingKeepsBusy(cfg, s, note, k);
      } else {
        var pod := StoredPod(s, k).value;
        var ref :| ref in s.waiting[k].pending && Blocks(cfg, s, k, pod, ref);
        MappingKeepsBlocks(cfg, s, note, k, pod, ref);
      }
    }
  }

  lemma QueueStepKeepsDue(cfg: Config, s: State, a: QueueAction, k: Key)
    requires !a.MapScan? && Need(cfg, s, k) && Due(s, k)
    ensures Due(QueueApply(cfg, s, a), k)
  {
    hide Due, Need, ShowsGate, MapScanNote, HandlePodNote, EnqueueMapped, FirePodTimer;
    match a
    case HandlePod(note) => HandlingKeepsDue(cfg, s, note, k);
    case AddMapped(k0) => EnqueuingKeepsDue(s, k0, k);
    case PodTimer(k0) => TimerKeepsDue(s, k0, k);
    case _ => DuePods(s, QueueApply(cfg, s, a), k);
  }

  /** The other handlers and timers touch neither the stores nor the runs. */
  lemma QueueStepLeavesRuns(cfg: Config, s: State, a: QueueAction, k: Key)
    requires !a.MapScan?
    ensures SamePod(s, QueueApply(cfg, s, a), k) && ScansAdvance(s, QueueApply(cfg, s, a))
  {
    hide ShowsGate, MapScanNote, ScansAdvance, SamePod;
    UntouchedScansAdvance(s, QueueApply(cfg, s, a));
    UntouchedPods(s, QueueApply(cfg, s, a), k);
  }

  lemma UntouchedPods(s: State, t: State, k: Key)
    requires t.pods == s.pods && t.podRuns == s.podRuns && t.waiting == s.waiting
    ensures SamePod(s, t, k)
  {
  }

  lemma QueueStepKeepsWoken(cfg: Config, s: State, a: QueueAction, k: Key)
    requires Inv(cfg, s) && Inv(cfg, QueueApply(cfg, s, a))
    requires Hypotheses(cfg, QueueApply(cfg, s, a)) && PodsSeen(s) && Woken(cfg, s, k)
    ensures Woken(cfg, QueueApply(cfg, s, a), k)
  {
    hide ScanInv, GateInv, LabelsAgree, Woken, PodsSeen, Due, Need, ScansAdvance, SamePod;
    hide HandlePodNote, HandleScanNote, EnqueueMapped, FirePodTimer, FireScanTimer, Targets;
    if a.MapScan? {
      MappingKeepsWoken(cfg, s, a.note, k);
    } else {
      QueueStepLeavesRuns(cfg, s, a, k);
      if Need(cfg, s, k) && Due(s, k) {
        QueueStepKeepsDue(cfg, s, a, k);
      }
      WokenAdvances(cfg, s, QueueApply(cfg, s, a), k);
    }
  }

  // ----- the ImageScan controller -----

  lemma WriteIsScanSide(s: State, k: Key, run: ScanRun, outcome: Outcome)
    requires run.Writing?
    ensures var t := WriteAndReturn(s, k, run, outcome);
            PodSideSame(s, t) && t.scanSeen == s.scanSeen && t.mapNotes == s.mapNotes && t.used == s.used
              && t.resolved == s.resolved
  {
    hide RequestedDelay, ScanWriteLands;
  }

  lemma ScanStepKeepsWoken(cfg: Config, s: State, k0: Key, a: ScanAction, k: Key)
    requires Inv(cfg, s) && ScanEnabled(s, k0, a) && Kept(cfg, s, ScanApply(s, k0, a))
    requires LabelsAgree(cfg, ScanApply(s, k0, a).used) && Woken(cfg, s, k)
    ensures Woken(cfg, ScanApply(s, k0, a), k)
  {
    hide ScanInv, GateInv, PodsExtend, Extends, LabelsAgree, Woken, ScansAdvance, WriteAndReturn, ScanMove;
    var t := ScanApply(s, k0, a);
    if a.DoWriteStatus? {
      WriteIsScanSide(s, k0, s.scanRuns[k0], a.outcome);
    }
    StayingEventsAdvance(cfg, s, t);
    PodSideSameKeepsWoken(cfg, s, t, k);
  }

  // ----- the pod gate controller, seen from another pod -----

  /** What the effect of a step leaves alone: the events, the queues of other pods, and every run. */
  ghost predicate EffectBounds(s: State, t: State, k0: Key) {
    && t.podSeen == s.podSeen && t.podNotes == s.podNotes && t.mapped == s.mapped && t.podTimers == s.podTimers
    && t.podRuns == s.podRuns && t.scanSeen == s.scanSeen && t.mapNotes == s.mapNotes && s.resolved <= t.resolved
    && (forall k :: k in s.waiting && k != k0 ==> k in t.waiting && t.waiting[k] == s.waiting[k])
    && t.podDirty + {k0} == s.podDirty + {k0}
    && forall k :: k != k0 ==> PodVersions(t, k) == PodVersions(s, k)
  }

  lemma StorePodBounds(s: State, k: Key, pod: Option<Pod>)
    ensures EffectBounds(s, StorePod(s, k, pod), k)
  {
  }

  lemma StoreScanBounds(s: State, k0: Key, key: Key, scan: Scan)
    ensures EffectBounds(s, StoreScan(s, key, scan), k0)
  {
    hide StoredScan, ScanVersions;
  }

  lemma PlainBounds(s: State, k0: Key, dirty: set<Key>, used: set<(string, ImageRef)>)
    requires dirty + {k0} == s.podDirty + {k0}
    ensures EffectBounds(s, s.(podDirty := dirty, used := used), k0)
  {
  }

  /** A step that only adds to the answers on record. */
  lemma ResolvedBounds(s: State, k: Key, resolved: set<Resolution>)
    requires s.resolved <= resolved
    ensures EffectBounds(s, s.(resolved := resolved), k)
  {
  }

  lemma HaltBounds(s: State, k: Key, halt: Halt)
    ensures EffectBounds(s, s.(waiting := s.waiting[k := halt]), k)
  {
  }

  lemma PodEffectBounds(cfg: Config, s: State, k0: Key, a: PodAction)
    requires PodEnabled(s, k0, a)
    ensures EffectBounds(s, PodEffect(cfg, s, k0, a), k0)
  {
    hide EffectBounds, StorePod, StoreScan, PodWriteLands, Names, ScanName, NewScan, WellFormedDigest, Answers;
    PlainBounds(s, k0, s.podDirty, s.used);
    if a.StartPod? {
      PlainBounds(s, k0, s.podDirty - {k0}, s.used);
    } else if a.DoBeginChecks? {
      PlainBounds(s, k0, s.podDirty, s.used + Names(cfg, k0, s.podRuns[k0].images));
    } else if a.DoResolve? {
      ResolvedBounds(s, k0, s.resolved + Answers(cfg, k0, s.podRuns[k0], a.digest));
    } else if a.Wait? {
      HaltBounds(s, k0, Halt(s.podRuns[k0].version, s.podRuns[k0].pending));
    } else if a.DoCreateScan? {
      var ref := s.podRuns[k0].images[s.podRuns[k0].i];
      StoreScanBounds(s, k0, cfg.ScanKey(k0.namespace, ref), NewScan(cfg, ref));
    } else if a.DoUpdatePod? {
      StorePodBounds(s, k0, Some(Ungated(s.podRuns[k0].pod)));
    }
  }

  lemma MoveBounds(s: State, t: State, k0: Key, move: Move<PodRun>, k: Key)
    requires EffectBounds(s, t, k0) && k != k0
    ensures SamePod(s, MovePod(t, k0, move), k) && DueStays(s, MovePod(t, k0, move), k)
  {
    assert k in s.podDirty ==> k in t.podDirty + {k0};
  }

  lemma MoveAdvances(cfg: Config, s: State, t: State, k0: Key, move: Move<PodRun>)
    requires EffectBounds(s, t, k0) && Extends(s.scans, t.scans)
    ensures ScanEventsStay(s, MovePod(t, k0, move))
  {
    hide Extends;
  }

  lemma PodStepKeepsOthersWoken(cfg: Config, s: State, k0: Key, a: PodAction, k: Key)
    requires Inv(cfg, s) && PodEnabled(s, k0, a) && Kept(cfg, s, PodApply(cfg, s, k0, a)) && k != k0
    requires LabelsAgree(cfg, PodApply(cfg, s, k0, a).used) && Woken(cfg, s, k)
    ensures Woken(cfg, PodApply(cfg, s, k0, a), k)
  {
    hide ScanInv, GateInv, PodsExtend, Extends, LabelsAgree, Woken, ScansAdvance, PodEffect, PodMove, PodEnabled;
    hide EffectBounds, SamePod, DueStays, Due, Need, ScanEventsStay;
    var e := PodEffect(cfg, s, k0, a);
    var move := PodMove(cfg, s, k0, a);
    var t := PodApply(cfg, s, k0, a);
    PodEffectBounds(cfg, s, k0, a);
    EffectGrows(cfg, s, k0, a);
    MoveBounds(s, e, k0, move, k);
    MoveAdvances(cfg, s, e, k0, move);
    StayingEventsAdvance(cfg, s, t);
    DuePods(s, t, k);
    WokenAdvances(cfg, s, t, k);
  }

  // ----- the pod gate controller, seen from its own pod -----

  lemma RetryIsDue(e: State, k: Key)
    ensures Due(MovePod(e, k, Retry), k)
  {
  }

  lemma MoveKeepsDue(s: State, k: Key, move: Move<PodRun>)
    requires Due(s, k)
    ensures Due(MovePod(s, k, move), k)
  {
    assert MovePod(s, k, move).podNotes == s.podNotes;
  }

  lemma MoveKeepsOpen(e: State, k: Key, move: Move<PodRun>, key: Key)
    ensures Open(MovePod(e, k, move), key) <==> Open(e, key)
    ensures StoredScan(MovePod(e, k, move), key) == StoredScan(e, key)
  {
    assert MovePod(e, k, move).mapNotes == e.mapNotes;
  }

  lemma MoveKeepsRecords(e: State, k: Key, move: Move<PodRun>)
    ensures MovePod(e, k, move).resolved == e.resolved && MovePod(e, k, move).waiting == e.waiting
    ensures MovePod(e, k, move).scans == e.scans
  {
  }

  lemma MoveKeepsBlocks(cfg: Config, e: State, k: Key, move: Move<PodRun>, pod: Pod, ref: ImageRef)
    requires Blocks(cfg, e, k, pod, ref)
    ensures Blocks(cfg, MovePod(e, k, move), k, pod, ref)
  {
    hide RefOf, MatchHash, ScanName, ImageHash, Open, StoredScan, MovePod;
    OpenIsStored(e, cfg.ScanKey(k.namespace, ref));
    MoveKeepsRecords(e, k, move);
    MoveKeepsOpen(e, k, move, cfg.ScanKey(k.namespace, ref));
  }

  lemma MoveKeepsCovered(cfg: Config, e: State, k: Key, move: Move<PodRun>, run: PodRun)
    requires Covered(cfg, e, k, run)
    ensures Covered(cfg, MovePod(e, k, move), k, run)
  {
    hide Blocks, ScanName, MovePod;
    MoveKeepsRecords(e, k, move);
    if run.Checking? || run.Creating? {
      if run.pending != [] {
        MoveKeepsBlocks(cfg, e, k, move, run.pod, run.pending[0]);
      }
      if run.Creating? && run.i < |run.images| && cfg.ScanKey(k.namespace, run.images[run.i]) in e.scans {
        MoveKeepsBlocks(cfg, e, k, move, run.pod, run.images[run.i]);
      }
    }
  }

  /** The run goes on from the current version, with what it found still able to wake the pod. */
  lemma ContinueIsBusy(cfg: Config, e: State, k: Key, run: PodRun)
    requires run.PodFetch? || (run.version == |PodVersions(e, k)| && Covered(cfg, e, k, run))
    ensures Busy(cfg, MovePod(e, k, Continue(run)), k)
  {
    hide Covered;
    if !run.PodFetch? {
      MoveKeepsCovered(cfg, e, k, Continue(run), run);
    }
  }

  lemma NeedIsStored(cfg: Config, s: State, t: State, k: Key)
    requires PodVersions(t, k) == PodVersions(s, k)
    ensures Need(cfg, t, k) <==> Need(cfg, s, k)
  {
  }

  lemma MoveKeepsVersions(e: State, k: Key, move: Move<PodRun>)
    ensures PodVersions(MovePod(e, k, move), k) == PodVersions(e, k)
  {
  }

  /** A pod in need is given up only when the cache lags behind it; otherwise its cached version is carried on. */
  lemma FetchOutcome(cfg: Config, s: State, k: Key, fails: bool)
    ensures var move := AfterGetPod(cfg, s, k, fails);
            && (move.Finish? && Need(cfg, s, k) ==> Position(s.podSeen, k) != |PodVersions(s, k)|)
            && (move.Continue? ==> move.run.Releasing? || move.run.Resolving?)
            && (move.Continue? ==> move.run.version == Position(s.podSeen, k))
  {
    hide ExtractFromPodSpec;
  }

  lemma FetchKeepsWoken(cfg: Config, s: State, k: Key, fails: bool)
    requires PodsSeen(s) && Woken(cfg, s, k)
    ensures Woken(cfg, MovePod(s, k, AfterGetPod(cfg, s, k, fails)), k)
  {
    hide Busy, Waits, AfterGetPod, MovePod, Need, Due;
    var move := AfterGetPod(cfg, s, k, fails);
    FetchOutcome(cfg, s, k, fails);
    MoveKeepsVersions(s, k, move);
    NeedIsStored(cfg, s, MovePod(s, k, move), k);
    if move.Retry? {
      RetryIsDue(s, k);
    } else if Position(s.podSeen, k) < |PodVersions(s, k)| {
      LaggingIsDue(s, k);
      MoveKeepsDue(s, k, move);
    } else if move.Continue? {
      ContinueIsBusy(cfg, s, k, move.run);
    }
  }

  lemma LaggingIsDue(s: State, k: Key)
    requires Position(s.podSeen, k) < |PodVersions(s, k)|
    ensures Due(s, k)
  {
  }

  /** Steps between the Get of the pod and the first scan look at no scan. */
  lemma EarlyStepKeepsWoken(cfg: Config, s: State, e: State, k: Key, move: Move<PodRun>)
    requires Woken(cfg, s, k) && k in s.podRuns && !s.podRuns[k].PodFetch?
    requires EffectBounds(s, e, k) && e.podDirty == s.podDirty && PodVersions(e, k) == PodVersions(s, k)
    requires move.Retry? || (move.Continue? && !move.run.PodFetch? && move.run.version == s.podRuns[k].version
             && Covered(cfg, e, k, move.run))
    ensures Woken(cfg, MovePod(e, k, move), k)
  {
    hide Covered, Due, EffectBounds, Need, MovePod, Waits, Busy;
    var t := MovePod(e, k, move);
    if move.Retry? {
      RetryIsDue(e, k);
    } else if Due(s, k) {
      BoundedDue(s, e, k);
      MoveKeepsDue(e, k, move);
    } else if Need(cfg, s, k) {
      RunIsCovered(cfg, s, k);
      ContinueIsBusy(cfg, e, k, move.run);
    } else {
      MoveKeepsVersions(e, k, move);
      NeedIsStored(cfg, s, t, k);
    }
  }

  lemma ResolveKeepsWoken(cfg: Config, s: State, k: Key, digest: Option<string>)
    requires Woken(cfg, s, k) && PodEnabled(s, k, DoResolve(digest))
    ensures Woken(cfg, PodApply(cfg, s, k, DoResolve(digest)), k)
  {
    hide Woken, Blocks, Answers, EffectBounds, MovePod;
    var resolved := s.resolved + Answers(cfg, k, s.podRuns[k], digest);
    ResolvedBounds(s, k, resolved);
    EarlyStepKeepsWoken(cfg, s, s.(resolved := resolved), k, AfterResolve(s.podRuns[k], digest));
  }

  lemma GiveUpKeepsWoken(cfg: Config, s: State, k: Key)
    ensures Woken(cfg, MovePod(s, k, Retry), k)
  {
    hide Due, Busy, Waits, Need, MovePod;
    RetryIsDue(s, k);
  }

  lemma BeginKeepsWoken(cfg: Config, s: State, k: Key)
    requires Woken(cfg, s, k) && PodEnabled(s, k, DoBeginChecks)
    ensures Woken(cfg, PodApply(cfg, s, k, DoBeginChecks), k)
  {
    hide Woken, Blocks, Names, MovePod, EffectBounds, StorePod, UpdatePod, CreateScan, Answers;
    hide AfterGetPod, AfterResolve, AfterGetScan, AfterCreate, AfterUpdate;
    var used := s.used + Names(cfg, k, s.podRuns[k].images);
    PlainBounds(s, k, s.podDirty, used);
    EarlyStepKeepsWoken(cfg, s, s.(used := used), k, PodMove(cfg, s, k, DoBeginChecks));
  }

  /** A cached scan that is not Registered is open in the store. */
  lemma CachedUnregisteredIsOpen(cfg: Config, s: State, key: Key)
    requires ScanInv(cfg, s) && CachedScan(s, key).Some? && !CachedScan(s, key).value.status.phase.Registered?
    ensures Open(s, key)
  {
    hide ScanInv;
    SeenBound(cfg, s, key);
  }

  lemma UncachedIsOpen(cfg: Config, s: State, key: Key)
    requires ScanInv(cfg, s) && CachedScan(s, key).None? && key in s.scans
    ensures Open(s, key)
  {
    hide ScanInv, Absorbing, GoodScan;
    SeenBound(cfg, s, key);
    HistoryIsGood(cfg, s, key);
  }

  lemma GetScanCovers(cfg: Config, s: State, k: Key, fails: bool)
    requires Inv(cfg, s) && LabelsAgree(cfg, s.used) && PodEnabled(s, k, DoGetScan(fails))
    requires Covered(cfg, s, k, s.podRuns[k])
    ensures var move := AfterGetScan(cfg, s, k, s.podRuns[k], fails); move.Continue? ==> Covered(cfg, s, k, move.run)
  {
    hide ScanInv, GateInv, LabelsAgree, Blocks, Open, RefOf, ScanName, CachedScan;
    var run := s.podRuns[k];
    var img := run.images[run.i];
    var key := cfg.ScanKey(k.namespace, img);
    RefOfRun(cfg, s, k, run.i);
    if CachedScan(s, key).None? {
      if key in s.scans {
        UncachedIsOpen(cfg, s, key);
        OpenBlocks(cfg, s, k, run.pod, img);
      }
    } else if !CachedScan(s, key).value.status.phase.Registered? {
      CachedUnregisteredIsOpen(cfg, s, key);
      OpenBlocks(cfg, s, k, run.pod, img);
    }
  }

  /** A scan step of the run keeps the pod woken if what it leaves behind is covered. */
  lemma GetScanKeepsWoken(cfg: Config, s: State, k: Key, fails: bool)
    requires Inv(cfg, s) && LabelsAgree(cfg, s.used) && PodEnabled(s, k, DoGetScan(fails)) && Woken(cfg, s, k)
    ensures Woken(cfg, MovePod(s, k, AfterGetScan(cfg, s, k, s.podRuns[k], fails)), k)
  {
    hide Inv, LabelsAgree, Covered, Due, Need, AfterGetScan;
    var move := AfterGetScan(cfg, s, k, s.podRuns[k], fails);
    GetScanGoesOn(cfg, s, k, s.podRuns[k], fails);
    if move.Retry? {
      RetryIsDue(s, k);
    } else if Due(s, k) {
      MoveKeepsDue(s, k, move);
    } else if Need(cfg, s, k) {
      GetScanCovers(cfg, s, k, fails);
      ContinueIsBusy(cfg, s, k, move.run);
    } else {
      MoveKeepsVersions(s, k, move);
      NeedIsStored(cfg, s, MovePod(s, k, move), k);
    }
  }

  lemma GetScanGoesOn(cfg: Config, s: State, k: Key, run: PodRun, fails: bool)
    requires run.Checking? && run.i < |run.images|
    ensures var move := AfterGetScan(cfg, s, k, run, fails);
            move.Retry? || (move.Continue? && !move.run.PodFetch? && move.run.version == run.version)
  {
    hide ScanName, CachedScan;
  }

  /** The scan the run just asked for is in the store, open, and named after the pod's image. */
  lemma CreatedIsOpen(cfg: Config, s: State, k: Key, ref: ImageRef, outcome: Outcome)
    requires ScanInv(cfg, s) && ScanInv(cfg, CreateScan(cfg, s, k, ref, outcome))
    requires cfg.ScanKey(k.namespace, ref) !in s.scans && WellFormedDigest(ref.digest) && outcome.Applied?
    ensures Open(CreateScan(cfg, s, k, ref, outcome), cfg.ScanKey(k.namespace, ref))
  {
    hide ScanInv, ScanName, WellFormedDigest, Open, NewScan;
    var key := cfg.ScanKey(k.namespace, ref);
    var e := CreateScan(cfg, s, k, ref, outcome);
    NewScanIsOpen(cfg, s, e, key);
  }

  lemma CreateAdvances(cfg: Config, s: State, k: Key, ref: ImageRef, outcome: Outcome)
    requires ScanInv(cfg, s) && ScanInv(cfg, CreateScan(cfg, s, k, ref, outcome))
    ensures ScansAdvance(s, CreateScan(cfg, s, k, ref, outcome))
  {
    hide ScanInv, ScanName, WellFormedDigest, NewScan, StoreScan, ScansAdvance, PodsExtend, Extends;
    var key := cfg.ScanKey(k.namespace, ref);
    StoreScanGrows(s, key, NewScan(cfg, ref));
    SameGrows(s, s);
    StoreScanBounds(s, k, key, NewScan(cfg, ref));
    PlainBounds(s, k, s.podDirty, s.used);
    StayingEventsAdvance(cfg, s, CreateScan(cfg, s, k, ref, outcome));
  }

  lemma CreateKeepsUsed(cfg: Config, s: State, k: Key, ref: ImageRef, outcome: Outcome)
    ensures CreateScan(cfg, s, k, ref, outcome).used == s.used
    ensures CreateScan(cfg, s, k, ref, outcome).podDirty == s.podDirty
    ensures PodVersions(CreateScan(cfg, s, k, ref, outcome), k) == PodVersions(s, k)
    ensures CreateScan(cfg, s, k, ref, outcome).resolved == s.resolved
  {
    hide ScanName, WellFormedDigest, NewScan, StoreScan;
    StoreScanFrame(s, k, cfg.ScanKey(k.namespace, ref), NewScan(cfg, ref));
  }

  lemma StoreScanFrame(s: State, k: Key, key: Key, scan: Scan)
    ensures var t := StoreScan(s, key, scan);
            && t.used == s.used && t.podDirty == s.podDirty && t.resolved == s.resolved
            && PodVersions(t, k) == PodVersions(s, k)
  {
    hide StoredScan, ScanVersions;
  }

  lemma CreateCovers(cfg: Config, s: State, k: Key, outcome: Outcome)
    requires Inv(cfg, s) && LabelsAgree(cfg, s.used) && PodEnabled(s, k, DoCreateScan(outcome))
    requires ScanInv(cfg, CreateScan(cfg, s, k, s.podRuns[k].images[s.podRuns[k].i], outcome))
    requires Covered(cfg, s, k, s.podRuns[k])
    ensures var run := s.podRuns[k];
            var move := AfterCreate(run, outcome);
            move.Continue? ==> Covered(cfg, CreateScan(cfg, s, k, run.images[run.i], outcome), k, move.run)
  {
    hide ScanInv, GateInv, LabelsAgree, Blocks, Open, RefOf, ScanName, WellFormedDigest, CreateScan, ScansAdvance;
    var run := s.podRuns[k];
    var img := run.images[run.i];
    var e := CreateScan(cfg, s, k, img, outcome);
    CreateAdvances(cfg, s, k, img, outcome);
    CreateKeepsUsed(cfg, s, k, img, outcome);
    RefOfRun(cfg, s, k, run.i);
    if outcome.Applied? && WellFormedDigest(img.digest) {
      if run.pending != [] {
        BlocksAdvances(cfg, s, e, k, run.pod, run.pending[0]);
      } else if cfg.ScanKey(k.namespace, img) in s.scans {
        BlocksAdvances(cfg, s, e, k, run.pod, img);
      } else {
        CreatedIsOpen(cfg, s, k, img, outcome);
        OpenBlocks(cfg, e, k, run.pod, img);
      }
    }
  }

  lemma CreateKeepsWoken(cfg: Config, s: State, k: Key, outcome: Outcome)
    requires Inv(cfg, s) && LabelsAgree(cfg, s.used) && PodEnabled(s, k, DoCreateScan(outcome)) && Woken(cfg, s, k)
    requires ScanInv(cfg, CreateScan(cfg, s, k, s.podRuns[k].images[s.podRuns[k].i], outcome))
    ensures Woken(cfg, PodApply(cfg, s, k, DoCreateScan(outcome)), k)
  {
    hide ScanInv, GateInv, LabelsAgree, Covered, Due, Need, CreateScan, MovePod, EffectBounds, WellFormedDigest;
    var run := s.podRuns[k];
    var img := run.images[run.i];
    var e := CreateScan(cfg, s, k, img, outcome);
    var move := AfterCreate(run, outcome);
    CreateKeepsUsed(cfg, s, k, img, outcome);
    PodEffectBounds(cfg, s, k, DoCreateScan(outcome));
    MoveKeepsVersions(e, k, move);
    NeedIsStored(cfg, s, MovePod(e, k, move), k);
    if move.Retry? {
      RetryIsDue(e, k);
    } else if Due(s, k) {
      BoundedDue(s, e, k);
      MoveKeepsDue(e, k, move);
    } else if Need(cfg, s, k) {
      CreateCovers(cfg, s, k, outcome);
      ContinueIsBusy(cfg, e, k, move.run);
    }
  }

  lemma BoundedDue(s: State, e: State, k: Key)
    requires EffectBounds(s, e, k) && e.podDirty == s.podDirty && PodVersions(e, k) == PodVersions(s, k) && Due(s, k)
    ensures Due(e, k)
  {
    hide Due;
    DueIfStays(s, e, k);
  }

  /** Once the gate is gone the pod needs nothing; a refused update is retried. */
  lemma UpdateKeepsWoken(cfg: Config, s: State, k: Key, outcome: Outcome)
    requires PodEnabled(s, k, DoUpdatePod(outcome))
    ensures Woken(cfg, PodApply(cfg, s, k, DoUpdatePod(outcome)), k)
  {
    hide Due, Busy, Waits, MovePod, WithoutGate, Names, Answers, CreateScan, Need, StorePod;
    hide AfterGetPod, AfterResolve, AfterGetScan, AfterCreate;
    var run := s.podRuns[k];
    var e := UpdatePod(s, k, run, outcome);
    var move := AfterUpdate(s, k, run, outcome);
    if PodWriteLands(s, k, run, outcome) {
      MoveKeepsVersions(e, k, move);
      NeedIsStored(cfg, e, MovePod(e, k, move), k);
      UngatedNeedsNothing(cfg, s, k, run.pod);
    } else {
      RetryIsDue(e, k);
    }
  }

  lemma UngatedNeedsNothing(cfg: Config, s: State, k: Key, pod: Pod)
    ensures !Need(cfg, StorePod(s, k, Some(Ungated(pod))), k)
  {
    hide WithoutGate;
    UngatedHasNoGate(pod);
    assert StoredPod(StorePod(s, k, Some(Ungated(pod))), k) == Some(Ungated(pod));
  }

  lemma UngatedHasNoGate(pod: Pod)
    ensures !Ungated(pod).Gated()
  {
    hide Filter;
    WithoutGateCounts(pod.gates, SCHEDULING_GATE);
    assert SCHEDULING_GATE !in multiset(Ungated(pod).gates);
  }

  /** A run that ends to wait leaves behind, on record, a scan that will wake the pod. */
  lemma WaitKeepsWoken(cfg: Config, s: State, k: Key)
    requires GateInv(cfg, s) && PodEnabled(s, k, Wait) && Woken(cfg, s, k)
    ensures Woken(cfg, PodApply(cfg, s, k, Wait), k)
  {
    hide GateInv, Due, Need, Covered, MovePod, SameButHalts, Waits, Busy;
    var run := s.podRuns[k];
    var e := s.(waiting := s.waiting[k := Halt(run.version, run.pending)]);
    HaltFrame(s, k, Halt(run.version, run.pending));
    MoveKeepsVersions(e, k, Finish);
    NeedIsStored(cfg, s, MovePod(e, k, Finish), k);
    if Need(cfg, s, k) {
      if Due(s, k) {
        HaltKeepsDue(s, k, e);
        MoveKeepsDue(e, k, Finish);
      } else {
        RunIsCovered(cfg, s, k);
        CopyIsStored(cfg, s, k);
        PendingBlocks(cfg, s, k, run);
        HaltWaits(cfg, s, k, e, run.pod, run.pending[0]);
      }
    }
  }

  lemma RunIsCovered(cfg: Config, s: State, k: Key)
    requires Woken(cfg, s, k) && Need(cfg, s, k) && !Due(s, k) && k in s.podRuns && !s.podRuns[k].PodFetch?
    ensures s.podRuns[k].version == |PodVersions(s, k)| && Covered(cfg, s, k, s.podRuns[k])
  {
    hide Need, Due, Covered, Blocks;
  }

  lemma PendingBlocks(cfg: Config, s: State, k: Key, run: PodRun)
    requires run.Checking? && run.pending != [] && Covered(cfg, s, k, run)
    ensures Blocks(cfg, s, k, run.pod, run.pending[0])
  {
    hide Blocks;
  }

  lemma HaltWaits(cfg: Config, s: State, k: Key, e: State, pod: Pod, ref: ImageRef)
    requires SameButHalts(s, e) && StoredPod(s, k) == Some(pod) && Blocks(cfg, s, k, pod, ref)
    requires k in e.waiting && e.waiting[k].version == |PodVersions(s, k)| && ref in e.waiting[k].pending
    ensures Waits(cfg, MovePod(e, k, Finish), k)
  {
    hide Blocks, MovePod, StoredPod, Waits;
    HaltKeepsBlocks(cfg, s, k, e, pod, ref);
    MoveKeepsBlocks(cfg, e, k, Finish, pod, ref);
    StoredIsSame(s, e, k);
    FinishWaits(cfg, e, k, ref);
  }

  lemma HaltFrame(s: State, k: Key, halt: Halt)
    ensures SameButHalts(s, s.(waiting := s.waiting[k := halt]))
    ensures PodVersions(s.(waiting := s.waiting[k := halt]), k) == PodVersions(s, k)
  {
  }

  /** The fields that say what keeps a pod due or waiting. */
  ghost predicate SameButHalts(s: State, e: State) {
    && e.pods == s.pods && e.podSeen == s.podSeen && e.podNotes == s.podNotes && e.podDirty == s.podDirty
    && e.mapped == s.mapped && e.podTimers == s.podTimers
    && e.scans == s.scans && e.scanSeen == s.scanSeen && e.mapNotes == s.mapNotes && e.resolved == s.resolved
  }

  lemma HaltKeepsDue(s: State, k: Key, e: State)
    requires SameButHalts(s, e) && Due(s, k)
    ensures Due(e, k)
  {
  }

  lemma HaltKeepsBlocks(cfg: Config, s: State, k: Key, e: State, pod: Pod, ref: ImageRef)
    requires SameButHalts(s, e) && Blocks(cfg, s, k, pod, ref)
    ensures Blocks(cfg, e, k, pod, ref)
  {
    hide RefOf, MatchHash, ScanName, ImageHash;
  }

  lemma FinishWaits(cfg: Config, e: State, k: Key, ref: ImageRef)
    requires k in e.waiting && e.waiting[k].version == |PodVersions(e, k)| && ref in e.waiting[k].pending
    requires StoredPod(e, k).Some? && Blocks(cfg, MovePod(e, k, Finish), k, StoredPod(e, k).value, ref)
    ensures Waits(cfg, MovePod(e, k, Finish), k)
  {
    hide Blocks, MovePod, StoredPod;
    MoveKeepsVersions(e, k, Finish);
    StoredIsSame(e, MovePod(e, k, Finish), k);
    MoveKeepsRecords(e, k, Finish);
    FinishEnds(e, k);
  }

  lemma FinishEnds(e: State, k: Key)
    ensures k !in MovePod(e, k, Finish).podRuns
  {
  }

  lemma StoredIsSame(s: State, t: State, k: Key)
    requires PodVersions(t, k) == PodVersions(s, k)
    ensures StoredPod(t, k) == StoredPod(s, k)
  {
  }

  lemma StartKeepsWoken(cfg: Config, s: State, k: Key)
    requires PodEnabled(s, k, StartPod)
    ensures Woken(cfg, PodApply(cfg, s, k, StartPod), k)
  {
    hide Due, Need, Waits;
    ContinueIsBusy(cfg, PodEffect(cfg, s, k, StartPod), k, PodFetch);
  }

  lemma PodStepKeepsOwnWoken(cfg: Config, s: State, k: Key, a: PodAction)
    requires Inv(cfg, s) && PodsSeen(s) && PodEnabled(s, k, a) && Inv(cfg, PodApply(cfg, s, k, a))
    requires LabelsAgree(cfg, PodApply(cfg, s, k, a).used) && Woken(cfg, s, k)
    ensures Woken(cfg, PodApply(cfg, s, k, a), k)
  {
    hide ScanInv, GateInv, LabelsAgree, Woken, PodsSeen, MovePod, CreateScan, UpdatePod, Names;
    hide AfterGetPod, AfterResolve, AfterGetScan, AfterCreate, AfterUpdate;
    UsedGrows(cfg, s, k, a);
    match a
    case StartPod => StartKeepsWoken(cfg, s, k);
    case DoGetPod(fails) => FetchKeepsWoken(cfg, s, k, fails);
    case FailResolver => GiveUpKeepsWoken(cfg, s, k);
    case DoResolve(digest) => ResolveKeepsWoken(cfg, s, k, digest);
    case DoBeginChecks => BeginKeepsWoken(cfg, s, k);
    case DoGetScan(fails) => GetScanKeepsWoken(cfg, s, k, fails);
    case DoCreateScan(outcome) =>
      MoveScanInv(cfg, s, k, outcome);
      CreateKeepsWoken(cfg, s, k, outcome);
    case DoUpdatePod(outcome) => UpdateKeepsWoken(cfg, s, k, outcome);
    case Wait => WaitKeepsWoken(cfg, s, k);
  }

  lemma MoveScanInv(cfg: Config, s: State, k: Key, outcome: Outcome)
    requires PodEnabled(s, k, DoCreateScan(outcome)) && Inv(cfg, PodApply(cfg, s, k, DoCreateScan(outcome)))
    ensures ScanInv(cfg, CreateScan(cfg, s, k, s.podRuns[k].images[s.podRuns[k].i], outcome))
  {
    hide ScanInv, GateInv, CreateScan, MovePod;
    MoveKeepsScans(cfg, CreateScan(cfg, s, k, s.podRuns[k].images[s.podRuns[k].i], outcome), k,
      AfterCreate(s.podRuns[k], outcome));
  }

  lemma FewerNamesAgree(cfg: Config, used: set<(string, ImageRef)>, used': set<(string, ImageRef)>)
    requires used <= used' && LabelsAgree(cfg, used')
    ensures LabelsAgree(cfg, used)
  {
    hide ScanName, ImageHash;
  }

  lemma UsedGrows(cfg: Config, s: State, k: Key, a: PodAction)
    requires PodEnabled(s, k, a) && LabelsAgree(cfg, PodApply(cfg, s, k, a).used)
    ensures LabelsAgree(cfg, s.used)
  {
    hide LabelsAgree, PodEffect, PodMove, PodsExtend, Extends;
    EffectGrows(cfg, s, k, a);
    FewerNamesAgree(cfg, s.used, PodApply(cfg, s, k, a).used);
  }
}
