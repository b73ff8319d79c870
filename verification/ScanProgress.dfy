/**
 * Scan progress: no stored ImageScan is ever forgotten before it is Registered or in Error,
 * across every combination of failing lookups, triggers and status updates.
 */
module ScanProgress {
  import opened Wrappers
  import opened ImageRefs
  import opened Objects
  import opened ScanPhases
  import opened Protocol
  import opened ScanInvariant
  import opened GateInvariant
  import opened GateSafety

  /** The newest version of the scan has not been delivered, or its event not yet handled. */
  ghost predicate EventPending(s: State, k: Key) {
    || Position(s.scanSeen, k) < |ScanVersions(s, k)|
    || exists note :: note in s.scanNotes && note.key == k
  }

  /** A reconcile of the scan is due: an event, a queued or delayed key, or a run. */
  ghost predicate Attended(s: State, k: Key) {
    EventPending(s, k) || k in s.scanDirty || k in s.scanTimers || k in s.scanRuns
  }

  predicate IsTerminal(h: seq<Scan>) {
    h != [] && h[|h| - 1].status.phase.Terminal()
  }

  ghost predicate Progress(s: State) {
    forall k :: k in s.scans ==> IsTerminal(s.scans[k]) || Attended(s, k)
  }

  /** The fields Attended reads. */
  ghost predicate SameAttention(s: State, t: State) {
    && t.scanSeen == s.scanSeen && t.scanNotes == s.scanNotes && t.scanDirty == s.scanDirty
    && t.scanTimers == s.scanTimers && t.scanRuns == s.scanRuns
  }

  lemma ProgressFrame(s: State, t: State)
    requires Progress(s) && t.scans == s.scans && SameAttention(s, t)
    ensures Progress(t)
  {
  }

  /** A new version is an undelivered event. */
  lemma StoreIsEvent(cfg: Config, s: State, k: Key, scan: Scan)
    requires ScanInv(cfg, s) && Progress(s)
    ensures Progress(StoreScan(s, k, scan))
  {
    hide HistoriesGood, RunsGood, DelaysGood;
    var t := StoreScan(s, k, scan);
    forall x | x in t.scans ensures IsTerminal(t.scans[x]) || Attended(t, x) {
      if x != k {
        assert ScanVersions(t, x) == ScanVersions(s, x);
      } else if StoredScan(s, k) != Some(scan) {
        assert |ScanVersions(t, k)| == |ScanVersions(s, k)| + 1;
      }
    }
  }

  /** Attention moves from a note to the queue, from the queue to a run, but is not lost. */
  lemma HandleKeepsProgress(s: State, note: Note)
    requires Progress(s)
    ensures Progress(HandleScanNote(s, note))
  {
    var t := HandleScanNote(s, note);
    forall k | k in t.scans ensures IsTerminal(t.scans[k]) || Attended(t, k) {
      if x :| x in s.scanNotes && x.key == k && x != note {
        assert x in t.scanNotes;
      }
    }
  }

  lemma TimerKeepsProgress(s: State, k: Key)
    requires Progress(s)
    ensures Progress(FireScanTimer(s, k))
  {
    var t := FireScanTimer(s, k);
    assert t.scanNotes == s.scanNotes;
  }

  lemma DeliveryKeepsProgress(s: State, k: Key, upTo: nat)
    requires Progress(s)
    ensures Progress(DeliverScanEvent(s, k, upTo))
  {
    var t := DeliverScanEvent(s, k, upTo);
    var note := Note(k, Position(s.scanSeen, k), upTo);
    forall x | x in t.scans ensures IsTerminal(t.scans[x]) || Attended(t, x) {
      if n :| n in s.scanNotes && n.key == x {
        assert n in t.scanNotes;
      }
      assert note in t.scanNotes;
    }
  }

  lemma ResyncKeepsProgress(s: State, k: Key)
    requires Progress(s)
    ensures Progress(ResyncScanEvent(s, k))
  {
    var t := ResyncScanEvent(s, k);
    forall x | x in t.scans ensures IsTerminal(t.scans[x]) || Attended(t, x) {
      if n :| n in s.scanNotes && n.key == x {
        assert n in t.scanNotes;
      }
    }
  }

  lemma RestartKeepsProgress(cfg: Config, s: State)
    requires ScanInv(cfg, s)
    ensures Progress(RestartProcess(s))
  {
    hide RunsGood, SeenGood, DelaysGood, Absorbing, GoodScan;
  }

  /** A run returns without a retry only when the scan is terminal or an event is still to come. */
  ghost predicate MayFinish(s: State, k: Key, move: Move<ScanRun>) {
    move.Finish? ==> k !in s.scans || IsTerminal(s.scans[k]) || Position(s.scanSeen, k) < |s.scans[k]|
  }

  lemma MoveKeepsProgress(s: State, k: Key, move: Move<ScanRun>)
    requires forall x :: x in s.scans && x != k ==> IsTerminal(s.scans[x]) || Attended(s, x)
    requires MayFinish(s, k, move)
    ensures Progress(MoveScan(s, k, move))
  {
    var t := MoveScan(s, k, move);
    forall x | x in t.scans ensures IsTerminal(t.scans[x]) || Attended(t, x) {
      assert t.scanNotes == s.scanNotes && t.scanSeen == s.scanSeen;
    }
  }

  lemma FetchMayFinish(cfg: Config, s: State, k: Key, fails: bool)
    requires ScanInv(cfg, s)
    ensures MayFinish(s, k, AfterFetch(s, k, fails))
  {
    hide ScanInv, Absorbing, GoodScan;
    if k in s.scans {
      HistoryIsGood(cfg, s, k);
      if 0 < Position(s.scanSeen, k) <= |s.scans[k]|
        && s.scans[k][Position(s.scanSeen, k) - 1].status.phase.Terminal() {
        TerminalIsLast(s.scans[k], Position(s.scanSeen, k));
      }
    }
    SeenIsGood(cfg, s, k);
  }

  lemma SeenIsGood(cfg: Config, s: State, k: Key)
    requires ScanInv(cfg, s)
    ensures Position(s.scanSeen, k) <= |ScanVersions(s, k)|
  {
    hide HistoriesGood, RunsGood, DelaysGood;
  }

  /** Of the four status updates only a successful Found returns for good, and then the scan is Registered. */
  lemma WriteMayFinish(cfg: Config, s: State, k: Key, outcome: Outcome)
    requires ScanInv(cfg, s) && k in s.scanRuns && s.scanRuns[k].Writing?
    ensures MayFinish(WriteAndReturn(s, k, s.scanRuns[k], outcome), k, AfterWrite(s, k, s.scanRuns[k], outcome))
  {
    hide ScanInv, RequestedDelay, SameScan, StatusShape, StoreScan;
    RunIsGood(cfg, s, k);
    StoreEndsWith(s, k, s.scanRuns[k].scan);
  }

  lemma StoreEndsWith(s: State, k: Key, scan: Scan)
    ensures var t := StoreScan(s, k, scan); k in t.scans && t.scans[k] != [] && t.scans[k][|t.scans[k]| - 1] == scan
  {
  }

  lemma WriteKeepsProgress(cfg: Config, s: State, k: Key, outcome: Outcome)
    requires ScanInv(cfg, s) && Progress(s) && k in s.scanRuns && s.scanRuns[k].Writing?
    ensures Progress(WriteAndReturn(s, k, s.scanRuns[k], outcome))
  {
    hide ScanInv, Progress, StoreScan, ScanWriteLands, RequestedDelay;
    var run := s.scanRuns[k];
    StoreIsEvent(cfg, s, k, run.scan);
    ProgressFrame(WriteStatus(s, k, run, outcome), WriteAndReturn(s, k, run, outcome));
  }

  lemma ScanStepKeepsProgress(cfg: Config, s: State, k: Key, a: ScanAction)
    requires ScanInv(cfg, s) && Progress(s) && ScanEnabled(s, k, a)
    ensures Progress(ScanApply(s, k, a))
  {
    hide ScanInv, AfterFetch, AfterAsk, AfterTriggering, AfterWrite, WriteAndReturn, MoveScan, IsTerminal, EventPending;
    var t := ScanEffect(s, k, a);
    if a.DoWriteStatus? {
      WriteKeepsProgress(cfg, s, k, a.outcome);
      WriteMayFinish(cfg, s, k, a.outcome);
    } else if a.DoFetchScan? {
      FetchMayFinish(cfg, s, k, a.fails);
    } else if a.DoAsk? {
      AskContinues(s.scanRuns[k], a.answer, a.now);
    } else if a.DoTrigger? {
      TriggerContinues(s.scanRuns[k], a.reply);
    }
    if !a.DoWriteStatus? {
      OthersStayAttended(s, t, k);
    }
    MoveKeepsProgress(t, k, ScanMove(s, k, a));
  }

  lemma OthersStayAttended(s: State, t: State, k: Key)
    requires Progress(s) && t.scans == s.scans && t.scanSeen == s.scanSeen && t.scanNotes == s.scanNotes
    requires t.scanTimers == s.scanTimers && t.scanRuns == s.scanRuns && t.scanDirty + {k} == s.scanDirty + {k}
    ensures forall x :: x in t.scans && x != k ==> IsTerminal(t.scans[x]) || Attended(t, x)
  {
    forall x | x in t.scans && x != k ensures IsTerminal(t.scans[x]) || Attended(t, x) {
      assert x in s.scanDirty ==> x in t.scanDirty + {k};
    }
  }

  lemma AskContinues(run: ScanRun, answer: Answer, now: int)
    requires run.Asking?
    ensures AfterAsk(run, answer, now).Continue?
  {
  }

  lemma TriggerContinues(run: ScanRun, reply: Result<string, string>)
    requires run.Triggering?
    ensures AfterTriggering(run, reply).Continue?
  {
  }

  lemma CreateKeepsProgress(cfg: Config, s: State, k: Key, ref: ImageRef, outcome: Outcome)
    requires ScanInv(cfg, s) && Progress(s)
    ensures Progress(CreateScan(cfg, s, k, ref, outcome))
  {
    hide ScanInv, Progress, StoreScan, ScanName, WellFormedDigest, NewScan;
    StoreIsEvent(cfg, s, cfg.ScanKey(k.namespace, ref), NewScan(cfg, ref));
  }

  lemma PodStepKeepsProgress(cfg: Config, s: State, k: Key, a: PodAction)
    requires ScanInv(cfg, s) && Progress(s) && PodEnabled(s, k, a)
    ensures Progress(PodApply(cfg, s, k, a))
  {
    hide ScanInv, Progress, CreateScan, UpdatePod, PodMove, Answers, SameAttention;
    var t := PodEffect(cfg, s, k, a);
    if a.DoCreateScan? {
      CreateKeepsProgress(cfg, s, k, s.podRuns[k].images[s.podRuns[k].i], a.outcome);
    } else {
      if a.DoUpdatePod? {
        UpdateLeavesAttention(s, k, s.podRuns[k], a.outcome);
      } else {
        PodSideAttention(s, t);
      }
      ProgressFrame(s, t);
    }
    PodSideAttention(t, PodApply(cfg, s, k, a));
    ProgressFrame(t, PodApply(cfg, s, k, a));
  }

  lemma PodSideAttention(s: State, t: State)
    requires t.scanSeen == s.scanSeen && t.scanNotes == s.scanNotes && t.scanDirty == s.scanDirty
    requires t.scanTimers == s.scanTimers && t.scanRuns == s.scanRuns
    ensures SameAttention(s, t)
  {
  }

  lemma UpdateLeavesAttention(s: State, k: Key, run: PodRun, outcome: Outcome)
    requires !run.PodFetch?
    ensures SameAttention(s, UpdatePod(s, k, run, outcome)) && UpdatePod(s, k, run, outcome).scans == s.scans
  {
    hide PodWriteLands;
  }

  lemma OtherCreateKeepsProgress(cfg: Config, s: State, ns: string, ref: ImageRef, labelled: bool)
    requires ScanInv(cfg, s) && Progress(s)
    ensures Progress(CreateByOther(cfg, s, ns, ref, labelled))
  {
    hide ScanInv, Progress, StoreScan, ScanName, NewScan;
    var s' := s.(used := s.used + {(ns, ref)});
    ScanFrame(cfg, s, s');
    ProgressFrame(s, s');
    StoreIsEvent(cfg, s', Key(ns, ScanName(cfg.hash, ref)), if labelled then NewScan(cfg, ref)
      else NewScan(cfg, ref).(imageHash := ""));
  }

  lemma EnvStepKeepsProgress(cfg: Config, s: State, a: EnvAction)
    requires ScanInv(cfg, s) && Progress(s) && EnvEnabled(cfg, s, a)
    ensures Progress(EnvApply(cfg, s, a))
  {
    hide ScanInv, Progress, CreateByOther, DeliverScanEvent, ResyncScanEvent, RestartProcess, ScanName;
    hide WellFormedDigest;
    match a
    case OtherCreate(ns, ref, labelled) => OtherCreateKeepsProgress(cfg, s, ns, ref, labelled);
    case DeliverScan(k, upTo) => DeliveryKeepsProgress(s, k, upTo);
    case ResyncScan(k) => ResyncKeepsProgress(s, k);
    case Restart => RestartKeepsProgress(cfg, s);
    case _ => ProgressFrame(s, EnvApply(cfg, s, a));
  }

  lemma QueueStepKeepsProgress(cfg: Config, s: State, a: QueueAction)
    requires Progress(s)
    ensures Progress(QueueApply(cfg, s, a))
  {
    hide Progress, HandleScanNote, FireScanTimer, Targets, ShowsGate;
    match a
    case HandleScan(note) => HandleKeepsProgress(s, note);
    case ScanTimer(k) => TimerKeepsProgress(s, k);
    case _ => ProgressFrame(s, QueueApply(cfg, s, a));
  }

  lemma StepKeepsProgress(cfg: Config, s: State, a: Action)
    requires ScanInv(cfg, s) && Progress(s) && Enabled(cfg, s, a)
    ensures Progress(Apply(cfg, s, a))
  {
    hide ScanInv, Progress, EnvApply, QueueApply, PodApply, ScanApply;
    match a
    case Env(e) => EnvStepKeepsProgress(cfg, s, e);
    case Queue(q) => QueueStepKeepsProgress(cfg, s, q);
    case PodStep(k, p) => PodStepKeepsProgress(cfg, s, k, p);
    case ScanStep(k, c) => ScanStepKeepsProgress(cfg, s, k, c);
  }

  lemma {:induction false} ExecutionKeepsProgress(cfg: Config, s: State, actions: seq<Action>, t: State)
    requires Inv(cfg, s) && Progress(s) && Executes(cfg, s, actions, t)
    ensures Progress(t)
    decreases |actions|
  {
    hide ScanInv, GateInv, Progress, Grows, Enabled, Apply;
    if actions == [] {
    } else {
      StepKeeps(cfg, s, actions[0]);
      StepKeepsProgress(cfg, s, actions[0]);
      ExecutionKeepsProgress(cfg, Apply(cfg, s, actions[0]), actions[1..], t);
    }
  }

  /** In every reachable state every stored scan is Registered, in Error, or has a reconcile due. */
  lemma EveryScanProgresses(cfg: Config, s: State, k: Key)
    requires Reachable(cfg, s) && StoredScan(s, k).Some?
    ensures var phase := StoredScan(s, k).value.status.phase; phase.Registered? || phase.Error? || Attended(s, k)
  {
    hide Inv, Executes, Attended;
    InitialInv(cfg);
    var actions :| Executes(cfg, INIT, actions, s);
    InitialProgress();
    ExecutionKeepsProgress(cfg, INIT, actions, s);
  }

  lemma InitialProgress()
    ensures Progress(INIT)
  {
  }
}
