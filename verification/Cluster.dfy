/**
 * The API server, the informer caches and Aqua as a running reconcile sees them: a state of the
 * protocol that each call advances by one step of that reconcile, after anything else has happened.
 */
module Cluster {
  import opened Wrappers
  import opened ImageRefs
  import opened Objects
  import opened PodGates
  import opened Protocol
  import opened ScanInvariant
  import opened GateInvariant

  /** Whose reconcile is calling. */
  datatype Caller = PodCaller(key: Key) | ScanCaller(key: Key)

  /** The run of the caller, if it has one. */
  function RunOf(s: State, c: Caller): (Option<PodRun>, Option<ScanRun>) {
    match c
    case PodCaller(k) => (if k in s.podRuns then Some(s.podRuns[k]) else None, None)
    case ScanCaller(k) => (None, if k in s.scanRuns then Some(s.scanRuns[k]) else None)
  }

  /** What may happen while the caller waits: all but its own steps and the end of its process. */
  predicate ByOthers(c: Caller, a: Action) {
    match a
    case Env(e) => !e.Restart?
    case Queue(q) => true
    case PodStep(k, p) => c != PodCaller(k)
    case ScanStep(k, p) => c != ScanCaller(k)
  }

  lemma StoringLeavesRuns(s: State, k: Key, pod: Option<Pod>, scan: Scan, c: Caller)
    ensures RunOf(StorePod(s, k, pod), c) == RunOf(s, c)
    ensures RunOf(StoreScan(s, k, scan), c) == RunOf(s, c)
  {
    hide StoredScan, ScanVersions, PodVersions;
  }

  lemma OtherCreateLeavesRuns(cfg: Config, s: State, ns: string, ref: ImageRef, labelled: bool, c: Caller)
    ensures RunOf(CreateByOther(cfg, s, ns, ref, labelled), c) == RunOf(s, c)
  {
    hide StoreScan, ScanName, NewScan, RunOf;
    var s' := s.(used := s.used + {(ns, ref)});
    var scan := if labelled then NewScan(cfg, ref) else NewScan(cfg, ref).(imageHash := "");
    StoringLeavesRuns(s', Key(ns, ScanName(cfg.hash, ref)), None, scan, c);
    SameRuns(s, s', c);
  }

  lemma SameRuns(s: State, t: State, c: Caller)
    requires t.podRuns == s.podRuns && t.scanRuns == s.scanRuns
    ensures RunOf(t, c) == RunOf(s, c)
  {
  }

  lemma EnvLeavesRun(cfg: Config, s: State, a: EnvAction, c: Caller)
    requires EnvEnabled(cfg, s, a) && !a.Restart?
    ensures RunOf(EnvApply(cfg, s, a), c) == RunOf(s, c)
  {
    hide StorePod, CreateByOther, RunOf, ScanName, WellFormedDigest;
    match a {
      case EditPod(k, pod) => StoringLeavesRuns(s, k, pod, NewScan(cfg, ImageRef("", "")), c);
      case OtherCreate(ns, ref, labelled) => OtherCreateLeavesRuns(cfg, s, ns, ref, labelled, c);
      case _ => SameRuns(s, EnvApply(cfg, s, a), c);
    }
  }

  lemma QueueLeavesRun(cfg: Config, s: State, a: QueueAction, c: Caller)
    ensures RunOf(QueueApply(cfg, s, a), c) == RunOf(s, c)
  {
    hide RunOf, Targets, ShowsGate;
    SameRuns(s, QueueApply(cfg, s, a), c);
  }

  lemma PodEffectLeavesRun(cfg: Config, s: State, k: Key, a: PodAction, c: Caller)
    requires PodEnabled(s, k, a)
    ensures RunOf(PodEffect(cfg, s, k, a), c) == RunOf(s, c)
  {
    hide StorePod, StoreScan, RunOf, PodWriteLands, Names, ScanName, NewScan, WellFormedDigest, Answers;
    if a.DoCreateScan? {
      var ref := s.podRuns[k].images[s.podRuns[k].i];
      StoringLeavesRuns(s, cfg.ScanKey(k.namespace, ref), None, NewScan(cfg, ref), c);
    } else if a.DoUpdatePod? {
      StoringLeavesRuns(s, k, Some(Ungated(s.podRuns[k].pod)), NewScan(cfg, ImageRef("", "")), c);
    } else {
      SameRuns(s, PodEffect(cfg, s, k, a), c);
    }
  }

  lemma PodLeavesRun(cfg: Config, s: State, k: Key, a: PodAction, c: Caller)
    requires PodEnabled(s, k, a) && c != PodCaller(k)
    ensures RunOf(PodApply(cfg, s, k, a), c) == RunOf(s, c)
  {
    hide PodEffect, PodMove, PodEnabled;
    PodEffectLeavesRun(cfg, s, k, a, c);
  }

  lemma ScanEffectLeavesRun(s: State, k: Key, a: ScanAction, c: Caller)
    requires ScanEnabled(s, k, a)
    ensures RunOf(ScanEffect(s, k, a), c) == RunOf(s, c)
  {
    hide StoreScan, RunOf, ScanWriteLands, RequestedDelay;
    if a.DoWriteStatus? {
      StoringLeavesRuns(s, k, None, s.scanRuns[k].scan, c);
      SameRuns(WriteStatus(s, k, s.scanRuns[k], a.outcome), ScanEffect(s, k, a), c);
    } else {
      SameRuns(s, ScanEffect(s, k, a), c);
    }
  }

  lemma ScanLeavesRun(cfg: Config, s: State, k: Key, a: ScanAction, c: Caller)
    requires ScanEnabled(s, k, a) && c != ScanCaller(k)
    ensures RunOf(ScanApply(s, k, a), c) == RunOf(s, c)
  {
    hide ScanEffect, ScanMove, ScanEnabled;
    ScanEffectLeavesRun(s, k, a, c);
  }

  /** A reconcile keeps its local variables whatever others do. */
  lemma OthersLeaveRun(cfg: Config, s: State, a: Action, c: Caller)
    requires Enabled(cfg, s, a) && ByOthers(c, a)
    ensures RunOf(Apply(cfg, s, a), c) == RunOf(s, c)
  {
    hide RunOf, EnvEnabled, QueueEnabled, PodEnabled, ScanEnabled, EnvApply, QueueApply, PodApply, ScanApply;
    match a
    case Env(e) => EnvLeavesRun(cfg, s, e, c);
    case Queue(q) => QueueLeavesRun(cfg, s, q, c);
    case PodStep(k, p) => PodLeavesRun(cfg, s, k, p, c);
    case ScanStep(k, p) => ScanLeavesRun(cfg, s, k, p, c);
  }

  /** No step takes an answer of the registry off the record. */
  lemma AnswersStay(cfg: Config, s: State, a: Action)
    requires Enabled(cfg, s, a)
    ensures s.resolved <= Apply(cfg, s, a).resolved
  {
    hide EnvEnabled, QueueEnabled, PodEnabled, ScanEnabled, EnvApply, QueueApply, PodEffect, PodMove, ScanEffect;
    hide ScanMove, Grows;
    match a
    case Env(e) => EnvKeepsAnswers(cfg, s, e);
    case Queue(q) => QueueKeepsAnswers(cfg, s, q);
    case PodStep(k, p) => EffectGrows(cfg, s, k, p); GrowsAnswers(s, PodEffect(cfg, s, k, p));
    case ScanStep(k, p) => ScanEffectKeepsAnswers(s, k, p);
  }

  lemma GrowsAnswers(s: State, t: State)
    requires Grows(s, t)
    ensures s.resolved <= t.resolved
  {
    hide PodsExtend, Extends;
  }

  lemma EnvKeepsAnswers(cfg: Config, s: State, a: EnvAction)
    requires EnvEnabled(cfg, s, a)
    ensures s.resolved <= EnvApply(cfg, s, a).resolved
  {
    hide StoredScan, ScanVersions, PodVersions, ScanName, NewScan, WellFormedDigest;
  }

  lemma QueueKeepsAnswers(cfg: Config, s: State, a: QueueAction)
    ensures s.resolved <= QueueApply(cfg, s, a).resolved
  {
    hide Targets, ShowsGate;
  }

  lemma ScanEffectKeepsAnswers(s: State, k: Key, a: ScanAction)
    requires ScanEnabled(s, k, a)
    ensures s.resolved <= ScanEffect(s, k, a).resolved
  {
    hide StoredScan, ScanVersions, ScanWriteLands, RequestedDelay;
  }

  /** A step of the caller's own reconcile; its key was taken from the queue before. */
  predicate ByCaller(c: Caller, a: Action) {
    match c
    case PodCaller(k) => a.PodStep? && a.key == k && !a.pod.StartPod?
    case ScanCaller(k) => a.ScanStep? && a.key == k && !a.scan.StartScan?
  }

  /** Every step is one of the caller's reconcile, or of others while it waits; the process does not end. */
  ghost predicate WhileRunning(c: Caller, trace: seq<Action>) {
    forall i :: 0 <= i < |trace| ==> ByCaller(c, trace[i]) || ByOthers(c, trace[i])
  }

  lemma OneMore(cfg: Config, s: State, trace: seq<Action>, t: State, a: Action)
    requires Executes(cfg, s, trace, t) && Enabled(cfg, t, a)
    ensures Executes(cfg, s, trace + [a], Apply(cfg, t, a))
  {
    hide Enabled, Apply;
    assert Executes(cfg, t, [a], Apply(cfg, t, a));
    ExecutesAppend(cfg, s, trace, t, [a], Apply(cfg, t, a));
  }

  // ----- calls -----

  datatype Reply<T> = Got(value: T) | Missing | Failed

  function ReplyOf<T>(stored: Option<T>, fails: bool): Reply<T> {
    if fails then Failed else if stored.None? then Missing else Got(stored.value)
  }

  /**
   * `start` is the state in which the reconcile of `caller` began, `trace` all that has happened since,
   * and `last` the state before the caller's latest step.
   */
  class World {
    const cfg: Config
    var s: State
    var caller: Caller
    ghost var start: State
    ghost var trace: seq<Action>
    ghost var last: State

    /** What has happened since the reconcile began is an execution of the protocol. */
    ghost predicate Valid()
      reads this
    {
      Executes(cfg, start, trace, s) && WhileRunning(caller, trace)
    }

    /** The latest step of all was this one of the caller, taken in state `last`. */
    ghost predicate JustDid(a: Action)
      reads this
    {
      && trace != [] && trace[|trace| - 1] == a && ByCaller(caller, a)
      && Executes(cfg, start, trace[..|trace| - 1], last)
      && Enabled(cfg, last, a) && s == Apply(cfg, last, a)
    }

    constructor (cfg: Config, s: State)
      ensures this.cfg == cfg && this.s == s
    {
      this.cfg, this.s := cfg, s;
      this.caller, this.start, this.trace, this.last := PodCaller(Key("", "")), s, [], s;
    }

    /** A reconcile begins. */
    method Begin(c: Caller)
      modifies `caller, `start, `trace, `last
      ensures Valid() && start == s && caller == c && trace == []
    {
      hide Enabled, Apply;
      caller, start, trace, last := c, s, [], s;
    }

    /** Time passes while the caller waits for a reply. */
    method Interfere()
      requires Valid()
      modifies `s, `trace
      ensures Valid() && RunOf(s, caller) == RunOf(old(s), caller) && old(s).resolved <= s.resolved
    {
      hide Executes, RunOf, Enabled, Apply, ByOthers, ByCaller;
      var n: int := *;
      while 0 < n
        invariant Valid() && RunOf(s, caller) == RunOf(old(s), caller) && old(s).resolved <= s.resolved
      {
        n := n - 1;
        var a: Action := *;
        if Enabled(cfg, s, a) && ByOthers(caller, a) {
          OthersLeaveRun(cfg, s, a, caller);
          AnswersStay(cfg, s, a);
          OneMore(cfg, start, trace, s, a);
          trace := trace + [a];
          s := Apply(cfg, s, a);
        }
      }
    }

    /** A step of the caller. */
    method Step(a: Action)
      requires Valid() && ByCaller(caller, a) && Enabled(cfg, s, a)
      modifies `s, `trace, `last
      ensures Valid() && last == old(s) && JustDid(a)
    {
      hide Executes, Enabled, Apply, ByOthers, ByCaller;
      OneMore(cfg, start, trace, s, a);
      assert (trace + [a])[..|trace|] == trace;
      trace := trace + [a];
      last := s;
      s := Apply(cfg, s, a);
    }
  }

  // ----- what a step of the caller comes to -----

  /** How the caller's run stands after its last step led from `last` to `s`. */
  ghost predicate PodMoved(last: State, s: State, k: Key, move: Move<PodRun>) {
    && (if move.Continue? then k in s.podRuns && s.podRuns[k] == move.run else k !in s.podRuns)
    && s.podTimers == if move.Retry? then last.podTimers + {k} else last.podTimers
  }

  ghost predicate ScanMoved(last: State, s: State, k: Key, move: Move<ScanRun>) {
    && (if move.Continue? then k in s.scanRuns && s.scanRuns[k] == move.run else k !in s.scanRuns)
    && s.scanTimers == if move.Retry? then last.scanTimers + {k} else last.scanTimers
  }

  lemma EffectLeavesPodTimers(cfg: Config, s: State, k: Key, a: PodAction)
    requires PodEnabled(s, k, a)
    ensures PodEffect(cfg, s, k, a).podTimers == s.podTimers
  {
    hide StoredScan, ScanVersions, PodVersions, PodWriteLands, Names, ScanName, NewScan, WellFormedDigest, Answers;
  }

  lemma PodStepMoves(cfg: Config, s: State, k: Key, a: PodAction)
    requires PodEnabled(s, k, a)
    ensures PodMoved(s, PodApply(cfg, s, k, a), k, PodMove(cfg, s, k, a))
  {
    hide PodEnabled, PodEffect, PodMove;
    EffectLeavesPodTimers(cfg, s, k, a);
  }

  lemma EffectLeavesScanTimers(s: State, k: Key, a: ScanAction)
    requires ScanEnabled(s, k, a)
    ensures ScanEffect(s, k, a).scanTimers == s.scanTimers
  {
    hide StoredScan, ScanVersions, ScanWriteLands, RequestedDelay;
  }

  lemma ScanStepMoves(s: State, k: Key, a: ScanAction)
    requires ScanEnabled(s, k, a)
    ensures ScanMoved(s, ScanApply(s, k, a), k, ScanMove(s, k, a))
    ensures ScanApply(s, k, a).delays == ScanEffect(s, k, a).delays
    ensures ScanApply(s, k, a).scans == ScanEffect(s, k, a).scans
  {
    hide ScanEnabled, ScanEffect, ScanMove;
    EffectLeavesScanTimers(s, k, a);
  }
}
