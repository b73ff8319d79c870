/**
 * ImageScanReconciler.Reconcile (internal/controller/imagescan_controller.go) as the imperative
 * code it is: it assigns status fields of its copy and writes them back.
 */
module ImageScanReconciler {
  import opened Wrappers
  import opened ImageRefs
  import opened Objects
  import opened ScanPhases
  import opened Protocol
  import opened GateSafety
  import opened Cluster

  /** An ImageScan as the Go code holds it. */
  class ScanObject {
    const imageHash: string
    const spec: ImageRef
    var phase: Phase
    var aquaScanID: string
    var message: string
    var retryCount: int
    var lastScanTime: Option<int>
    var completedTime: Option<int>

    constructor (scan: Scan)
      ensures Value() == scan
    {
      imageHash, spec := scan.imageHash, scan.spec;
      var st := scan.status;
      phase, aquaScanID, message, retryCount := st.phase, st.aquaScanID, st.message, st.retryCount;
      lastScanTime, completedTime := st.lastScanTime, st.completedTime;
    }

    function Value(): Scan
      reads this
    {
      Scan(imageHash, spec, Status(phase, aquaScanID, message, retryCount, lastScanTime, completedTime))
    }
  }

  /** What Reconcile returns. */
  datatype Return = Done | Failure | Requeue | RequeueAfter(delay: Duration)

  /** The calls of the reconcile of scan `k`. */
  class Client {
    const world: World
    const k: Key

    constructor (world: World, k: Key)
      ensures this.world == world && this.k == k
    {
      this.world, this.k := world, k;
    }

    /** Only this reconcile's steps and those of others have happened, and the protocol's run of it is at `run`. */
    ghost predicate At(run: ScanRun)
      reads world
    {
      world.Valid() && world.caller == ScanCaller(k) && k in world.s.scanRuns && world.s.scanRuns[k] == run
    }

    /** The latest step was this one of the reconcile, with the move the protocol has for it. */
    ghost predicate Stepped(a: ScanAction)
      reads world
    {
      && world.Valid() && world.caller == ScanCaller(k) && world.JustDid(ScanStep(k, a))
      && ScanEnabled(world.last, k, a)
      && ScanMoved(world.last, world.s, k, ScanMove(world.last, k, a))
    }

    /**
     * The reconcile has just taken its last step, the one that ends its run, with a retry unless it is
     * done; a delay it asked for by name is on record.
     */
    ghost predicate Returned(r: Return)
      reads world
    {
      && world.trace != [] && world.trace[|world.trace| - 1].ScanStep?
      && (r.RequeueAfter? ==> r.delay as int in world.s.delays)
      && var a := world.trace[|world.trace| - 1].scan;
         Stepped(a) && ScanMove(world.last, k, a) == if r.Done? then Finish else Retry
    }

    method Await(ghost run: ScanRun)
      requires At(run)
      modifies world`s, world`trace
      ensures At(run)
    {
      hide World.Valid;
      world.Interfere();
      assert RunOf(world.s, ScanCaller(k)).1 == Some(run);
    }

    /** A step of the run. */
    method Now(ghost run: ScanRun, a: ScanAction)
      requires At(run) && ScanEnabled(world.s, k, a) && !a.StartScan?
      modifies world`s, world`trace, world`last
      ensures world.last == old(world.s) && world.trace != [] && world.trace[|world.trace| - 1] == ScanStep(k, a)
      ensures Stepped(a)
      ensures world.s.delays == ScanEffect(world.last, k, a).delays
      ensures world.s.scans == ScanEffect(world.last, k, a).scans
    {
      hide World.Valid, ScanMove, ScanMoved, ScanEnabled, ScanEffect;
      ScanStepMoves(world.s, k, a);
      world.Step(ScanStep(k, a));
    }

    lemma IsAt(a: ScanAction, run: ScanRun)
      requires Stepped(a) && ScanMove(world.last, k, a) == Continue(run)
      ensures At(run)
    {
      hide World.Valid, World.JustDid, ScanMove, ScanEnabled;
    }

    lemma IsReturned(a: ScanAction, r: Return)
      requires world.trace != [] && world.trace[|world.trace| - 1] == ScanStep(k, a) && Stepped(a)
      requires ScanMove(world.last, k, a) == if r.Done? then Finish else Retry
      requires r.RequeueAfter? ==> r.delay as int in world.s.delays
      ensures Returned(r)
    {
      hide Stepped, ScanMove;
    }

    /** The scan at some moment of the cache, which is `version` of it. */
    method GetScan() returns (reply: Reply<Scan>, ghost version: nat)
      requires At(ScanFetch)
      modifies world`s, world`trace, world`last
      ensures !reply.Failed? ==>
                reply == ReplyOf(CachedScan(world.last, k), false) && version == Position(world.last.scanSeen, k)
      ensures reply.Failed? ==> Returned(Failure)
      ensures reply.Missing? || (reply.Got? && reply.value.status.phase.Terminal()) ==> Returned(Done)
      ensures reply.Got? && !reply.value.status.phase.Terminal() ==> At(Asking(version, reply.value))
    {
      hide World.Valid, CachedScan, AfterAsk, AfterTriggering, AfterWrite, Stepped, Returned, ScanEffect;
      Await(ScanFetch);
      var fails: bool := *;
      reply, version := ReplyOf(CachedScan(world.s, k), fails), Position(world.s.scanSeen, k);
      Now(ScanFetch, DoFetchScan(fails));
      if reply.Got? && !reply.value.status.phase.Terminal() {
        IsAt(DoFetchScan(fails), Asking(version, reply.value));
      } else {
        IsReturned(DoFetchScan(fails), if fails then Failure else Done);
      }
    }

    /** GetScanResult: Aqua answers as it likes; `now` is the time at which the answer is acted on. */
    method GetScanResult(spec: ImageRef, ghost version: nat, ghost scan: Scan) returns (answer: Answer, now: int)
      requires spec == scan.spec && At(Asking(version, scan))
      modifies world`s, world`trace, world`last
      ensures answer.AquaError? ==>
                At(Writing(version, scan.(status := FailedStatus(scan.status, answer.message)), AfterLookupError))
      ensures answer.NotFound? ==> At(Triggering(version, scan))
      ensures answer.Found? ==> At(Writing(version, scan.(status := RegisteredStatus(scan.status, now)), AfterFound))
    {
      hide World.Valid, AfterFetch, AfterTriggering, AfterWrite, FailedStatus, RegisteredStatus, Stepped, ScanEffect;
      Await(Asking(version, scan));
      answer, now := *, *;
      Now(Asking(version, scan), DoAsk(answer, now));
      IsAt(DoAsk(answer, now), AfterAsk(Asking(version, scan), answer, now).run);
    }

    method TriggerScan(spec: ImageRef, ghost version: nat, ghost scan: Scan) returns (reply: Result<string, string>)
      requires spec == scan.spec && At(Triggering(version, scan))
      modifies world`s, world`trace, world`last
      ensures reply.Err? ==>
                At(Writing(version, scan.(status := FailedStatus(scan.status, reply.error)), AfterTriggerError))
      ensures reply.Ok? ==>
                At(Writing(version, scan.(status := TriggeredStatus(scan.status, reply.value)), AfterTrigger))
    {
      hide World.Valid, AfterFetch, AfterAsk, AfterWrite, FailedStatus, TriggeredStatus, Stepped, ScanEffect;
      Await(Triggering(version, scan));
      reply := *;
      Now(Triggering(version, scan), DoTrigger(reply));
      IsAt(DoTrigger(reply), AfterTriggering(Triggering(version, scan), reply).run);
    }

    /** What Reconcile returns after a status update, by path and outcome. */
    ghost predicate Returns(r: Return, path: WritePath, ok: bool, retryCount: int) {
      match path
      case AfterFound => r == if ok then Done else Failure
      case AfterTrigger => r == if ok then Requeue else Failure
      case AfterTriggerError => if ok then r.RequeueAfter? && r.delay as int == Backoff(retryCount) else r == Failure
      case AfterLookupError => r.RequeueAfter? && r.delay as int == Backoff(retryCount)
    }

    /** Status().Update writes the object it is given; when it succeeds that object is what is stored. */
    method UpdateStatus(copy: ScanObject, ghost version: nat, ghost path: WritePath) returns (ok: bool)
      requires At(Writing(version, copy.Value(), path))
      modifies world`s, world`trace, world`last
      ensures forall r: Return :: Returns(r, path, ok, copy.retryCount) ==> Returned(r)
      ensures ok ==> StoredScan(world.s, k) == Some(copy.Value())
    {
      hide World.Valid, ScanVersions, StoreScan, Backoff, AfterFetch, AfterAsk, AfterTriggering, Stepped, Returned;
      hide StoredScan;
      ghost var run := Writing(version, copy.Value(), path);
      Await(run);
      var outcome: Outcome := *;
      ok := ScanWriteLands(world.s, k, world.s.scanRuns[k], outcome) && outcome.Applied?;
      Now(run, DoWriteStatus(outcome));
      if ok {
        WriteStores(world.last, world.s, k, run.scan);
      }
      forall r: Return | Returns(r, path, ok, copy.retryCount) ensures Returned(r) {
        IsReturned(DoWriteStatus(outcome), r);
      }
    }
  }

  lemma WriteStores(last: State, s: State, k: Key, scan: Scan)
    requires s.scans == StoreScan(last, k, scan).scans
    ensures StoredScan(s, k) == Some(scan)
  {
  }

  /** Neither time differs from what was read. */
  predicate KeepsTimes(imageScan: ScanObject, was: Scan)
    reads imageScan
  {
    imageScan.lastScanTime == was.status.lastScanTime && imageScan.completedTime == was.status.completedTime
  }

  /** What an earlier trigger or lookup left is still there. */
  predicate KeepsResult(imageScan: ScanObject, was: Scan)
    reads imageScan
  {
    KeepsTimes(imageScan, was) && imageScan.aquaScanID == was.status.aquaScanID
  }

  /** The branch after GetScanResult failed. */
  method LookupFailed(client: Client, imageScan: ScanObject, message: string, ghost version: nat,
                      ghost scan: Scan) returns (r: Return)
    requires imageScan.Value() == scan
    requires client.At(Writing(version, scan.(status := FailedStatus(scan.status, message)), AfterLookupError))
    modifies imageScan, client.world`s, client.world`trace, client.world`last
    ensures client.Returned(r) && r.RequeueAfter? && r.delay as int == Backoff(scan.status.retryCount + 1)
    ensures imageScan.phase == Error && imageScan.message == message
    ensures imageScan.retryCount == old(imageScan.retryCount) + 1
    ensures KeepsResult(imageScan, old(imageScan.Value()))
    ensures imageScan.Value() == scan.(status := FailedStatus(scan.status, message))
  {
    hide Client.At, Client.Returned, Backoff;
    imageScan.phase := Error;
    imageScan.message := message;
    imageScan.retryCount := imageScan.retryCount + 1;
    var ok := client.UpdateStatus(imageScan, version, AfterLookupError);
    var delay, peak := CalculateBackoff(imageScan.retryCount);
    return RequeueAfter(delay);
  }

  /** The branch for an image Aqua does not know. */
  method TriggerMissing(client: Client, imageScan: ScanObject, ghost version: nat, ghost scan: Scan) returns (r: Return)
    requires imageScan.Value() == scan && client.At(Triggering(version, scan))
    modifies imageScan, client.world`s, client.world`trace, client.world`last
    ensures client.Returned(r) && !r.Done?
    ensures imageScan.phase.Error? ==>
              imageScan.retryCount == old(imageScan.retryCount) + 1 && KeepsResult(imageScan, old(imageScan.Value()))
    ensures !imageScan.phase.Error? ==>
              && imageScan.phase == Pending && imageScan.message == "Scan triggered, waiting for Aqua to process"
              && imageScan.retryCount == 0 && KeepsTimes(imageScan, old(imageScan.Value()))
    ensures imageScan.phase.Error? ==>
              imageScan.Value() == scan.(status := FailedStatus(scan.status, imageScan.message))
    ensures !imageScan.phase.Error? ==>
              imageScan.Value() == scan.(status := TriggeredStatus(scan.status, imageScan.aquaScanID))
    ensures !r.Failure? ==> StoredScan(client.world.s, client.k) == Some(imageScan.Value())
    ensures !r.Failure? ==> (r.Requeue? <==> !imageScan.phase.Error?)
  {
    hide Client.At, Client.Returned, Backoff, StoredScan;
    var reply := client.TriggerScan(imageScan.spec, version, scan);
    if reply.Err? {
      imageScan.phase := Error;
      imageScan.message := reply.error;
      imageScan.retryCount := imageScan.retryCount + 1;
      var ok := client.UpdateStatus(imageScan, version, AfterTriggerError);
      if !ok {
        return Failure;
      }
      var delay, peak := CalculateBackoff(imageScan.retryCount);
      return RequeueAfter(delay);
    }
    imageScan.phase := Pending;
    imageScan.aquaScanID := reply.value;
    imageScan.message := "Scan triggered, waiting for Aqua to process";
    imageScan.retryCount := 0;
    var ok := client.UpdateStatus(imageScan, version, AfterTrigger);
    return if ok then Requeue else Failure;
  }

  /** The branch for an image Aqua knows. */
  method Register(client: Client, imageScan: ScanObject, now: int, ghost version: nat,
                  ghost scan: Scan) returns (r: Return)
    requires imageScan.Value() == scan
    requires client.At(Writing(version, scan.(status := RegisteredStatus(scan.status, now)), AfterFound))
    modifies imageScan, client.world`s, client.world`trace, client.world`last
    ensures client.Returned(r) && (r.Done? || r.Failure?)
    ensures imageScan.phase == Registered && imageScan.message == "Image registered in Aqua"
    ensures imageScan.lastScanTime == Some(now) == imageScan.completedTime && imageScan.retryCount == 0
    ensures imageScan.aquaScanID == old(imageScan.aquaScanID)
    ensures imageScan.Value() == scan.(status := RegisteredStatus(scan.status, now))
    ensures r.Done? ==> StoredScan(client.world.s, client.k) == Some(imageScan.Value())
  {
    hide Client.At, Client.Returned, StoredScan;
    imageScan.lastScanTime := Some(now);
    imageScan.completedTime := Some(now);
    imageScan.phase := Registered;
    imageScan.message := "Image registered in Aqua";
    imageScan.retryCount := 0;
    var ok := client.UpdateStatus(imageScan, version, AfterFound);
    return if ok then Done else Failure;
  }

  method ReconcileBy(client: Client) returns (r: Return)
    requires client.At(ScanFetch)
    modifies client.world`s, client.world`trace, client.world`last
    ensures client.Returned(r)
  {
    hide Client.At, Client.Returned, FailedStatus, RegisteredStatus;
    var reply, version := client.GetScan();
    if reply.Failed? {
      return Failure;
    } else if reply.Missing? {
      return Done;
    }
    var imageScan := new ScanObject(reply.value);
    if imageScan.phase == Error {
      return Done;
    }
    if imageScan.phase == Registered {
      return Done;
    }
    var answer, now := client.GetScanResult(imageScan.spec, version, reply.value);
    match answer
    case AquaError(message) => r := LookupFailed(client, imageScan, message, version, reply.value);
    case NotFound => r := TriggerMissing(client, imageScan, version, reply.value);
    case Found => r := Register(client, imageScan, now, version, reply.value);
  }

  /**
   * Reconcile. What happened between its beginning and its end is an execution of the protocol whose
   * steps are its own, those of the run started for `k`, or those of others while it waited; the process
   * did not end. The last of all is its own, and the one that ends the run, with a retry unless it is
   * done. In a state the system can be in, the only delay it ever asks for by name is 60 seconds.
   */
  method Reconcile(world: World, k: Key) returns (r: Return)
    requires k in world.s.scanRuns && world.s.scanRuns[k].ScanFetch?
    modifies world
    ensures Executes(world.cfg, old(world.s), world.trace, world.s) && WhileRunning(ScanCaller(k), world.trace)
    ensures world.trace != [] && world.trace[|world.trace| - 1].ScanStep? && world.trace[|world.trace| - 1].key == k
    ensures Executes(world.cfg, old(world.s), world.trace[..|world.trace| - 1], world.last)
    ensures var a := world.trace[|world.trace| - 1].scan;
            ScanEnabled(world.last, k, a) && ScanMove(world.last, k, a) == if r.Done? then Finish else Retry
    ensures ScanMoved(world.last, world.s, k, if r.Done? then Finish else Retry)
    ensures Reachable(world.cfg, old(world.s)) && r.RequeueAfter? ==> r.delay == 60 * SECOND
  {
    hide ScanMoved, ScanMove, ScanEnabled, Executes, Reachable, Backoff, Enabled, Apply, WhileRunning;
    world.Begin(ScanCaller(k));
    var client := new Client(world, k);
    r := ReconcileBy(client);
    if Reachable(world.cfg, old(world.s)) && r.RequeueAfter? {
      assert Reaches(world.cfg, old(world.s), world.s);
      ReachesOn(world.cfg, old(world.s), world.s);
      OnlyFirstDelay(world.cfg, world.s, r.delay as int);
    }
  }
}
