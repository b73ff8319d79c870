/**
 * PodGateReconciler.Reconcile (internal/controller/pod_gate_controller.go) as the imperative code
 * it is, proved to be an execution of the protocol whatever happens between its calls.
 */
module PodGateReconciler {
  import opened Wrappers
  import opened ImageRefs
  import opened Mirrors
  import opened Objects
  import opened PodGates
  import opened Protocol
  import opened GateInvariant
  import opened Cluster

  /** What Reconcile returns: nothing more to do, or an error or a delay after which it is called again. */
  datatype Return = Done | Again

  /** How a Create ends. */
  datatype CreateReply = Created | AlreadyExists | NotCreated

  /** Where a reconcile stands that has read a gated pod. */
  function Beginning(version: nat, pod: Pod): PodRun {
    if pod.Bypassed() || pod.Images() == [] then Releasing(version, pod) else Resolving(version, pod, pod.Images(), 0)
  }

  predicate Passes(scan: Scan) {
    scan.status.phase.Registered?
  }

  lemma GetPodMoves(cfg: Config, s: State, k: Key, fails: bool)
    requires k in s.podRuns && s.podRuns[k].PodFetch?
    ensures PodEnabled(s, k, DoGetPod(fails)) && PodMove(cfg, s, k, DoGetPod(fails)) == AfterGetPod(cfg, s, k, fails)
    ensures cfg.filter.Excludes(k.namespace) ==> AfterGetPod(cfg, s, k, fails) == Finish
    ensures var pod := CachedPod(s, k);
            !cfg.filter.Excludes(k.namespace) ==>
              AfterGetPod(cfg, s, k, fails) ==
              if fails then Retry
              else if pod.None? || !pod.value.Gated() then Finish
              else Continue(Beginning(Position(s.podSeen, k), pod.value))
  {
    hide AfterResolve, AfterGetScan, AfterCreate, AfterUpdate, CachedPod, ExtractFromPodSpec;
  }

  /** Where the Get of a scan leaves the run, by what was read. */
  lemma GetScanMoves(cfg: Config, s: State, k: Key, run: PodRun, fails: bool)
    requires k in s.podRuns && s.podRuns[k] == run && run.Checking? && run.i < |run.images|
    ensures PodEnabled(s, k, DoGetScan(fails))
    ensures var scan := CachedScan(s, cfg.ScanKey(k.namespace, run.images[run.i]));
            PodMove(cfg, s, k, DoGetScan(fails)) ==
            if fails then Retry
            else if scan.None? then Continue(Creating(run.version, run.pod, run.images, run.i, run.pending))
            else Continue(Checking(run.version, run.pod, run.images, run.i + 1,
                                   if Passes(scan.value) then run.pending else run.pending + [run.images[run.i]]))
  {
    hide CachedScan, ScanName, AfterGetPod, AfterResolve, AfterCreate, AfterUpdate;
  }

  lemma CreateMoves(cfg: Config, s: State, k: Key, run: PodRun, outcome: Outcome)
    requires k in s.podRuns && s.podRuns[k] == run && run.Creating? && run.i < |run.images|
    ensures PodEnabled(s, k, DoCreateScan(outcome))
    ensures var img := run.images[run.i];
            PodMove(cfg, s, k, DoCreateScan(outcome)) ==
            if !outcome.Applied? || !WellFormedDigest(img.digest) then Retry
            else Continue(Checking(run.version, run.pod, run.images, run.i + 1, run.pending + [img]))
  {
    hide AfterGetPod, AfterResolve, AfterGetScan, AfterUpdate, WellFormedDigest;
  }

  /** The calls of the reconcile of pod `k`. */
  class Client {
    const world: World
    const k: Key

    constructor (world: World, k: Key)
      ensures this.world == world && this.k == k
    {
      this.world, this.k := world, k;
    }

    /** Only this reconcile's steps and those of others have happened, and the protocol's run of it is at `run`. */
    ghost predicate At(run: PodRun)
      reads world
    {
      world.Valid() && world.caller == PodCaller(k) && k in world.s.podRuns && world.s.podRuns[k] == run
    }

    /** The latest step was this one of the reconcile, with the move the protocol has for it. */
    ghost predicate Stepped(a: PodAction)
      reads world
    {
      && world.Valid() && world.caller == PodCaller(k) && world.JustDid(PodStep(k, a)) && PodEnabled(world.last, k, a)
      && PodMoved(world.last, world.s, k, PodMove(world.cfg, world.last, k, a))
    }

    /** The reconcile has just taken its last step, the one that ends its run, and asked for a retry or not. */
    ghost predicate Returned(r: Return)
      reads world
    {
      && world.trace != [] && world.trace[|world.trace| - 1].PodStep?
      && var a := world.trace[|world.trace| - 1].pod;
         Stepped(a) && PodMove(world.cfg, world.last, k, a) == if r.Again? then Retry else Finish
    }

    /** Wait for the reply; the run of this reconcile is untouched meanwhile. */
    method Await(ghost run: PodRun)
      requires At(run)
      modifies world`s, world`trace
      ensures At(run) && old(world.s).resolved <= world.s.resolved
    {
      hide World.Valid;
      world.Interfere();
      assert RunOf(world.s, PodCaller(k)).0 == Some(run);
    }

    /** A step of the run. */
    method Now(ghost run: PodRun, a: PodAction)
      requires At(run) && PodEnabled(world.s, k, a) && !a.StartPod?
      modifies world`s, world`trace, world`last
      ensures world.last == old(world.s) && world.trace != [] && world.trace[|world.trace| - 1] == PodStep(k, a)
      ensures Stepped(a)
      ensures old(world.s).resolved <= world.s.resolved
    {
      hide World.Valid, PodMove, PodMoved, PodEnabled, PodEffect;
      PodStepMoves(world.cfg, world.s, k, a);
      AnswersStay(world.cfg, world.s, PodStep(k, a));
      world.Step(PodStep(k, a));
    }

    /** A step of the run, after others had their turn. */
    method Step(ghost run: PodRun, a: PodAction)
      requires At(run) && PodEnabled(world.s, k, a) && !a.StartPod?
      modifies world`s, world`trace, world`last
      ensures k in world.last.podRuns && world.last.podRuns[k] == run
      ensures world.trace != [] && world.trace[|world.trace| - 1] == PodStep(k, a) && Stepped(a)
      ensures old(world.s).resolved <= world.s.resolved
    {
      hide World.Valid, PodMove, PodMoved, Stepped;
      Await(run);
      Now(run, a);
    }

    lemma IsAt(a: PodAction, run: PodRun)
      requires Stepped(a) && PodMove(world.cfg, world.last, k, a) == Continue(run)
      ensures At(run)
    {
      hide World.Valid, World.JustDid, PodMove, PodEnabled;
    }

    lemma IsReturned(a: PodAction, r: Return)
      requires world.trace != [] && world.trace[|world.trace| - 1] == PodStep(k, a) && Stepped(a)
      requires PodMove(world.cfg, world.last, k, a) == if r.Again? then Retry else Finish
      ensures Returned(r)
    {
      hide Stepped, PodMove;
    }

    /** The namespace is excluded: nothing is read. */
    method Skip()
      requires At(PodFetch) && world.cfg.filter.Excludes(k.namespace)
      modifies world`s, world`trace, world`last
      ensures Returned(Done)
    {
      hide World.Valid, PodMove, PodEnabled, AfterGetPod, Stepped, Returned;
      Await(PodFetch);
      GetPodMoves(world.cfg, world.s, k, false);
      Now(PodFetch, DoGetPod(false));
      IsReturned(DoGetPod(false), Done);
    }

    /** The pod at some moment of the cache, which is `version` of it. */
    method GetPod() returns (reply: Reply<Pod>, ghost version: nat)
      requires At(PodFetch) && !world.cfg.filter.Excludes(k.namespace)
      modifies world`s, world`trace, world`last
      ensures !reply.Failed? ==>
                reply == ReplyOf(CachedPod(world.last, k), false) && version == Position(world.last.podSeen, k)
      ensures reply.Failed? ==> Returned(Again)
      ensures reply.Missing? || (reply.Got? && !reply.value.Gated()) ==> Returned(Done)
      ensures reply.Got? && reply.value.Gated() ==> At(Beginning(version, reply.value))
    {
      hide World.Valid, CachedPod, ExtractFromPodSpec, PodMove, PodEnabled, Stepped, Returned, Beginning;
      Await(PodFetch);
      var fails: bool := *;
      reply, version := ReplyOf(CachedPod(world.s, k), fails), Position(world.s.podSeen, k);
      GetPodMoves(world.cfg, world.s, k, fails);
      Now(PodFetch, DoGetPod(fails));
      if reply.Got? && reply.value.Gated() {
        IsAt(DoGetPod(fails), Beginning(version, reply.value));
      } else {
        IsReturned(DoGetPod(fails), if fails then Again else Done);
      }
    }

    /** Building the digest resolver from the pod's pull secrets. */
    method BuildResolver(ghost version: nat, ghost pod: Pod, ghost images: seq<ImageRef>) returns (ok: bool)
      requires At(Resolving(version, pod, images, 0))
      modifies world`s, world`trace, world`last
      ensures if ok then At(Resolving(version, pod, images, 0)) else Returned(Again)
    {
      hide World.Valid, AfterGetPod, AfterResolve, AfterGetScan, AfterCreate, AfterUpdate, Stepped, Returned;
      ok := *;
      if !ok {
        Step(Resolving(version, pod, images, 0), FailResolver);
        IsReturned(FailResolver, Again);
      }
    }

    /** No call: the image pins its digest. */
    method KeepDigest(ghost version: nat, ghost pod: Pod, ghost images: seq<ImageRef>, ghost i: nat)
      requires i < |images| && images[i].digest != "" && At(Resolving(version, pod, images, i))
      modifies world`s, world`trace, world`last
      ensures At(Resolving(version, pod, images, i + 1)) && old(world.s).resolved <= world.s.resolved
    {
      hide World.Valid, AfterGetPod, AfterGetScan, AfterCreate, AfterUpdate, Stepped;
      Step(Resolving(version, pod, images, i), DoResolve(None));
      IsAt(DoResolve(None), Resolving(version, pod, images, i + 1));
    }

    /** ResolveImageRef: the registry answers about `ref` with some digest, on record from then on, or not at all. */
    method ResolveImageRef(ref: ImageRef, ghost version: nat, ghost pod: Pod, ghost images: seq<ImageRef>, ghost i: nat)
      returns (digest: Option<string>)
      requires i < |images| && images[i].digest == "" && At(Resolving(version, pod, images, i))
      requires ref == world.cfg.Mirrored(images[i])
      modifies world`s, world`trace, world`last
      ensures old(world.s).resolved <= world.s.resolved
      ensures digest.None? ==> Returned(Again)
      ensures digest.Some? ==> Resolution(k, ref.image, digest.value) in world.s.resolved
      ensures digest.Some? ==> At(Resolving(version, pod, images[i := ImageRef(images[i].image, digest.value)], i + 1))
    {
      hide World.Valid, AfterGetPod, AfterGetScan, AfterCreate, AfterUpdate, Stepped, Returned;
      hide Config.Mirrored;
      digest := *;
      Step(Resolving(version, pod, images, i), DoResolve(digest));
      if digest.None? {
        IsReturned(DoResolve(digest), Again);
      } else {
        AnswerIsStored(digest);
        IsAt(DoResolve(digest), Resolving(version, pod, images[i := ImageRef(images[i].image, digest.value)], i + 1));
      }
    }

    lemma AnswerIsStored(digest: Option<string>)
      requires Stepped(DoResolve(digest)) && digest.Some?
      ensures var run := world.last.podRuns[k];
              run.images[run.i].digest == "" ==>
                Resolution(k, world.cfg.Mirrored(run.images[run.i]).image, digest.value) in world.s.resolved
    {
      hide World.Valid, PodMove, PodMoved, Config.Mirrored;
    }

    /** No call: all digests are known. */
    method BeginChecks(ghost version: nat, ghost pod: Pod, ghost images: seq<ImageRef>)
      requires At(Resolving(version, pod, images, |images|))
      modifies world`s, world`trace, world`last
      ensures At(Checking(version, pod, images, 0, [])) && old(world.s).resolved <= world.s.resolved
    {
      hide World.Valid, AfterGetPod, AfterResolve, AfterGetScan, AfterCreate, AfterUpdate, Stepped;
      Step(Resolving(version, pod, images, |images|), DoBeginChecks);
      IsAt(DoBeginChecks, Checking(version, pod, images, 0, []));
    }

    /** The scan at some moment of the cache. */
    method GetScan(key: Key, ghost version: nat, ghost pod: Pod, ghost images: seq<ImageRef>, ghost i: nat,
                   ghost pending: seq<ImageRef>)
      returns (reply: Reply<Scan>)
      requires i < |images| && key == world.cfg.ScanKey(k.namespace, images[i])
      requires At(Checking(version, pod, images, i, pending))
      modifies world`s, world`trace, world`last
      ensures !reply.Failed? ==> reply == ReplyOf(CachedScan(world.last, key), false)
      ensures reply.Failed? ==> Returned(Again)
      ensures reply.Missing? ==> At(Creating(version, pod, images, i, pending))
      ensures reply.Got? ==>
                At(Checking(version, pod, images, i + 1,
                            if Passes(reply.value) then pending else pending + [images[i]]))
    {
      hide World.Valid, CachedScan, Config.ScanKey, PodMove, PodEnabled, Stepped, Returned, Passes;
      Await(Checking(version, pod, images, i, pending));
      var fails: bool := *;
      reply := ReplyOf(CachedScan(world.s, key), fails);
      GetScanMoves(world.cfg, world.s, k, Checking(version, pod, images, i, pending), fails);
      Now(Checking(version, pod, images, i, pending), DoGetScan(fails));
      match reply
      case Failed => IsReturned(DoGetScan(fails), Again);
      case Missing => IsAt(DoGetScan(fails), Creating(version, pod, images, i, pending));
      case Got(scan) =>
        IsAt(DoGetScan(fails),
             Checking(version, pod, images, i + 1, if Passes(scan) then pending else pending + [images[i]]));
    }

    /** Create stores the object it is given, unless it is malformed or there is one already. */
    method Create(key: Key, scan: Scan, ghost version: nat, ghost pod: Pod, ghost images: seq<ImageRef>, ghost i: nat,
                  ghost pending: seq<ImageRef>)
      returns (reply: CreateReply)
      requires i < |images| && key == world.cfg.ScanKey(k.namespace, images[i])
      requires scan == Scan(world.cfg.hash(images[i].image)[..16], ImageRef(images[i].image, images[i].digest),
                            Status(Unset, "", "", 0, None, None))
      requires At(Creating(version, pod, images, i, pending))
      modifies world`s, world`trace, world`last
      ensures reply.Created? ==> key !in world.last.scans && key in world.s.scans && world.s.scans[key] == [scan]
      ensures reply.AlreadyExists? ==> key in world.last.scans && world.s.scans == world.last.scans
      ensures reply.NotCreated? ==> Returned(Again)
      ensures !reply.NotCreated? ==> At(Checking(version, pod, images, i + 1, pending + [images[i]]))
    {
      hide World.Valid, ScanName, WellFormedDigest, PodMove, PodEnabled, Stepped, Returned, NewScan;
      ghost var run := Creating(version, pod, images, i, pending);
      Await(run);
      var outcome: Outcome := *;
      reply := if !outcome.Applied? || !WellFormedDigest(scan.spec.digest) then NotCreated
               else if key in world.s.scans then AlreadyExists else Created;
      SpecOfNew(world.cfg, images[i], scan);
      CreateMoves(world.cfg, world.s, k, run, outcome);
      Now(run, DoCreateScan(outcome));
      if reply.NotCreated? {
        IsReturned(DoCreateScan(outcome), Again);
      } else {
        ScanIsStored(outcome);
        IsAt(DoCreateScan(outcome), Checking(version, pod, images, i + 1, pending + [images[i]]));
      }
    }

    lemma ScanIsStored(outcome: Outcome)
      requires Stepped(DoCreateScan(outcome)) && outcome.Applied?
      ensures var ref := world.last.podRuns[k].images[world.last.podRuns[k].i];
              var key := world.cfg.ScanKey(k.namespace, ref);
              if key in world.last.scans then world.s.scans == world.last.scans
              else WellFormedDigest(ref.digest) ==>
                     key in world.s.scans && world.s.scans[key] == [NewScan(world.cfg, ref)]
    {
      hide World.Valid, PodMove, PodMoved, ScanName, NewScan, WellFormedDigest;
      var ref := world.last.podRuns[k].images[world.last.podRuns[k].i];
      assert [] + [NewScan(world.cfg, ref)] == [NewScan(world.cfg, ref)];
    }

    /**
     * Update writes the object it is given, which must be the pod read, without our gate; when it
     * succeeds that object is the next version of the pod.
     */
    method Update(copy: PodObject, ghost run: PodRun) returns (ok: bool)
      requires At(run) && AboutToUpdate(run) && copy.Value() == Ungated(run.pod)
      modifies world`s, world`trace, world`last
      ensures Returned(if ok then Done else Again)
      ensures ok ==> |PodVersions(world.s, k)| == run.version + 1 && StoredPod(world.s, k) == Some(copy.Value())
    {
      hide World.Valid, PodVersions, StoredPod, AfterGetPod, AfterResolve, AfterGetScan, AfterCreate, Stepped;
      hide Returned, Ungated;
      Await(run);
      var outcome: Outcome := *;
      ok := PodWriteLands(world.s, k, world.s.podRuns[k], outcome) && outcome.Applied?;
      Now(run, DoUpdatePod(outcome));
      if ok {
        PodIsStored(outcome);
      }
      IsReturned(DoUpdatePod(outcome), if ok then Done else Again);
    }

    lemma PodIsStored(outcome: Outcome)
      requires Stepped(DoUpdatePod(outcome)) && PodWriteLands(world.last, k, world.last.podRuns[k], outcome)
      ensures |PodVersions(world.s, k)| == world.last.podRuns[k].version + 1
      ensures StoredPod(world.s, k) == Some(Ungated(world.last.podRuns[k].pod))
    {
      hide World.Valid, PodMove, PodMoved, Ungated;
      StoreAppends(world.last, k, Some(Ungated(world.last.podRuns[k].pod)));
    }

    /** No call: some scan is missing from the Registered ones, and the watch will wake the pod. */
    method WaitForScans(ghost version: nat, ghost pod: Pod, ghost images: seq<ImageRef>, ghost pending: seq<ImageRef>)
      requires pending != [] && At(Checking(version, pod, images, |images|, pending))
      modifies world`s, world`trace, world`last
      ensures Returned(Done)
    {
      hide World.Valid, AfterGetPod, AfterResolve, AfterGetScan, AfterCreate, AfterUpdate, Stepped, Returned;
      Step(Checking(version, pod, images, |images|, pending), Wait);
      IsReturned(Wait, Done);
    }
  }

  lemma StoreAppends(s: State, k: Key, pod: Option<Pod>)
    ensures var t := StorePod(s, k, pod); |PodVersions(t, k)| == |PodVersions(s, k)| + 1 && StoredPod(t, k) == pod
  {
  }

  /** What is created for a reference: its label, its spec, and an empty status. */
  lemma SpecOfNew(cfg: Config, ref: ImageRef, scan: Scan)
    requires scan == Scan(cfg.hash(ref.image)[..16], ImageRef(ref.image, ref.digest),
                          Status(Unset, "", "", 0, None, None))
    ensures scan == NewScan(cfg, ref) && scan.spec == ref
  {
  }

  /** hasSchedulingGate. */
  method HasSchedulingGate(pod: PodObject, name: string) returns (has: bool)
    ensures has <==> name in pod.gates
  {
    for i := 0 to |pod.gates|
      invariant name !in pod.gates[..i]
    {
      if pod.gates[i] == name {
        return true;
      }
    }
    assert pod.gates[..|pod.gates|] == pod.gates;
    return false;
  }

  /** The image strings of `refs`. */
  function ImageStrings(refs: seq<ImageRef>): seq<string> {
    seq(|refs|, i requires 0 <= i < |refs| => refs[i].image)
  }

  lemma NoneSettled(cfg: Config, resolved: set<Resolution>, k: Key, extracted: seq<ImageRef>)
    ensures ResolvedUpTo(cfg, resolved, k, extracted, extracted, 0)
  {
  }

  lemma SettledStay(cfg: Config, resolved: set<Resolution>, resolved': set<Resolution>, k: Key, images: seq<ImageRef>,
                    extracted: seq<ImageRef>, n: nat)
    requires ResolvedUpTo(cfg, resolved, k, images, extracted, n) && resolved <= resolved'
    ensures ResolvedUpTo(cfg, resolved', k, images, extracted, n)
  {
  }

  lemma AllSettled(cfg: Config, resolved: set<Resolution>, k: Key, images: seq<ImageRef>, extracted: seq<ImageRef>)
    requires ResolvedUpTo(cfg, resolved, k, images, extracted, |images|)
    ensures |images| == |extracted|
    ensures forall j :: 0 <= j < |images| ==> DigestFrom(cfg, resolved, k, extracted[j], images[j])
  {
    hide Settled, DigestFrom;
    forall j | 0 <= j < |images| ensures DigestFrom(cfg, resolved, k, extracted[j], images[j]) {
      SettledByAnswer(cfg, resolved, k, extracted[j], images[j]);
    }
  }

  /** The reconciler, with its configuration. */
  class Reconciler {
    const cfg: Config

    constructor (cfg: Config)
      ensures this.cfg == cfg
    {
      this.cfg := cfg;
    }

    /**
     * The first loop: every image without a digest gets the one the registry answers for that image
     * behind the mirror of the first rule for its registry.
     */
    method ResolveDigests(client: Client, extracted: seq<ImageRef>, ghost version: nat, ghost pod: Pod)
      returns (images: seq<ImageRef>, ok: bool)
      requires client.world.cfg == cfg && client.At(Resolving(version, pod, extracted, 0))
      modifies client.world`s, client.world`trace, client.world`last
      ensures !ok ==> client.Returned(Again)
      ensures ok ==> client.At(Checking(version, pod, images, 0, []))
      ensures ok ==> |images| == |extracted|
      ensures ok ==> forall j :: 0 <= j < |images| ==>
                DigestFrom(cfg, client.world.s.resolved, client.k, extracted[j], images[j])
    {
      hide Client.At, Client.Returned, ApplyMirrorsToImageRef, ResolvedUpTo, DigestFrom;
      images := extracted;
      NoneSettled(cfg, client.world.s.resolved, client.k, extracted);
      for i := 0 to |images|
        invariant |images| == |extracted| && client.At(Resolving(version, pod, images, i))
        invariant ResolvedUpTo(cfg, client.world.s.resolved, client.k, images, extracted, i)
      {
        ghost var before, resolved := images, client.world.s.resolved;
        var img := images[i];
        if img.digest == "" {
          var mirrored := ApplyMirrorsToImageRef(cfg.parse, img, cfg.mirrors);
          var digest := client.ResolveImageRef(mirrored, version, pod, images, i);
          if digest.None? {
            return images, false;
          }
          images := images[i := ImageRef(img.image, digest.value)];
        } else {
          client.KeepDigest(version, pod, images, i);
        }
        SettledStay(cfg, resolved, client.world.s.resolved, client.k, before, extracted, i);
        SettleOne(cfg, client.world.s.resolved, client.k, before, extracted, i, images);
      }
      ghost var resolved := client.world.s.resolved;
      client.BeginChecks(version, pod, images);
      SettledStay(cfg, resolved, client.world.s.resolved, client.k, images, extracted, |images|);
      AllSettled(cfg, client.world.s.resolved, client.k, images, extracted);
      return images, true;
    }

    /** One turn of the second loop; `passed` means that the image need not be waited for. */
    method CheckScan(client: Client, img: ImageRef, ghost version: nat, ghost pod: Pod, ghost images: seq<ImageRef>,
                     ghost i: nat, ghost pending: seq<ImageRef>)
      returns (passed: bool, ok: bool)
      requires i < |images| && img == images[i] && client.At(Checking(version, pod, images, i, pending))
      modifies client.world`s, client.world`trace, client.world`last
      ensures !ok ==> client.Returned(Again)
      ensures ok ==> client.At(Checking(version, pod, images, i + 1, if passed then pending else pending + [img]))
      ensures var read := CachedScan(client.world.last, client.world.cfg.ScanKey(client.k.namespace, img));
              passed ==> ok && read.Some? && Passes(read.value)
    {
      hide Client.At, Client.Returned, ScanName, ImageHash, CachedScan;
      var scanName := ScanName(client.world.cfg.hash, img);
      var scanNamespace := client.world.cfg.scanNamespace;
      if scanNamespace == "" {
        scanNamespace := client.k.namespace;
      }
      var reply := client.GetScan(Key(scanNamespace, scanName), version, pod, images, i, pending);
      if reply.Missing? {
        var scan := Scan(ImageHash(client.world.cfg.hash, img.image), ImageRef(img.image, img.digest), NEW_STATUS);
        var created := client.Create(Key(scanNamespace, scanName), scan, version, pod, images, i, pending);
        return false, !created.NotCreated?;
      } else if reply.Failed? {
        return false, false;
      }
      match reply.value.status.phase {
        case Registered => return true, true;
        case Error => return false, true;
        case _ => return false, true;
      }
    }

    /** The second loop: every image's scan is read, and created when it is missing. */
    method CheckScans(client: Client, images: seq<ImageRef>, ghost version: nat, ghost pod: Pod)
      returns (allPassed: bool, pendingImages: seq<string>, ok: bool, ghost pending: seq<ImageRef>)
      requires client.At(Checking(version, pod, images, 0, []))
      modifies client.world`s, client.world`trace, client.world`last
      ensures !ok ==> client.Returned(Again)
      ensures ok ==> client.At(Checking(version, pod, images, |images|, pending))
      ensures ok ==> (allPassed <==> pending == []) && pendingImages == ImageStrings(pending)
    {
      hide Client.At, Client.Returned, CachedScan, Config.ScanKey, Passes;
      allPassed, pendingImages, pending := true, [], [];
      for i := 0 to |images|
        invariant client.At(Checking(version, pod, images, i, pending))
        invariant (allPassed <==> pending == []) && pendingImages == ImageStrings(pending)
      {
        var img := images[i];
        var passed, answered := CheckScan(client, img, version, pod, images, i, pending);
        if !answered {
          return false, pendingImages, false, pending;
        }
        if !passed {
          allPassed := false;
          pendingImages, pending := pendingImages + [img.image], pending + [img];
        }
      }
      return allPassed, pendingImages, true, pending;
    }

    /** Remove the gate from the copy of the pod and write it back. */
    method Release(client: Client, pod: PodObject, ghost run: PodRun) returns (r: Return)
      requires client.At(run) && AboutToUpdate(run) && pod.Value() == run.pod
      modifies client.world`s, client.world`trace, client.world`last, pod
      ensures client.Returned(r) && pod.Value() == Ungated(run.pod)
      ensures r.Done? ==> |PodVersions(client.world.s, client.k)| == run.version + 1
                          && StoredPod(client.world.s, client.k) == Some(Ungated(run.pod))
    {
      hide Client.At, Client.Returned, AboutToUpdate, StoredPod, PodVersions;
      RemoveSchedulingGate(pod, SCHEDULING_GATE);
      var ok := client.Update(pod, run);
      return if ok then Done else Again;
    }

    /** The part of Reconcile that deals with the images of a pod. */
    method CheckImages(client: Client, pod: PodObject, extracted: seq<ImageRef>, ghost version: nat) returns (r: Return)
      requires client.world.cfg == cfg && client.At(Resolving(version, pod.Value(), extracted, 0))
      modifies client.world`s, client.world`trace, client.world`last, pod
      ensures client.Returned(r)
    {
      hide Client.At, Client.Returned;
      ghost var read := pod.Value();
      var built := client.BuildResolver(version, read, extracted);
      if !built {
        return Again;
      }
      var images, resolved := ResolveDigests(client, extracted, version, read);
      if !resolved {
        return Again;
      }
      var allPassed, pendingImages, checked, pending := CheckScans(client, images, version, read);
      if !checked {
        return Again;
      }
      if allPassed {
        r := Release(client, pod, Checking(version, read, images, |images|, pending));
        return;
      }
      client.WaitForScans(version, read, images, pending);
      return Done;
    }

    /** The part of Reconcile that deals with a pod that carries the gate. */
    method ReconcileGated(client: Client, pod: PodObject, ghost version: nat) returns (r: Return)
      requires client.world.cfg == cfg && client.At(Beginning(version, pod.Value()))
      modifies client.world`s, client.world`trace, client.world`last, pod
      ensures client.Returned(r)
    {
      hide Client.At, Client.Returned, ExtractFromPodSpec;
      if ANNOTATION_BYPASS in pod.annotations && pod.annotations[ANNOTATION_BYPASS] == "true" {
        r := Release(client, pod, Releasing(version, pod.Value()));
        return;
      }
      var images, at := Extract(pod.spec);
      if |images| == 0 {
        r := Release(client, pod, Releasing(version, pod.Value()));
        return;
      }
      r := CheckImages(client, pod, images, version);
    }

    /** Reconcile, once the object that makes its calls is there. */
    method ReconcileBy(client: Client) returns (r: Return)
      requires client.world.cfg == cfg && client.At(PodFetch)
      modifies client.world`s, client.world`trace, client.world`last
      ensures client.Returned(r)
    {
      hide Client.At, Client.Returned, NamespaceFilter.Excludes, ExtractFromPodSpec, Pod.Bypassed;
      if client.world.cfg.filter.Excludes(client.k.namespace) {
        client.Skip();
        return Done;
      }
      var reply, version := client.GetPod();
      if reply.Failed? {
        return Again;
      } else if reply.Missing? {
        return Done;
      }
      var pod := new PodObject(reply.value);
      var gated := HasSchedulingGate(pod, SCHEDULING_GATE);
      if !gated {
        return Done;
      }
      r := ReconcileGated(client, pod, version);
    }

    /**
     * Reconcile. What happened between its beginning and its end is an execution of the protocol whose
     * steps are its own, those of the run started for `k`, or those of others while it waited; the
     * process did not end. The last of all is its own, and the one that ends the run, with the retry it
     * asks for.
     */
    method Reconcile(world: World, k: Key) returns (r: Return)
      requires world.cfg == cfg && k in world.s.podRuns && world.s.podRuns[k].PodFetch?
      modifies world
      ensures Executes(world.cfg, old(world.s), world.trace, world.s) && WhileRunning(PodCaller(k), world.trace)
      ensures world.trace != [] && world.trace[|world.trace| - 1].PodStep? && world.trace[|world.trace| - 1].key == k
      ensures Executes(world.cfg, old(world.s), world.trace[..|world.trace| - 1], world.last)
      ensures var a := world.trace[|world.trace| - 1].pod;
              PodEnabled(world.last, k, a) && PodMove(world.cfg, world.last, k, a) == if r.Again? then Retry else Finish
      ensures PodMoved(world.last, world.s, k, if r.Again? then Retry else Finish)
    {
      hide PodMoved, Executes, PodMove, PodEnabled, Enabled, Apply, WhileRunning;
      world.Begin(PodCaller(k));
      var client := new Client(world, k);
      r := ReconcileBy(client);
    }
  }
}
