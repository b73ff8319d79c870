/** The batch command (cmd/trigger/aqua-trigger.go): its two loops and the account it gives of every image. */
module BatchTrigger {
  import opened Wrappers
  import opened Text
  import opened Filtering
  import opened ImageRefs
  import opened Mirrors
  import opened Manifests

  datatype LookupReply = Found | NotFound | LookupError

  /**
   * Everything that may go one way or another. Each image is resolved, looked up and triggered at
   * most once, so that functions of the image cover every sequence of outcomes; the context is
   * cancelled when the scan loop has made `patience` turns.
   */
  datatype Oracle = Oracle(
    resolve: string -> Option<string>,
    lookup: ImageRef -> LookupReply,
    trigger: ImageRef -> Option<string>,
    patience: nat)

  /** What becomes of an image. */
  datatype Fate = Unresolved | ScanFailed | AlreadyScanned | Triggered

  function ResolvedRef(o: Oracle, img: ImageRef): Option<ImageRef> {
    if img.digest != "" then Some(img)
    else if o.resolve(img.image).None? then None
    else Some(ImageRef(img.image, o.resolve(img.image).value))
  }

  function ScanFate(o: Oracle, img: ImageRef): Fate {
    match o.lookup(img)
    case LookupError => ScanFailed
    case Found => AlreadyScanned
    case NotFound => if o.trigger(img).Some? then Triggered else ScanFailed
  }

  function FateOf(o: Oracle, img: ImageRef): Fate {
    if ResolvedRef(o, img).None? then Unresolved else ScanFate(o, ResolvedRef(o, img).value)
  }

  /** How many of the images meet a fate. */
  function Count(o: Oracle, images: seq<ImageRef>, fate: Fate): nat {
    |Filter(images, img => FateOf(o, img) == fate)|
  }

  /** The images that were resolved, with their digests, in order. */
  function Resolved(o: Oracle, images: seq<ImageRef>): seq<ImageRef> {
    if images == [] then []
    else
      var n := |images| - 1;
      var ref := ResolvedRef(o, images[n]);
      Resolved(o, images[..n]) + if ref.Some? then [ref.value] else []
  }

  /** The images for which a scan is requested: resolved, and not known to Aqua. */
  function Requested(o: Oracle, resolved: seq<ImageRef>): seq<ImageRef> {
    Filter(resolved, img => o.lookup(img) == NotFound)
  }

  /** How a run ends; `errors` is what it returns an error for. */
  datatype Report =
    | Unreadable
    | NoImages
    | NothingResolved
    | BadMirrors(error: ParseError)
    | DryRun(images: seq<ImageRef>, resolveErrors: nat)
    | Cancelled
    | Summary(scansTriggered: nat, alreadyScanned: nat, scanErrors: nat, resolveErrors: nat)
  {
    predicate IsError() {
      Unreadable? || NothingResolved? || BadMirrors? || Cancelled? || (Summary? && resolveErrors + scanErrors > 0)
    }
  }

  // ----- what a run must account for, said of the replies -----

  /** The reference an image is looked up by: its own digest, or the one it resolves to. */
  ghost predicate ResolvesTo(o: Oracle, img: ImageRef, ref: ImageRef) {
    ref.image == img.image
    && if img.digest != "" then ref.digest == img.digest else o.resolve(img.image) == Some(ref.digest)
  }

  ghost function CannotResolve(o: Oracle): ImageRef -> bool {
    (img: ImageRef) => img.digest == "" && o.resolve(img.image) == None
  }

  /** Aqua knows the image. */
  ghost function Knows(o: Oracle): ImageRef -> bool {
    (ref: ImageRef) => o.lookup(ref) == Found
  }

  /** Aqua does not know it and accepts the trigger. */
  ghost function Accepts(o: Oracle): ImageRef -> bool {
    (ref: ImageRef) => o.lookup(ref) == NotFound && o.trigger(ref).Some?
  }

  /** The lookup fails, or the trigger does. */
  ghost function Refuses(o: Oracle): ImageRef -> bool {
    (ref: ImageRef) => o.lookup(ref) == LookupError || (o.lookup(ref) == NotFound && o.trigger(ref).None?)
  }

  /** The image is not resolved, or its lookup fails, or the trigger it needs does. */
  ghost predicate Fails(o: Oracle, img: ImageRef) {
    CannotResolve(o)(img) || exists ref :: ResolvesTo(o, img, ref) && Refuses(o)(ref)
  }

  /** The four counts of a summary are those of the replies, and it is an error exactly when some image fails. */
  ghost predicate Accounts(o: Oracle, images: seq<ImageRef>, resolved: seq<ImageRef>, r: Report)
    requires r.Summary?
  {
    && r.scansTriggered == |Filter(resolved, Accepts(o))|
    && r.alreadyScanned == |Filter(resolved, Knows(o))|
    && r.scanErrors == |Filter(resolved, Refuses(o))|
    && r.resolveErrors == |Filter(images, CannotResolve(o))|
    && (r.IsError() <==> exists img :: img in images && Fails(o, img))
  }

  /** The fates are those replies. */
  lemma FateMeans(o: Oracle, img: ImageRef)
    ensures (FateOf(o, img) == Unresolved || FateOf(o, img) == ScanFailed) <==> Fails(o, img)
    ensures FateOf(o, img) == Unresolved <==> CannotResolve(o)(img)
  {
    if ResolvedRef(o, img).Some? {
      assert ResolvesTo(o, img, ResolvedRef(o, img).value);
    }
  }

  lemma ScanCountsReplies(o: Oracle, resolved: seq<ImageRef>)
    ensures ScanCount(o, resolved, Triggered) == |Filter(resolved, Accepts(o))|
    ensures ScanCount(o, resolved, AlreadyScanned) == |Filter(resolved, Knows(o))|
    ensures ScanCount(o, resolved, ScanFailed) == |Filter(resolved, Refuses(o))|
  {
    hide Filter;
    FilterAlike(resolved, img => ScanFate(o, img) == Triggered, Accepts(o));
    FilterAlike(resolved, img => ScanFate(o, img) == AlreadyScanned, Knows(o));
    FilterAlike(resolved, img => ScanFate(o, img) == ScanFailed, Refuses(o));
  }

  lemma UnresolvedCounts(o: Oracle, images: seq<ImageRef>)
    ensures Count(o, images, Unresolved) == |Filter(images, CannotResolve(o))|
  {
    hide Filter, FateOf;
    forall i | 0 <= i < |images| ensures (FateOf(o, images[i]) == Unresolved) == CannotResolve(o)(images[i]) {
      FateMeans(o, images[i]);
    }
    FilterAlike(images, img => FateOf(o, img) == Unresolved, CannotResolve(o));
  }

  lemma CountsAccount(o: Oracle, images: seq<ImageRef>)
    ensures Accounts(o, images, Resolved(o, images),
                     Summary(Count(o, images, Triggered), Count(o, images, AlreadyScanned),
                             Count(o, images, ScanFailed), Count(o, images, Unresolved)))
  {
    hide Count, ScanCount, FateOf, Resolved, Filter, Fails, CannotResolve;
    ScanCountsReplies(o, Resolved(o, images));
    UnresolvedCounts(o, images);
    ScanLoopDecides(o, images, Triggered);
    ScanLoopDecides(o, images, AlreadyScanned);
    ScanLoopDecides(o, images, ScanFailed);
    CountIsPositive(o, images, Unresolved);
    CountIsPositive(o, images, ScanFailed);
    forall img ensures (FateOf(o, img) == Unresolved || FateOf(o, img) == ScanFailed) <==> Fails(o, img) {
      FateMeans(o, img);
    }
  }

  /** What is resolved, image by image: in order, exactly the images that can be, with the digests that gives. */
  lemma {:induction false} ResolvedExactly(o: Oracle, images: seq<ImageRef>) returns (at: seq<int>)
    ensures var resolved := Resolved(o, images);
            && |at| == |resolved|
            && (forall k :: 0 <= k < |at| ==> 0 <= at[k] < |images| && ResolvesTo(o, images[at[k]], resolved[k]))
            && (forall j, k :: 0 <= j < k < |at| ==> at[j] < at[k])
            && (forall i :: 0 <= i < |images| && !CannotResolve(o)(images[i]) ==> i in at)
  {
    if images == [] {
      at := [];
    } else {
      var n := |images| - 1;
      at := ResolvedExactly(o, images[..n]);
      ghost var before := at;
      if ResolvedRef(o, images[n]).Some? {
        at := at + [n];
      }
      forall i | 0 <= i < |images| && !CannotResolve(o)(images[i]) ensures i in at {
        if i < n {
          assert images[..n][i] == images[i];
          assert i in before;
        } else {
          assert at[|before|] == n;
        }
      }
    }
  }

  // ----- counting -----

  lemma CountOne(o: Oracle, images: seq<ImageRef>, i: nat, fate: Fate)
    requires i < |images|
    ensures Count(o, images[..i + 1], fate) ==
            Count(o, images[..i], fate) + if FateOf(o, images[i]) == fate then 1 else 0
  {
    hide FateOf;
    assert images[..i + 1] == images[..i] + [images[i]];
    FilterOne(images[..i], images[i], img => FateOf(o, img) == fate);
  }

  /** Every image meets exactly one fate. */
  lemma {:induction false} EveryImageCounts(o: Oracle, images: seq<ImageRef>)
    ensures Count(o, images, Triggered) + Count(o, images, AlreadyScanned) + Count(o, images, ScanFailed)
            + Count(o, images, Unresolved) == |images|
  {
    hide Count, FateOf;
    if images == [] {
      NoneCount(o);
    } else {
      var n := |images| - 1;
      EveryImageCounts(o, images[..n]);
      assert images[..n + 1] == images;
      CountOne(o, images, n, Triggered);
      CountOne(o, images, n, AlreadyScanned);
      CountOne(o, images, n, ScanFailed);
      CountOne(o, images, n, Unresolved);
    }
  }

  lemma NoneCount(o: Oracle)
    ensures forall fate :: Count(o, [], fate) == 0
  {
  }

  lemma {:induction false} CountIsPositive(o: Oracle, images: seq<ImageRef>, fate: Fate)
    ensures Count(o, images, fate) > 0 <==> exists img :: img in images && FateOf(o, img) == fate
  {
    hide Count, FateOf;
    if images == [] {
      NoneCount(o);
    } else {
      var n := |images| - 1;
      assert images == images[..n] + [images[n]] && images[..n + 1] == images;
      CountOne(o, images, n, fate);
      CountIsPositive(o, images[..n], fate);
    }
  }

  /** Unless all fail to resolve there is something to scan. */
  lemma {:induction false} SomethingResolved(o: Oracle, images: seq<ImageRef>)
    ensures |Resolved(o, images)| + Count(o, images, Unresolved) == |images|
  {
    hide Count;
    if images == [] {
      NoneCount(o);
    } else {
      var n := |images| - 1;
      assert images[..n + 1] == images;
      CountOne(o, images, n, Unresolved);
      SomethingResolved(o, images[..n]);
    }
  }

  // ----- the loops -----

  /** The fates decided in the scan loop, over the resolved images. */
  function ScanCount(o: Oracle, resolved: seq<ImageRef>, fate: Fate): nat {
    |Filter(resolved, img => ScanFate(o, img) == fate)|
  }

  lemma ScanCountOne(o: Oracle, resolved: seq<ImageRef>, i: nat, fate: Fate)
    requires i < |resolved|
    ensures ScanCount(o, resolved[..i + 1], fate) ==
            ScanCount(o, resolved[..i], fate) + if ScanFate(o, resolved[i]) == fate then 1 else 0
  {
    hide ScanFate;
    assert resolved[..i + 1] == resolved[..i] + [resolved[i]];
    FilterOne(resolved[..i], resolved[i], img => ScanFate(o, img) == fate);
  }

  lemma RequestedOne(o: Oracle, resolved: seq<ImageRef>, i: nat)
    requires i < |resolved|
    ensures Requested(o, resolved[..i + 1]) ==
            Requested(o, resolved[..i]) + if o.lookup(resolved[i]) == NotFound then [resolved[i]] else []
  {
    assert resolved[..i + 1] == resolved[..i] + [resolved[i]];
    FilterOne(resolved[..i], resolved[i], img => o.lookup(img) == NotFound);
  }

  /** The scan loop decides the fates of the images that got that far. */
  lemma {:induction false} ScanLoopDecides(o: Oracle, images: seq<ImageRef>, fate: Fate)
    requires fate != Unresolved
    ensures ScanCount(o, Resolved(o, images), fate) == Count(o, images, fate)
  {
    hide Count, ScanCount, ScanFate, ResolvedRef;
    if images == [] {
      NoneCount(o);
      NoScanCount(o);
    } else {
      var n := |images| - 1;
      assert images[..n + 1] == images;
      CountOne(o, images, n, fate);
      ScanLoopDecides(o, images[..n], fate);
      var before, all := Resolved(o, images[..n]), Resolved(o, images);
      if ResolvedRef(o, images[n]).Some? {
        assert all[..|before|] == before && all[..|before| + 1] == all;
        ScanCountOne(o, all, |before|, fate);
      } else {
        assert all == before;
      }
    }
  }

  lemma NoScanCount(o: Oracle)
    ensures forall fate :: ScanCount(o, [], fate) == 0
  {
  }

  /** The first loop of run. */
  method ResolveAll(o: Oracle, uniqueImages: seq<ImageRef>) returns (resolvedImages: seq<ImageRef>, resolveErrors: nat)
    ensures resolvedImages == Resolved(o, uniqueImages) && resolveErrors == Count(o, uniqueImages, Unresolved)
    ensures resolveErrors == |Filter(uniqueImages, CannotResolve(o))|
  {
    hide Count, Filter;
    NoneCount(o);
    UnresolvedCounts(o, uniqueImages);
    resolvedImages, resolveErrors := [], 0;
    for i := 0 to |uniqueImages|
      invariant resolvedImages == Resolved(o, uniqueImages[..i])
      invariant resolveErrors == Count(o, uniqueImages[..i], Unresolved)
    {
      var img := uniqueImages[i];
      CountOne(o, uniqueImages, i, Unresolved);
      assert uniqueImages[..i + 1][..i] == uniqueImages[..i];
      if img.digest != "" {
        resolvedImages := resolvedImages + [img];
        continue;
      }
      var digest := o.resolve(img.image);
      if digest.None? {
        resolveErrors := resolveErrors + 1;
        continue;
      }
      resolvedImages := resolvedImages + [ImageRef(img.image, digest.value)];
    }
    assert uniqueImages[..|uniqueImages|] == uniqueImages;
  }

  /** The second loop of run; `requests` are the TriggerScan calls it makes. */
  method ScanAll(o: Oracle, resolvedImages: seq<ImageRef>)
    returns (cancelled: bool, scansTriggered: nat, alreadyScanned: nat, scanErrors: nat, requests: seq<ImageRef>)
    ensures cancelled <==> o.patience < |resolvedImages|
    ensures requests == Filter(if cancelled then resolvedImages[..o.patience] else resolvedImages,
                               img => o.lookup(img) == NotFound)
    ensures !cancelled ==>
              && scansTriggered == |Filter(resolvedImages, Accepts(o))|
              && alreadyScanned == |Filter(resolvedImages, Knows(o))|
              && scanErrors == |Filter(resolvedImages, Refuses(o))|
  {
    hide ScanCount, Requested, Filter;
    ScanCountsReplies(o, resolvedImages);
    RequestedMeans(o, resolvedImages);
    RequestedMeans(o, resolvedImages[..if o.patience < |resolvedImages| then o.patience else 0]);
    NoScanCount(o);
    NoRequests(o);
    scansTriggered, alreadyScanned, scanErrors, requests := 0, 0, 0, [];
    for i := 0 to |resolvedImages|
      invariant i <= o.patience && requests == Requested(o, resolvedImages[..i])
      invariant scansTriggered == ScanCount(o, resolvedImages[..i], Triggered)
      invariant alreadyScanned == ScanCount(o, resolvedImages[..i], AlreadyScanned)
      invariant scanErrors == ScanCount(o, resolvedImages[..i], ScanFailed)
    {
      if i >= o.patience {
        return true, scansTriggered, alreadyScanned, scanErrors, requests;
      }
      var img := resolvedImages[i];
      ScanCountOne(o, resolvedImages, i, Triggered);
      ScanCountOne(o, resolvedImages, i, AlreadyScanned);
      ScanCountOne(o, resolvedImages, i, ScanFailed);
      RequestedOne(o, resolvedImages, i);
      var result := o.lookup(img);
      if result == LookupError {
        scanErrors := scanErrors + 1;
        continue;
      }
      if result == Found {
        alreadyScanned := alreadyScanned + 1;
        continue;
      }
      requests := requests + [img];
      if o.trigger(img).None? {
        scanErrors := scanErrors + 1;
        continue;
      }
      scansTriggered := scansTriggered + 1;
    }
    assert resolvedImages[..|resolvedImages|] == resolvedImages;
    return false, scansTriggered, alreadyScanned, scanErrors, requests;
  }

  lemma RequestedMeans(o: Oracle, resolved: seq<ImageRef>)
    ensures Requested(o, resolved) == Filter(resolved, img => o.lookup(img) == NotFound)
  {
    hide Filter;
    FilterAlike(resolved, img => o.lookup(img) == NotFound, img => o.lookup(img) == NotFound);
  }

  lemma NoRequests(o: Oracle)
    ensures Requested(o, []) == []
  {
  }

  // ----- the whole run -----

  /** The images a run is about: every image of the manifests once. */
  function UniqueImages(decode: string -> Decoded, input: Input): seq<ImageRef> {
    ExtractFromImages(AllContainerImages(decode, input.documents))
  }

  /** What a run reports, by what it meets. */
  function Expected(o: Oracle, decode: string -> Decoded, input: Input, mirrors: string, dryRun: bool): Report {
    var images := UniqueImages(decode, input);
    var resolved := Resolved(o, images);
    if input.readFails then Unreadable
    else if images == [] then NoImages
    else if resolved == [] then NothingResolved
    else if ParseMirrors(mirrors).Err? then BadMirrors(ParseMirrors(mirrors).error)
    else if dryRun then DryRun(resolved, Count(o, images, Unresolved))
    else if o.patience < |resolved| then Cancelled
    else Summary(Count(o, images, Triggered), Count(o, images, AlreadyScanned),
                 Count(o, images, ScanFailed), Count(o, images, Unresolved))
  }

  /** Which images those are: the non-empty ones of all workloads, each with the digest it pins. */
  lemma ImagesAreNamed(decode: string -> Decoded, input: Input, ref: ImageRef)
    ensures ref in UniqueImages(decode, input) <==>
              && (exists i :: 0 <= i < |input.documents| && Names(decode, input.documents[i], ref.image))
              && ref.image != "" && Pins(ref.image, ref.digest)
  {
    hide AllContainerImages, ExtractFromImages, Names, Pins, PinnedDigest;
    NamedImages(decode, input.documents, ref.image);
    ExtractedImages(AllContainerImages(decode, input.documents));
    PinnedExactly(ref.image, ref.digest);
  }

  /**
   * run. A summary accounts for every image by the replies about it; scans are requested for exactly
   * the resolved images that Aqua answered it does not know, in order, up to a cancellation.
   */
  method Run(o: Oracle, decode: string -> Decoded, input: Input, mirrors: string, dryRun: bool)
    returns (r: Report, requests: seq<ImageRef>)
    ensures r == Expected(o, decode, input, mirrors, dryRun)
    ensures var images := UniqueImages(decode, input);
            r.Summary? ==> Accounts(o, images, Resolved(o, images), r)
    ensures var resolved := Resolved(o, UniqueImages(decode, input));
            requests == if r.Summary? then Filter(resolved, img => o.lookup(img) == NotFound)
                        else if r.Cancelled? then Filter(resolved[..o.patience], img => o.lookup(img) == NotFound)
                        else []
  {
    hide Count, ScanCount, Requested, Filter, Accounts, Resolved, ExtractFromImages, AllContainerImages, ExtractEach;
    hide Dedupe, ParseMirrors;
    var images := ExtractImagesFromManifests(decode, input);
    if images.None? {
      return Unreadable, [];
    }
    DedupeIsOneExtraction(decode, input.documents);
    NothingToDedupe(images.value);
    NothingToResolve(o);
    if |images.value| == 0 {
      return NoImages, [];
    }
    var uniqueImages := DeduplicateImages(images.value);
    var resolvedImages, resolveErrors := ResolveAll(o, uniqueImages);
    SomethingResolved(o, uniqueImages);
    if resolveErrors > 0 && |resolvedImages| == 0 {
      return NothingResolved, [];
    }
    if mirrors != "" {
      var parsed := ParseRegistryMirrors(mirrors);
      if parsed.Err? {
        return BadMirrors(parsed.error), [];
      }
    }
    NoMirrors();
    if dryRun {
      return DryRun(resolvedImages, resolveErrors), [];
    }
    ScanLoopDecides(o, uniqueImages, Triggered);
    ScanLoopDecides(o, uniqueImages, AlreadyScanned);
    ScanLoopDecides(o, uniqueImages, ScanFailed);
    ScanCountsReplies(o, resolvedImages);
    CountsAccount(o, uniqueImages);
    var cancelled, scansTriggered, alreadyScanned, scanErrors;
    cancelled, scansTriggered, alreadyScanned, scanErrors, requests := ScanAll(o, resolvedImages);
    if cancelled {
      return Cancelled, requests;
    }
    return Summary(scansTriggered, alreadyScanned, scanErrors, resolveErrors), requests;
  }

  lemma NoMirrors()
    ensures ParseMirrors("") == Ok([])
  {
  }

  lemma NothingToResolve(o: Oracle)
    ensures Resolved(o, []) == []
  {
  }

  /** Something extracted is something unique. */
  lemma NothingToDedupe(images: seq<ImageRef>)
    ensures Dedupe(images) == [] <==> images == []
    decreases |images|
  {
    if |images| <= 1 {
    } else {
      NothingToDedupe(images[..|images| - 1]);
    }
  }

  /**
   * The account of a run that ends with a summary: triggered, already scanned, scan errors and
   * resolve errors add up to the number of unique images, and it is an error exactly when some image
   * was not resolved, looked up and, where needed, triggered.
   */
  lemma EveryImageIsAccountedFor(o: Oracle, decode: string -> Decoded, input: Input, mirrors: string, dryRun: bool)
    ensures var images, r := UniqueImages(decode, input), Expected(o, decode, input, mirrors, dryRun);
            r.Summary? ==>
              && r.scansTriggered + r.alreadyScanned + r.scanErrors + r.resolveErrors == |images|
              && Accounts(o, images, Resolved(o, images), r)
  {
    hide Count, FateOf, Resolved, UniqueImages, ParseMirrors, Accounts;
    var images := UniqueImages(decode, input);
    EveryImageCounts(o, images);
    CountsAccount(o, images);
  }

  /** Some image has a digest or gets one. */
  lemma SomethingResolves(o: Oracle, images: seq<ImageRef>)
    ensures Resolved(o, images) == [] <==> forall img :: img in images ==> CannotResolve(o)(img)
  {
    hide Resolved, CannotResolve;
    var at := ResolvedExactly(o, images);
    if Resolved(o, images) != [] {
      assert ResolvesTo(o, images[at[0]], Resolved(o, images)[0]);
      Resolvable(o, images[at[0]], Resolved(o, images)[0]);
    }
  }

  lemma Resolvable(o: Oracle, img: ImageRef, ref: ImageRef)
    requires ResolvesTo(o, img, ref)
    ensures !CannotResolve(o)(img)
  {
  }

  /**
   * When a run fails, whatever it meets: the input cannot be read; there are images and none can be
   * resolved; or some can be, and the mirror list is malformed, or it is no dry run and is cancelled
   * before the last of them or some image fails.
   */
  lemma RunFailsExactly(o: Oracle, decode: string -> Decoded, input: Input, mirrors: string, dryRun: bool)
    ensures var images := UniqueImages(decode, input);
            var none := forall img :: img in images ==> CannotResolve(o)(img);
            Expected(o, decode, input, mirrors, dryRun).IsError() <==>
              || input.readFails
              || (images != [] && none)
              || (!none && (exists p :: p in Split(mirrors, ',') && BadSegment(p)))
              || (!none && !dryRun
                  && (o.patience < |Resolved(o, images)| || exists img :: img in images && Fails(o, img)))
  {
    hide Count, FateOf, Resolved, UniqueImages, ParseMirrors, Fails, CannotResolve, BadSegment, Split;
    var images := UniqueImages(decode, input);
    SomethingResolves(o, images);
    NothingToResolve(o);
    ParseFailsExactly(mirrors);
    CountsAccount(o, images);
  }

  // ----- no image is triggered twice -----

  predicate ImagesDiffer(refs: seq<ImageRef>) {
    forall j, k :: 0 <= j < k < |refs| ==> refs[j].image != refs[k].image
  }

  /** Resolving keeps image strings. */
  lemma {:induction false} ResolvedFromImages(o: Oracle, images: seq<ImageRef>, ref: ImageRef)
    requires ref in Resolved(o, images)
    ensures exists j :: 0 <= j < |images| && images[j].image == ref.image
  {
    if images == [] {
    } else {
      var n := |images| - 1;
      if ref in Resolved(o, images[..n]) {
        ResolvedFromImages(o, images[..n], ref);
        var j :| 0 <= j < n && images[..n][j].image == ref.image;
        assert images[j].image == ref.image;
      } else {
        assert images[n].image == ref.image;
      }
    }
  }

  lemma {:induction false} ResolvedImagesDiffer(o: Oracle, images: seq<ImageRef>)
    requires ImagesDiffer(images)
    ensures ImagesDiffer(Resolved(o, images))
  {
    if images == [] {
    } else {
      var n := |images| - 1;
      var before := Resolved(o, images[..n]);
      ResolvedImagesDiffer(o, images[..n]);
      forall j | 0 <= j < |before| ensures before[j].image != images[n].image {
        ResolvedFromImages(o, images[..n], before[j]);
      }
    }
  }

  /** In one run TriggerScan is called at most once for an image, and only for images of the manifests. */
  lemma NoImageIsTriggeredTwice(o: Oracle, decode: string -> Decoded, input: Input)
    ensures var images := UniqueImages(decode, input);
            var requests := Requested(o, Resolved(o, images));
            && ImagesDiffer(requests)
            && (forall ref :: ref in requests <==> ref in Resolved(o, images) && o.lookup(ref) == NotFound)
            && forall ref :: ref in requests ==> exists j :: 0 <= j < |images| && images[j].image == ref.image
  {
    hide Resolved, AllContainerImages, ExtractFromImages;
    var images := UniqueImages(decode, input);
    var resolved := Resolved(o, images);
    ExtractedImages(AllContainerImages(decode, input.documents));
    ResolvedImagesDiffer(o, images);
    var at := FilterKeepsExactly(resolved, img => o.lookup(img) == NotFound);
    var requests := Requested(o, resolved);
    forall ref ensures ref in requests <==> ref in resolved && o.lookup(ref) == NotFound {
      FilterMembers(resolved, img => o.lookup(img) == NotFound, ref);
    }
    forall ref | ref in requests ensures exists j :: 0 <= j < |images| && images[j].image == ref.image {
      var k :| 0 <= k < |requests| && requests[k] == ref;
      assert resolved[at[k]] == ref;
      ResolvedFromImages(o, images, ref);
    }
  }
}
