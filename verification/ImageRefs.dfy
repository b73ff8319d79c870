/**
 * Image references (pkg/imageref/imageref.go): extraction from a pod spec,
 * de-duplication, and the names ImageScan objects are stored under.
 */
module ImageRefs {
  import opened Filtering
  import opened Text

  datatype ImageRef = ImageRef(image: string, digest: string)

  /** The image fields of a PodSpec's three container lists. */
  datatype PodSpec = PodSpec(initContainers: seq<string>, containers: seq<string>, ephemeralContainers: seq<string>)
  {
    function AllImages(): seq<string> {
      initContainers + containers + ephemeralContainers
    }
  }

  // ----- digests and hashes -----

  predicate IsHexDigit(c: char) {
    '0' <= c <= '9' || 'a' <= c <= 'f'
  }

  predicate IsHex(s: string) {
    forall i :: 0 <= i < |s| ==> IsHexDigit(s[i])
  }

  const SHA256_PREFIX := "sha256:"

  /** The pattern the ImageScan resource definition demands of spec.digest. */
  predicate WellFormedDigest(digest: string) {
    |digest| == 71 && SHA256_PREFIX <= digest && IsHex(digest[7..])
  }

  function ZeroHash(s: string): string {
    seq(64, _ => '0')
  }

  /** HashString: any function to 64 hexadecimal digits; nothing else about SHA-256 is used. */
  type Hasher = h: string -> string | forall s :: |h(s)| == 64 && IsHex(h(s)) witness ZeroHash

  /** The value of the image-hash label for an image string. */
  function ImageHash(hash: Hasher, image: string): (h: string)
    ensures |h| == 16 && h <= hash(image)
  {
    hash(image)[..16]
  }

  // ----- extraction -----

  /** Where the image string names its own digest, or -1. */
  function DigestMark(image: string): (i: int)
    ensures -1 <= i < |image|
  {
    IndexOfString(image, "@sha256:")
  }

  /** The digest written in the image string itself, or "". */
  function PinnedDigest(image: string): string {
    var idx := DigestMark(image);
    if idx == -1 then "" else image[idx + 1..]
  }

  function FromImage(image: string): ImageRef {
    ImageRef(image, PinnedDigest(image))
  }

  /** The non-empty strings of `xs`, each at its first occurrence. */
  function Unique(xs: seq<string>): seq<string> {
    if xs == [] then []
    else
      var n := |xs| - 1;
      if xs[n] == "" || xs[n] in xs[..n] then Unique(xs[..n]) else Unique(xs[..n]) + [xs[n]]
  }

  function Refs(images: seq<string>): (refs: seq<ImageRef>)
    ensures |refs| == |images|
    ensures forall i :: 0 <= i < |images| ==> refs[i] == FromImage(images[i])
  {
    seq(|images|, i requires 0 <= i < |images| => FromImage(images[i]))
  }

  /** What extraction from a list of container images yields. */
  function ExtractFromImages(images: seq<string>): seq<ImageRef> {
    Refs(Unique(images))
  }

  function ExtractFromPodSpec(spec: PodSpec): seq<ImageRef> {
    ExtractFromImages(spec.AllImages())
  }

  lemma UniqueOne(xs: seq<string>, x: string)
    ensures Unique(xs + [x]) == if x == "" || x in xs then Unique(xs) else Unique(xs) + [x]
  {
    assert (xs + [x])[..|xs|] == xs;
  }

  lemma ExtractOne(images: seq<string>, image: string)
    ensures ExtractFromImages(images + [image]) ==
            ExtractFromImages(images) + if image == "" || image in images then [] else [FromImage(image)]
  {
    UniqueOne(images, image);
  }

  /** Position `i` is where a non-empty string occurs first. */
  predicate FirstAt(xs: seq<string>, i: int) {
    0 <= i < |xs| && xs[i] != "" && xs[i] !in xs[..i]
  }

  /**
   * The result of extraction, said without recursion: the k-th string kept sits at position
   * `at[k]` of the input, the positions are strictly increasing, and they are exactly the
   * first occurrences of non-empty strings.
   */
  ghost predicate KeepsFirstOccurrences(xs: seq<string>, ys: seq<string>, at: seq<int>) {
    && |at| == |ys|
    && (forall k :: 0 <= k < |at| ==> FirstAt(xs, at[k]) && xs[at[k]] == ys[k])
    && (forall j, k :: 0 <= j < k < |at| ==> at[j] < at[k])
    && (forall i :: FirstAt(xs, i) ==> i in at)
  }

  lemma FirstAtPrefix(xs: seq<string>, n: nat, i: int)
    requires n <= |xs| && i < n
    ensures FirstAt(xs[..n], i) <==> FirstAt(xs, i)
  {
    if 0 <= i {
      assert xs[..n][..i] == xs[..i];
    }
  }

  /** Appending one string appends its position exactly when it is new. */
  lemma KeepsOneMore(xs: seq<string>, n: nat, ys: seq<string>, at: seq<int>)
    requires n + 1 == |xs| && KeepsFirstOccurrences(xs[..n], ys, at)
    ensures FirstAt(xs, n) ==> KeepsFirstOccurrences(xs, ys + [xs[n]], at + [n])
    ensures !FirstAt(xs, n) ==> KeepsFirstOccurrences(xs, ys, at)
  {
    forall k | 0 <= k < |at| ensures FirstAt(xs, at[k]) && xs[at[k]] == ys[k] {
      FirstAtPrefix(xs, n, at[k]);
    }
    forall i | FirstAt(xs, i) ensures i in at || i == n {
      if i < n {
        FirstAtPrefix(xs, n, i);
      }
    }
    forall i | i in at || i == n ensures i in at + [n] {
      Extended(at, n, i);
    }
  }

  lemma {:induction false} UniqueKeepsFirstOccurrences(xs: seq<string>) returns (at: seq<int>)
    ensures KeepsFirstOccurrences(xs, Unique(xs), at)
  {
    if xs == [] {
      at := [];
    } else {
      var n := |xs| - 1;
      at := UniqueKeepsFirstOccurrences(xs[..n]);
      KeepsOneMore(xs, n, Unique(xs[..n]), at);
      if FirstAt(xs, n) {
        at := at + [n];
      }
    }
  }

  /** What is kept is what was there, but the empty string. */
  lemma {:induction false} UniqueMembers(xs: seq<string>, x: string)
    ensures x in Unique(xs) <==> x in xs && x != ""
  {
    if xs == [] {
    } else {
      UniqueMembers(xs[..|xs| - 1], x);
      assert xs == xs[..|xs| - 1] + [xs[|xs| - 1]];
    }
  }

  lemma {:induction false} UniqueRepeatsNothing(xs: seq<string>)
    ensures forall j, k :: 0 <= j < k < |Unique(xs)| ==> Unique(xs)[j] != Unique(xs)[k]
  {
    if xs == [] {
    } else {
      var n := |xs| - 1;
      UniqueRepeatsNothing(xs[..n]);
      UniqueMembers(xs[..n], xs[n]);
    }
  }

  /** Extraction repeats nothing, invents nothing, keeps no empty string and loses nothing. */
  lemma ExtractedImages(images: seq<string>)
    ensures var refs := ExtractFromImages(images);
            && (forall j, k :: 0 <= j < k < |refs| ==> refs[j].image != refs[k].image)
            && (forall ref :: ref in refs <==> ref.image in images && ref.image != "" && ref == FromImage(ref.image))
  {
    var refs, ys := ExtractFromImages(images), Unique(images);
    UniqueRepeatsNothing(images);
    forall ref | ref in refs ensures ref.image in images && ref.image != "" && ref == FromImage(ref.image) {
      var k :| 0 <= k < |refs| && refs[k] == ref;
      assert ys[k] in ys;
      UniqueMembers(images, ys[k]);
    }
    forall image | image in images && image != "" ensures FromImage(image) in refs {
      UniqueMembers(images, image);
      var k :| 0 <= k < |ys| && ys[k] == image;
      assert refs[k] == FromImage(image);
    }
  }

  /**
   * `digest` is what `image` says after the '@' of its first "@sha256:", and nothing when it has none:
   * what extraction should read off an image string, said without searching.
   */
  ghost predicate Pins(image: string, digest: string) {
    if exists i :: OccursAt(image, "@sha256:", i)
    then exists i :: OccursAt(image, "@sha256:", i) && (forall k :: 0 <= k < i ==> !OccursAt(image, "@sha256:", k))
                     && i < |image| && digest == image[i + 1..]
    else digest == ""
  }

  lemma PinnedExactly(image: string, digest: string)
    ensures Pins(image, digest) <==> digest == PinnedDigest(image)
  {
    var idx := DigestMark(image);
    if idx != -1 {
      assert OccursAt(image, "@sha256:", idx);
      forall i | OccursAt(image, "@sha256:", i) && (forall k :: 0 <= k < i ==> !OccursAt(image, "@sha256:", k))
        ensures i == idx
      {
      }
    }
  }

  /** A container of the pod, of whichever kind, runs this image. */
  ghost predicate Runs(spec: PodSpec, image: string) {
    image in spec.initContainers || image in spec.containers || image in spec.ephemeralContainers
  }

  /**
   * Extraction, by what it must find: exactly the non-empty images of the three container lists, each
   * with the digest it pins.
   */
  ghost predicate CoversContainers(spec: PodSpec, refs: seq<ImageRef>) {
    forall ref :: ref in refs <==> Runs(spec, ref.image) && ref.image != "" && Pins(ref.image, ref.digest)
  }

  /**
   * And in what order: init containers before regular before ephemeral ones, each image where it
   * occurs first, which for the k-th is position `at[k]`.
   */
  ghost predicate InContainerOrder(spec: PodSpec, refs: seq<ImageRef>, at: seq<int>) {
    var all := spec.initContainers + spec.containers + spec.ephemeralContainers;
    && |at| == |refs|
    && (forall k :: 0 <= k < |at| ==> 0 <= at[k] < |all| && all[at[k]] == refs[k].image && all[at[k]] !in all[..at[k]])
    && (forall j, k :: 0 <= j < k < |at| ==> at[j] < at[k])
  }

  lemma ExtractionCovers(spec: PodSpec) returns (at: seq<int>)
    ensures CoversContainers(spec, ExtractFromPodSpec(spec)) && InContainerOrder(spec, ExtractFromPodSpec(spec), at)
  {
    hide Unique, Pins, PinnedDigest;
    var all := spec.initContainers + spec.containers + spec.ephemeralContainers;
    ExtractedImages(all);
    forall ref: ImageRef ensures ref.image in all <==> Runs(spec, ref.image) {
    }
    forall ref: ImageRef ensures Pins(ref.image, ref.digest) <==> ref == FromImage(ref.image) {
      PinnedExactly(ref.image, ref.digest);
    }
    at := UniqueKeepsFirstOccurrences(all);
  }

  /** The variables captured by the closure in ExtractFromPodSpec. */
  class Collector {
    var images: seq<ImageRef>
    var seen: set<string>
    ghost var offered: seq<string>

    ghost predicate Valid()
      reads this
    {
      && (forall x :: x in seen <==> x in offered && x != "")
      && images == ExtractFromImages(offered)
    }

    constructor ()
      ensures Valid() && offered == []
    {
      images, seen, offered := [], {}, [];
    }

    method AddImage(image: string)
      requires Valid()
      modifies this
      ensures Valid() && offered == old(offered) + [image]
    {
      ExtractOne(offered, image);
      offered := offered + [image];
      if image == "" || image in seen {
        return;
      }
      seen := seen + {image};
      var digest := "";
      var idx := DigestMark(image);
      if idx != -1 {
        digest := image[idx + 1..];
      }
      images := images + [ImageRef(image, digest)];
    }
  }

  /** ExtractFromPodSpec: the three loops over the container lists. */
  method Extract(spec: PodSpec) returns (images: seq<ImageRef>, ghost at: seq<int>)
    ensures CoversContainers(spec, images) && InContainerOrder(spec, images, at)
    ensures images == ExtractFromPodSpec(spec)
  {
    hide ExtractFromImages, CoversContainers, InContainerOrder;
    var collector := new Collector();
    for i := 0 to |spec.initContainers|
      invariant fresh(collector) && collector.Valid()
      invariant collector.offered == spec.initContainers[..i]
    {
      collector.AddImage(spec.initContainers[i]);
    }
    for i := 0 to |spec.containers|
      invariant fresh(collector) && collector.Valid()
      invariant collector.offered == spec.initContainers + spec.containers[..i]
    {
      collector.AddImage(spec.containers[i]);
    }
    for i := 0 to |spec.ephemeralContainers|
      invariant fresh(collector) && collector.Valid()
      invariant collector.offered == spec.initContainers + spec.containers + spec.ephemeralContainers[..i]
    {
      collector.AddImage(spec.ephemeralContainers[i]);
    }
    assert collector.offered == spec.AllImages();
    at := ExtractionCovers(spec);
    return collector.images, at;
  }

  // ----- names of ImageScan objects -----

  /** ScanName: the digest with ':' replaced, cut at 63 characters, or else a hash of the image. */
  function ScanName(hash: Hasher, ref: ImageRef): string {
    if ref.digest != "" then
      var name := ReplaceAll(ref.digest, ':', '-');
      if |name| > 63 then name[..63] else name
    else
      "img-" + hash(ref.image)[..56]
  }

  /** Every name fits a label value and an object name segment. */
  lemma ScanNameLength(hash: Hasher, ref: ImageRef)
    ensures 1 <= |ScanName(hash, ref)| <= 63
  {
  }

  /**
   * The name, character by character: that of a digest replaces each ':' and stops after 63; that of
   * a reference without one is made of 56 digits of the hash of its image string.
   */
  lemma ScanNameSpelled(hash: Hasher, ref: ImageRef)
    ensures var name := ScanName(hash, ref);
            if ref.digest == "" then name == ['i', 'm', 'g', '-'] + hash(ref.image)[..56]
            else
              && |name| == (if |ref.digest| < 63 then |ref.digest| else 63)
              && forall i :: 0 <= i < |name| ==> name[i] == if ref.digest[i] == ':' then '-' else ref.digest[i]
  {
  }

  lemma ScanNameOfDigest(hash: Hasher, ref: ImageRef)
    requires WellFormedDigest(ref.digest)
    ensures ScanName(hash, ref) == "sha256-" + ref.digest[7..63]
  {
    var hex := ref.digest[7..];
    forall i | 7 <= i < 71 ensures ref.digest[i] != ':' {
      assert ref.digest[i] == hex[i - 7];
      assert IsHexDigit(hex[i - 7]);
    }
    assert ref.digest[..7] == SHA256_PREFIX;
    assert forall i :: 0 <= i < 7 ==> ref.digest[i] == SHA256_PREFIX[i];
  }

  /** For well-formed digests, two references share a name exactly when 56 hex digits agree. */
  lemma ScanNamesAgree(hash: Hasher, a: ImageRef, b: ImageRef)
    requires WellFormedDigest(a.digest) && WellFormedDigest(b.digest)
    ensures ScanName(hash, a) == ScanName(hash, b) <==> a.digest[7..63] == b.digest[7..63]
  {
    ScanNameOfDigest(hash, a);
    ScanNameOfDigest(hash, b);
    var m, n := "sha256-" + a.digest[7..63], "sha256-" + b.digest[7..63];
    assert m[7..] == a.digest[7..63] && n[7..] == b.digest[7..63];
  }

  /** A name built from a digest is never a name built from a hash. */
  lemma ScanNameKinds(hash: Hasher, a: ImageRef, b: ImageRef)
    requires WellFormedDigest(a.digest) && b.digest == ""
    ensures ScanName(hash, a) != ScanName(hash, b)
  {
    ScanNameOfDigest(hash, a);
    assert ScanName(hash, a)[0] == 's' && ScanName(hash, b)[0] == 'i';
  }
}
