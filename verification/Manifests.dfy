/**
 * The images of a stream of manifests (cmd/trigger/aqua-trigger.go): extraction document by
 * document, and de-duplication of the concatenation.
 */
module Manifests {
  import opened Wrappers
  import opened Text
  import opened ImageRefs

  /** What decoding one document yields: an error, a kind without a pod template, or the pod spec. */
  datatype Decoded = Malformed | Unsupported | Workload(spec: PodSpec)

  /** The documents read, and whether reading stopped at an error instead of the end of the input. */
  datatype Input = Input(documents: seq<string>, readFails: bool)

  /** The container images a document contributes, in the order of its pod spec. */
  function ContainerImages(decode: string -> Decoded, document: string): seq<string> {
    if TrimSpace(document) == "" then []
    else match decode(document)
      case Workload(spec) => spec.AllImages()
      case _ => []
  }

  function AllContainerImages(decode: string -> Decoded, documents: seq<string>): seq<string> {
    if documents == [] then []
    else
      var n := |documents| - 1;
      AllContainerImages(decode, documents[..n]) + ContainerImages(decode, documents[n])
  }

  /** The concatenation of what is extracted from each document; repeats across documents remain. */
  function ExtractEach(decode: string -> Decoded, documents: seq<string>): seq<ImageRef> {
    if documents == [] then []
    else
      var n := |documents| - 1;
      ExtractEach(decode, documents[..n]) + ExtractFromImages(ContainerImages(decode, documents[n]))
  }

  /** extractImagesFromDocument: None when the document cannot be decoded. */
  method ExtractImagesFromDocument(decode: string -> Decoded, document: string) returns (r: Option<seq<ImageRef>>)
    requires TrimSpace(document) != ""
    ensures r == if decode(document).Malformed? then None
            else Some(ExtractFromImages(ContainerImages(decode, document)))
  {
    match decode(document) {
      case Malformed => return None;
      case Unsupported =>
        assert Unique([]) == [];
        return Some([]);
      case Workload(spec) =>
        var images, at := Extract(spec);
        return Some(images);
    }
  }

  /**
   * extractImagesFromManifests: a document that cannot be decoded is passed over, an input that cannot
   * be read is not.
   */
  method ExtractImagesFromManifests(decode: string -> Decoded, input: Input) returns (r: Option<seq<ImageRef>>)
    ensures r == if input.readFails then None else Some(ExtractEach(decode, input.documents))
  {
    var allImages: seq<ImageRef> := [];
    for i := 0 to |input.documents|
      invariant allImages == ExtractEach(decode, input.documents[..i])
    {
      var doc := input.documents[i];
      assert input.documents[..i + 1][..i] == input.documents[..i];
      assert Unique([]) == [];
      if |TrimSpace(doc)| == 0 {
        continue;
      }
      var images := ExtractImagesFromDocument(decode, doc);
      if images.None? {
        continue;
      }
      allImages := allImages + images.value;
    }
    if input.readFails {
      return None;
    }
    assert input.documents[..|input.documents|] == input.documents;
    return Some(allImages);
  }

  /** A document that is not blank decodes to a workload one of whose containers runs this image. */
  ghost predicate Names(decode: string -> Decoded, document: string, image: string) {
    !Blank(document) && decode(document).Workload? && Runs(decode(document).spec, image)
  }

  /** Which images a stream of manifests names, document by document. */
  lemma {:induction false} NamedImages(decode: string -> Decoded, documents: seq<string>, image: string)
    ensures image in AllContainerImages(decode, documents) <==>
              exists i :: 0 <= i < |documents| && Names(decode, documents[i], image)
  {
    hide Names, ContainerImages;
    if documents == [] {
    } else {
      var n := |documents| - 1;
      var before := documents[..n];
      NamedImages(decode, before, image);
      NamedInDocument(decode, documents[n], image);
      assert forall i :: 0 <= i < n ==> before[i] == documents[i];
    }
  }

  lemma NamedInDocument(decode: string -> Decoded, document: string, image: string)
    ensures image in ContainerImages(decode, document) <==> Names(decode, document, image)
  {
    hide TrimSpace, Blank;
    TrimmedToNothing(document);
  }

  // ----- de-duplication -----

  /** The references, each image string at its first occurrence. */
  function Dedupe(images: seq<ImageRef>): seq<ImageRef> {
    if images == [] then []
    else
      var n := |images| - 1;
      if exists j :: 0 <= j < n && images[j].image == images[n].image then Dedupe(images[..n])
      else Dedupe(images[..n]) + [images[n]]
  }

  /** deduplicateImages. */
  method DeduplicateImages(images: seq<ImageRef>) returns (result: seq<ImageRef>)
    ensures result == Dedupe(images)
  {
    var seen: set<string> := {};
    result := [];
    for i := 0 to |images|
      invariant result == Dedupe(images[..i])
      invariant forall image :: image in seen <==> exists j :: 0 <= j < i && images[j].image == image
    {
      var img := images[i];
      assert images[..i + 1][..i] == images[..i];
      if img.image !in seen {
        seen := seen + {img.image};
        result := result + [img];
      }
    }
    assert images[..|images|] == images;
  }

  // ----- one extraction does as well -----

  /** De-duplicating references extracted from strings is de-duplicating the strings. */
  lemma {:induction false} DedupeRefs(xs: seq<string>)
    requires "" !in xs
    ensures Dedupe(Refs(xs)) == Refs(Unique(xs))
  {
    if xs == [] {
    } else {
      var n := |xs| - 1;
      DedupeRefs(xs[..n]);
      assert Refs(xs)[..n] == Refs(xs[..n]);
      assert xs[n] in xs[..n] <==> exists j :: 0 <= j < n && Refs(xs)[j].image == Refs(xs)[n].image;
    }
  }

  /** What comes before matters only through its distinct members. */
  lemma {:induction false} UniqueAfter(xs: seq<string>, ys: seq<string>, zs: seq<string>)
    requires Unique(xs) == Unique(ys)
    ensures Unique(xs + zs) == Unique(ys + zs)
  {
    hide Unique;
    if zs == [] {
      assert xs + zs == xs && ys + zs == ys;
    } else {
      var n := |zs| - 1;
      var z := zs[n];
      UniqueAfter(xs, ys, zs[..n]);
      UniqueMembers(xs + zs[..n], z);
      UniqueMembers(ys + zs[..n], z);
      UniqueOne(xs + zs[..n], z);
      UniqueOne(ys + zs[..n], z);
      assert xs + zs == (xs + zs[..n]) + [z] && ys + zs == (ys + zs[..n]) + [z];
    }
  }

  /** What comes after may be de-duplicated first. */
  lemma {:induction false} UniqueOfUnique(xs: seq<string>, ys: seq<string>)
    ensures Unique(xs + Unique(ys)) == Unique(xs + ys)
  {
    if ys == [] {
      assert xs + Unique(ys) == xs && xs + ys == xs;
    } else {
      var n := |ys| - 1;
      var y, us := ys[n], Unique(ys[..n]);
      UniqueOfUnique(xs, ys[..n]);
      assert xs + ys == (xs + ys[..n]) + [y];
      UniqueOne(xs + ys[..n], y);
      if y == "" || y in ys[..n] {
        assert Unique(ys) == us;
      } else {
        assert xs + Unique(ys) == (xs + us) + [y];
        UniqueOne(xs + us, y);
        UniqueMembers(ys[..n], y);
      }
    }
  }

  lemma RefsOfSum(xs: seq<string>, ys: seq<string>)
    ensures Refs(xs + ys) == Refs(xs) + Refs(ys)
  {
    hide FromImage;
  }

  lemma {:induction false} EachIsOfUnique(decode: string -> Decoded, documents: seq<string>) returns (xs: seq<string>)
    ensures ExtractEach(decode, documents) == Refs(xs) && "" !in xs
    ensures Unique(xs) == Unique(AllContainerImages(decode, documents))
  {
    hide Unique, ContainerImages, FromImage;
    if documents == [] {
      xs := [];
    } else {
      var n := |documents| - 1;
      var before, images := AllContainerImages(decode, documents[..n]), ContainerImages(decode, documents[n]);
      var ws := EachIsOfUnique(decode, documents[..n]);
      xs := ws + Unique(images);
      RefsOfSum(ws, Unique(images));
      UniqueMembers(images, "");
      UniqueOfUnique(ws, images);
      UniqueAfter(ws, before, images);
    }
  }

  /**
   * De-duplicating the concatenation of what is extracted document by document is one extraction
   * over the concatenated containers. So the result lists every non-empty image once, at its first
   * occurrence, and no digest is lost by comparing image strings alone.
   */
  lemma DedupeIsOneExtraction(decode: string -> Decoded, documents: seq<string>)
    ensures Dedupe(ExtractEach(decode, documents)) == ExtractFromImages(AllContainerImages(decode, documents))
  {
    var xs := EachIsOfUnique(decode, documents);
    DedupeRefs(xs);
  }
}
