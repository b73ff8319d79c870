/** The objects of the API server the controllers read and write, and the controllers' configuration. */
module Objects {
  import opened Wrappers
  import opened ImageRefs
  import opened Mirrors

  datatype Key = Key(namespace: string, name: string)

  const SCHEDULING_GATE := "scans.aquasec.community/aqua-scan"
  const ANNOTATION_BYPASS := "scans.aquasec.community/bypass-scan"

  datatype Pod = Pod(
    annotations: map<string, string>,
    labels: map<string, string>,
    gates: seq<string>,
    spec: PodSpec)
  {
    predicate Gated() {
      SCHEDULING_GATE in gates
    }

    predicate Bypassed() {
      ANNOTATION_BYPASS in annotations && annotations[ANNOTATION_BYPASS] == "true"
    }

    function Images(): seq<ImageRef> {
      ExtractFromPodSpec(spec)
    }
  }

  /** The phase field: Unset is the empty string of an object whose status was never written. */
  datatype Phase = Unset | Pending | Registered | Error
  {
    predicate Terminal() {
      Registered? || Error?
    }
  }

  datatype Status = Status(
    phase: Phase,
    aquaScanID: string,
    message: string,
    retryCount: int,
    lastScanTime: Option<int>,
    completedTime: Option<int>)

  const NEW_STATUS := Status(Unset, "", "", 0, None, None)

  /** An ImageScan; `imageHash` is the value of its image-hash label, "" when it has none. */
  datatype Scan = Scan(imageHash: string, spec: ImageRef, status: Status)

  /** Namespace filtering, the same in the controller and in the webhook. */
  datatype NamespaceFilter = NamespaceFilter(included: map<string, bool>, excluded: map<string, bool>)
  {
    predicate Excludes(namespace: string) {
      if |included| > 0 then !(namespace in included && included[namespace])
      else namespace in excluded && excluded[namespace]
    }
  }

  /**
   * When a namespace is in scope, said of the two lists: with an inclusion list, if it is on it; without
   * one, unless it is on the exclusion list. An entry that is false counts as absent.
   */
  ghost predicate InScope(filter: NamespaceFilter, namespace: string) {
    if filter.included != map[] then namespace in filter.included && filter.included[namespace]
    else namespace in filter.excluded ==> !filter.excluded[namespace]
  }

  lemma ScopeIsWhatIsNotExcluded(filter: NamespaceFilter, namespace: string)
    ensures InScope(filter, namespace) <==> !filter.Excludes(namespace)
  {
    assert |filter.included| > 0 <==> filter.included != map[];
  }

  /** `parse` is the parser of image references. */
  datatype Config = Config(hash: Hasher, scanNamespace: string, filter: NamespaceFilter,
                           mirrors: seq<RegistryMirror>, parse: string -> Parsed)
  {
    /** What the registry is asked about to learn the digest of `ref`. */
    function Mirrored(ref: ImageRef): ImageRef {
      ApplyMirrorsToImageRef(parse, ref, mirrors)
    }

    /** Where the scans of a pod in `namespace` live. */
    function ScanNamespace(namespace: string): string {
      if scanNamespace == "" then namespace else scanNamespace
    }

    /** The ImageScan a pod in `namespace` consults for `ref`. */
    function ScanKey(namespace: string, ref: ImageRef): Key {
      Key(ScanNamespace(namespace), ScanName(hash, ref))
    }
  }
}
