/**
 * Registry mirrors: the parser of the mirror list and the rewriting of image references
 * (pkg/aqua/client.go, internal/controller/pod_gate_controller.go).
 */
module Mirrors {
  import opened Wrappers
  import opened Text
  import opened ImageRefs

  datatype RegistryMirror = RegistryMirror(source: string, mirror: string)

  datatype ParseError = MissingEquals(pair: string) | EmptySide(pair: string)

  // ----- parsing -----

  /** What one comma-separated segment stands for: nothing when blank, else a rule or an error. */
  function ParsePair(segment: string): Result<Option<RegistryMirror>, ParseError> {
    var pair := TrimSpace(segment);
    var eq := IndexOf(pair, '=');
    if pair == "" then Ok(None)
    else if eq == -1 then Err(MissingEquals(pair))
    else
      var source, mirror := TrimSpace(pair[..eq]), TrimSpace(pair[eq + 1..]);
      if source == "" || mirror == "" then Err(EmptySide(pair))
      else Ok(Some(RegistryMirror(source, mirror)))
  }

  /** The rules read so far in front of what the remaining segments yield. */
  function Prepend(ms: seq<RegistryMirror>, rest: Result<seq<RegistryMirror>,
                   ParseError>): Result<seq<RegistryMirror>, ParseError> {
    match rest
    case Err(e) => Err(e)
    case Ok(more) => Ok(ms + more)
  }

  function ParsePairs(segments: seq<string>): Result<seq<RegistryMirror>, ParseError> {
    if segments == [] then Ok([])
    else
      match ParsePair(segments[0])
      case Err(e) => Err(e)
      case Ok(None) => ParsePairs(segments[1..])
      case Ok(Some(m)) => Prepend([m], ParsePairs(segments[1..]))
  }

  function ParseMirrors(s: string): Result<seq<RegistryMirror>, ParseError> {
    if s == "" then Ok([]) else ParsePairs(Split(s, ','))
  }

  lemma PrependTwice(xs: seq<RegistryMirror>, ys: seq<RegistryMirror>, r: Result<seq<RegistryMirror>, ParseError>)
    ensures Prepend(xs, Prepend(ys, r)) == Prepend(xs + ys, r)
    ensures Prepend([], r) == r
  {
    if r.Ok? {
      assert xs + (ys + r.value) == xs + ys + r.value;
      assert [] + r.value == r.value;
    }
  }

  /** What one segment contributes to the result for the segments from `i` on. */
  lemma ParseNext(pairs: seq<string>, i: nat)
    requires i < |pairs|
    ensures ParsePairs(pairs[i..]) ==
            match ParsePair(pairs[i])
            case Err(e) => Err(e)
            case Ok(None) => ParsePairs(pairs[i + 1..])
            case Ok(Some(m)) => Prepend([m], ParsePairs(pairs[i + 1..]))
  {
    assert pairs[i..][1..] == pairs[i + 1..];
  }

  /** ParseRegistryMirrors: the loop over the segments. */
  method ParseRegistryMirrors(s: string) returns (r: Result<seq<RegistryMirror>, ParseError>)
    ensures r == ParseMirrors(s)
  {
    if s == "" {
      return Ok([]);
    }
    var mirrors: seq<RegistryMirror> := [];
    var pairs := Split(s, ',');
    PrependTwice([], [], ParsePairs(pairs));
    assert pairs[0..] == pairs;
    for i := 0 to |pairs|
      invariant ParsePairs(pairs) == Prepend(mirrors, ParsePairs(pairs[i..]))
    {
      ParseNext(pairs, i);
      var pair := TrimSpace(pairs[i]);
      if pair == "" {
        continue;
      }
      var eq := IndexOf(pair, '=');
      if eq == -1 {
        return Err(MissingEquals(pair));
      }
      var source, mirror := TrimSpace(pair[..eq]), TrimSpace(pair[eq + 1..]);
      if source == "" || mirror == "" {
        return Err(EmptySide(pair));
      }
      PrependTwice(mirrors, [RegistryMirror(source, mirror)], ParsePairs(pairs[i + 1..]));
      mirrors := mirrors + [RegistryMirror(source, mirror)];
    }
    assert ParsePairs(pairs[|pairs|..]) == Ok([]);
    assert mirrors + [] == mirrors;
    return Ok(mirrors);
  }

  predicate WellFormed(m: RegistryMirror) {
    && m.source != "" && Trimmed(m.source) && ',' !in m.source && '=' !in m.source
    && m.mirror != "" && Trimmed(m.mirror) && ',' !in m.mirror
  }

  /** A non-blank segment that lacks '=' or has a blank side. */
  predicate BadSegment(segment: string) {
    var pair := TrimSpace(segment);
    pair != "" && ('=' !in pair
                   || TrimSpace(pair[..IndexOf(pair, '=')]) == ""
                   || TrimSpace(pair[IndexOf(pair, '=') + 1..]) == "")
  }

  /**
   * What a rule says of its segment: but for blanks around either side, the segment is the source, the
   * first "=" of all, and the mirror.
   */
  lemma PairReads(segment: string) returns (a: string, b: string, c: string, d: string)
    requires ParsePair(segment).Ok? && ParsePair(segment).value.Some?
    ensures var m := ParsePair(segment).value.value;
            && segment == (a + m.source + b) + "=" + (c + m.mirror + d)
            && Blank(a) && Blank(b) && Blank(c) && Blank(d) && '=' !in a + m.source + b
            && Trimmed(m.source) && Trimmed(m.mirror) && m.source != "" && m.mirror != ""
  {
    hide TrimSpace, IsSpace, Blank, Trimmed;
    var pair := TrimSpace(segment);
    var before, after := TrimsBlanks(segment);
    var eq := IndexOf(pair, '=');
    var left, right := pair[..eq], pair[eq + 1..];
    var l1, l2 := TrimsBlanks(left);
    var r1, r2 := TrimsBlanks(right);
    a, b, c, d := before + l1, l2, r1, r2 + after;
    BlankSum(before, l1);
    BlankSum(r2, after);
    var m := ParsePair(segment).value.value;
    Around(before, l1, m.source, l2);
    assert c + m.mirror + d == right + after;
    Middle(segment, pair, before, after, eq);
    NoMark(before);
  }

  lemma Around(before: string, l1: string, source: string, l2: string)
    ensures (before + l1) + source + l2 == before + (l1 + source + l2)
  {
  }

  lemma Middle(segment: string, pair: string, before: string, after: string, eq: nat)
    requires segment == before + pair + after && eq < |pair| && pair[eq] == '='
    ensures segment == (before + pair[..eq]) + "=" + (pair[eq + 1..] + after)
  {
    assert pair == pair[..eq] + "=" + pair[eq + 1..];
  }

  lemma BlankSum(x: string, y: string)
    requires Blank(x) && Blank(y)
    ensures Blank(x + y)
  {
    hide IsSpace;
  }

  lemma NoMark(s: string)
    requires Blank(s)
    ensures '=' !in s
  {
  }

  lemma {:induction false} PairsFailExactly(segments: seq<string>)
    ensures ParsePairs(segments).Err? <==> exists p :: p in segments && BadSegment(p)
  {
    if segments == [] {
    } else {
      PairsFailExactly(segments[1..]);
      assert segments == [segments[0]] + segments[1..];
      assert ParsePair(segments[0]).Err? <==> BadSegment(segments[0]);
    }
  }

  /** Parsing fails exactly when some non-blank segment lacks '=' or has an empty side. */
  lemma ParseFailsExactly(s: string)
    ensures ParseMirrors(s).Err? <==> exists p :: p in Split(s, ',') && BadSegment(p)
  {
    if s == "" {
      assert Split("", ',') == [""];
      assert !BadSegment("");
    } else {
      PairsFailExactly(Split(s, ','));
    }
  }

  lemma PairIsWellFormed(segment: string)
    requires ',' !in segment
    requires ParsePair(segment).Ok? && ParsePair(segment).value.Some?
    ensures WellFormed(ParsePair(segment).value.value)
  {
    var pair := TrimSpace(segment);
    var eq := IndexOf(pair, '=');
    TrimSpaceProperties(segment);
    TrimSpaceProperties(pair[..eq]);
    TrimSpaceProperties(pair[eq + 1..]);
  }

  lemma {:induction false} PairsAreWellFormed(segments: seq<string>)
    requires forall p :: p in segments ==> ',' !in p
    requires ParsePairs(segments).Ok?
    ensures forall m :: m in ParsePairs(segments).value ==> WellFormed(m)
  {
    if segments == [] {
    } else {
      PairsAreWellFormed(segments[1..]);
      if ParsePair(segments[0]).value.Some? {
        PairIsWellFormed(segments[0]);
      }
    }
  }

  /** Every rule the parser returns is trimmed, non-empty, comma-free, with no '=' in its source. */
  lemma ParsedMirrorsAreWellFormed(s: string)
    requires ParseMirrors(s).Ok?
    ensures forall m :: m in ParseMirrors(s).value ==> WellFormed(m)
  {
    if s != "" {
      PairsAreWellFormed(Split(s, ','));
    }
  }

  // ----- printing, the inverse -----

  function PrintMirror(m: RegistryMirror): string {
    m.source + "=" + m.mirror
  }

  function PrintPairs(ms: seq<RegistryMirror>): (segments: seq<string>)
    ensures |segments| == |ms|
    ensures forall i :: 0 <= i < |ms| ==> segments[i] == PrintMirror(ms[i])
  {
    seq(|ms|, i requires 0 <= i < |ms| => PrintMirror(ms[i]))
  }

  function PrintMirrors(ms: seq<RegistryMirror>): string {
    Join(PrintPairs(ms), ',')
  }

  lemma ParsePrintedPair(m: RegistryMirror)
    requires WellFormed(m)
    ensures ParsePair(PrintMirror(m)) == Ok(Some(m))
    ensures ',' !in PrintMirror(m)
  {
    hide TrimSpace, IsSpace;
    var pair := PrintMirror(m);
    assert pair[0] == m.source[0] && pair[|pair| - 1] == m.mirror[|m.mirror| - 1];
    TrimSpaceProperties(pair);
    var eq := IndexOf(pair, '=');
    assert pair[|m.source|] == '=' && forall k :: 0 <= k < |m.source| ==> pair[k] == m.source[k];
    assert forall k :: 0 <= k < eq ==> pair[..eq][k] == pair[k];
    assert eq == |m.source|;
    assert pair[..eq] == m.source && pair[eq + 1..] == m.mirror;
    TrimSpaceProperties(m.source);
    TrimSpaceProperties(m.mirror);
  }

  lemma {:induction false} ParsePrintedPairs(ms: seq<RegistryMirror>)
    requires forall m :: m in ms ==> WellFormed(m)
    ensures ParsePairs(PrintPairs(ms)) == Ok(ms)
  {
    hide ParsePair, PrintMirror, WellFormed;
    if ms == [] {
    } else {
      var segments := PrintPairs(ms);
      ParsePrintedPair(ms[0]);
      ParsePrintedPairs(ms[1..]);
      assert segments[1..] == PrintPairs(ms[1..]);
      assert ParsePairs(segments) == Prepend([ms[0]], Ok(ms[1..]));
      assert [ms[0]] + ms[1..] == ms;
    }
  }

  /** Parsing inverts printing on every well-formed mirror list. */
  lemma ParseInvertsPrint(ms: seq<RegistryMirror>)
    requires forall m :: m in ms ==> WellFormed(m)
    ensures ParseMirrors(PrintMirrors(ms)) == Ok(ms)
  {
    if ms != [] {
      var segments := PrintPairs(ms);
      ParsePrintedPair(ms[0]);
      assert segments[0] <= PrintMirrors(ms) && PrintMirrors(ms) != "";
      forall p | p in segments ensures ',' !in p {
        var i :| 0 <= i < |ms| && segments[i] == p;
        ParsePrintedPair(ms[i]);
      }
      SplitJoin(segments, ',');
      ParsePrintedPairs(ms);
    }
  }

  /** Printing what was parsed and parsing it again changes nothing. */
  lemma ParsePrintParse(s: string)
    requires ParseMirrors(s).Ok?
    ensures ParseMirrors(PrintMirrors(ParseMirrors(s).value)) == ParseMirrors(s)
  {
    ParsedMirrorsAreWellFormed(s);
    ParseInvertsPrint(ParseMirrors(s).value);
  }

  // ----- rewriting -----

  function NormalizeRegistryURL(url: string): string {
    TrimSuffix(TrimPrefix(TrimPrefix(url, "https://"), "http://"), "/")
  }

  /** Normalising takes off one "https://", then one "http://", then one final slash, and nothing else. */
  lemma NormalizingStrips(url: string) returns (scheme: string, second: string, tail: string)
    ensures url == scheme + (second + (NormalizeRegistryURL(url) + tail))
    ensures scheme == (if StartsWith(url, "https://") then "https://" else "")
    ensures var rest := url[|scheme|..]; second == (if StartsWith(rest, "http://") then "http://" else "")
    ensures var path := url[|scheme|..][|second|..]; tail == (if path != "" && path[|path| - 1] == '/' then "/" else "")
  {
    hide TrimPrefix, TrimSuffix, StartsWith;
    var rest := TrimPrefix(url, "https://");
    scheme := PrefixTrimmed(url, "https://");
    second := PrefixTrimmed(rest, "http://");
    tail := SlashTrimmed(TrimPrefix(rest, "http://"));
  }

  lemma PrefixTrimmed(s: string, prefix: string) returns (cut: string)
    ensures cut == (if StartsWith(s, prefix) then prefix else "")
    ensures s == cut + TrimPrefix(s, prefix) && |cut| <= |s| && s[|cut|..] == TrimPrefix(s, prefix)
  {
    cut := if prefix <= s then prefix else "";
  }

  lemma SlashTrimmed(s: string) returns (cut: string)
    ensures cut == (if s != "" && s[|s| - 1] == '/' then "/" else "") && s == TrimSuffix(s, "/") + cut
  {
    cut := if s != "" && s[|s| - 1] == '/' then "/" else "";
  }

  ghost predicate StartsWith(s: string, prefix: string) {
    |prefix| <= |s| && forall i :: 0 <= i < |prefix| ==> s[i] == prefix[i]
  }

  predicate IsDockerHubAlias(registry: string) {
    registry == "docker.io" || registry == "index.docker.io"
  }

  /** The test a rule's source is put to. */
  predicate RuleMatches(registry: string, rule: RegistryMirror) {
    var r, source := NormalizeRegistryURL(registry), NormalizeRegistryURL(rule.source);
    r == source || (IsDockerHubAlias(r) && IsDockerHubAlias(source))
  }

  /** Two names of one registry: alike when normalised, or the two names of Docker Hub. */
  ghost predicate SameRegistry(a: string, b: string) {
    var m, n := NormalizeRegistryURL(a), NormalizeRegistryURL(b);
    m == n || {m, n} == {"docker.io", "index.docker.io"}
  }

  lemma RuleMatchesSameRegistry(registry: string, rule: RegistryMirror)
    ensures RuleMatches(registry, rule) <==> SameRegistry(registry, rule.source)
  {
    hide NormalizeRegistryURL;
    var m, n := NormalizeRegistryURL(registry), NormalizeRegistryURL(rule.source);
    if {m, n} == {"docker.io", "index.docker.io"} {
      assert m in {m, n} && n in {m, n};
      assert IsDockerHubAlias(m) && IsDockerHubAlias(n);
    }
  }

  /** Cut at the first slash; without one there is no path prefix. */
  function SplitHost(u: string): (parts: (string, string))
    ensures '/' !in parts.0
    ensures u == if '/' in u then parts.0 + "/" + parts.1 else parts.0
    ensures '/' !in u ==> parts.1 == ""
  {
    var slash := IndexOf(u, '/');
    if slash == -1 then (u, "")
    else
      assert u == u[..slash] + [u[slash]] + u[slash + 1..];
      (u[..slash], u[slash + 1..])
  }

  /** parseMirrorURL. */
  function ParseMirrorURL(url: string): (string, string) {
    SplitHost(NormalizeRegistryURL(url))
  }

  /** The registry and image name a mirror URL turns `imageName` into. */
  function Rewrite(mirror: string, imageName: string): (string, string) {
    var (host, prefix) := ParseMirrorURL(mirror);
    (host, if prefix != "" then prefix + "/" + imageName else imageName)
  }

  /** ApplyRegistryMirror: search the rules in order, rewrite with the first that matches. */
  function ApplyRegistryMirror(registry: string, imageName: string, mirrors: seq<RegistryMirror>): (string, string) {
    if mirrors == [] then (registry, imageName)
    else if RuleMatches(registry, mirrors[0]) then Rewrite(mirrors[0].mirror, imageName)
    else ApplyRegistryMirror(registry, imageName, mirrors[1..])
  }

  /** Rule `i` is the first to match; `i == |mirrors|` when none does. */
  ghost predicate FirstMatch(registry: string, mirrors: seq<RegistryMirror>, i: int) {
    && 0 <= i <= |mirrors|
    && (forall k :: 0 <= k < i ==> !SameRegistry(registry, mirrors[k].source))
    && (i < |mirrors| ==> SameRegistry(registry, mirrors[i].source))
  }

  /** Exactly the first matching rule is used, and without one nothing is rewritten. */
  lemma {:induction false} FirstRuleDecides(registry: string, imageName: string, mirrors: seq<RegistryMirror>, i: int)
    requires FirstMatch(registry, mirrors, i)
    ensures ApplyRegistryMirror(registry, imageName, mirrors) ==
            if i == |mirrors| then (registry, imageName) else Rewrite(mirrors[i].mirror, imageName)
  {
    hide RuleMatches, Rewrite, SameRegistry;
    if mirrors != [] {
      RuleMatchesSameRegistry(registry, mirrors[0]);
    }
    if i == 0 {
    } else {
      var rest := mirrors[1..];
      forall k | 0 <= k < i - 1 ensures !SameRegistry(registry, rest[k].source) {
        assert rest[k] == mirrors[k + 1];
      }
      FirstRuleDecides(registry, imageName, rest, i - 1);
    }
  }

  /**
   * A rewritten reference is the normalised mirror followed by the image name, split at the first
   * slash (a mirror that still ends in a slash contributes no empty path element).
   */
  lemma RewriteRebuildsMirror(mirror: string, imageName: string)
    ensures var r, u := Rewrite(mirror, imageName), NormalizeRegistryURL(mirror);
            && '/' !in r.0
            && r.0 + "/" + r.1 == (if '/' in u && ParseMirrorURL(mirror).1 == "" then u else u + "/") + imageName
  {
    SplitRebuilds(NormalizeRegistryURL(mirror), imageName);
  }

  lemma SplitRebuilds(u: string, imageName: string)
    ensures var (host, prefix) := SplitHost(u);
            host + "/" + (if prefix != "" then prefix + "/" + imageName else imageName)
            == (if '/' in u && prefix == "" then u else u + "/") + imageName
  {
    var (host, prefix) := SplitHost(u);
    if prefix != "" {
      assert u + "/" + imageName == host + "/" + (prefix + "/" + imageName);
    } else if '/' in u {
      assert u == host + "/";
    }
  }

  /** A parsed image reference: registry, repository path, and the suffix with its separator. */
  datatype Parsed = Parsed(registry: string, imageName: string, suffix: string)

  const MARKS := {':', '@'}

  /** What go-containerregistry guarantees of a reference it accepts. */
  predicate WellParsed(p: Parsed) {
    && (forall c :: c in p.imageName ==> c !in MARKS)
    && p.suffix != "" && p.suffix[0] in MARKS
  }

  /**
   * What parsing `image` yields: the parts of an accepted reference, or the fallback, which is the
   * whole string as name.
   */
  predicate PlausibleParse(image: string, p: Parsed) {
    if p.registry == "" then p == Parsed("", image, "") else WellParsed(p)
  }

  /** applyMirrorsToImageRef, with the reference parser as a parameter. */
  function ApplyMirrorsToImageRef(parse: string -> Parsed, img: ImageRef, mirrors: seq<RegistryMirror>): ImageRef {
    var p := parse(img.image);
    var (registry, name) := ApplyRegistryMirror(p.registry, p.imageName, mirrors);
    if mirrors == [] then img
    else if registry == p.registry && name == p.imageName then img
    else ImageRef(registry + "/" + name + p.suffix, img.digest)
  }

  /**
   * An image behind a mirror: the normalised mirror, a slash unless it ends in its only one, and the
   * path and suffix of the image; the image itself when that only repeats its registry.
   */
  ghost function Behind(mirror: string, image: string, p: Parsed): string {
    var u := NormalizeRegistryURL(mirror);
    var base := if '/' in u && '/' !in u[..|u| - 1] then u else u + "/";
    if '/' !in p.registry && base == p.registry + "/" then image else base + p.imageName + p.suffix
  }

  /** The name under which `image` is to be asked for: behind the mirror of the first rule for its registry. */
  ghost predicate AskedAs(parse: string -> Parsed, mirrors: seq<RegistryMirror>, image: string, asked: string) {
    exists i :: FirstMatch(parse(image).registry, mirrors, i)
                && asked == if i == |mirrors| then image else Behind(mirrors[i].mirror, image, parse(image))
  }

  lemma {:induction false} SomeFirstMatch(registry: string, mirrors: seq<RegistryMirror>) returns (i: int)
    ensures FirstMatch(registry, mirrors, i) && 0 <= i <= |mirrors|
  {
    hide SameRegistry;
    if mirrors == [] {
      i := 0;
    } else if SameRegistry(registry, mirrors[0].source) {
      i := 0;
    } else {
      var j := SomeFirstMatch(registry, mirrors[1..]);
      i := j + 1;
      forall k | 0 <= k < i ensures !SameRegistry(registry, mirrors[k].source) {
        assert k > 0 ==> mirrors[k] == mirrors[1..][k - 1];
      }
    }
  }

  lemma RewrittenIsBehind(mirror: string, image: string, p: Parsed)
    ensures var r := Rewrite(mirror, p.imageName);
            Behind(mirror, image, p) ==
            if r == (p.registry, p.imageName) then image else r.0 + "/" + r.1 + p.suffix
  {
    hide NormalizeRegistryURL;
    var u := NormalizeRegistryURL(mirror);
    var (host, prefix) := SplitHost(u);
    SplitRebuilds(u, p.imageName);
    if prefix == "" && '/' in u {
      assert u == host + "/" && u[..|u| - 1] == host;
    } else if prefix != "" {
      assert u == host + "/" + prefix;
      assert u[|host|] == '/' && |host| < |u| - 1;
      assert u[..|u| - 1][|host|] == '/';
      assert |prefix + "/" + p.imageName| > |p.imageName|;
    }
    SameBase(u, host, prefix, p.registry);
  }

  /** Only a bare host can repeat the registry of the image. */
  lemma SameBase(u: string, host: string, prefix: string, registry: string)
    requires (host, prefix) == SplitHost(u)
    ensures var base := if '/' in u && prefix == "" then u else u + "/";
            '/' !in registry && base == registry + "/" <==> host == registry && prefix == ""
  {
    var base := if '/' in u && prefix == "" then u else u + "/";
    assert base[..|base| - 1] == if '/' in u && prefix == "" then host else u;
    if base == registry + "/" {
      assert base[..|base| - 1] == registry;
    }
  }

  /** What the digest loop asks the registry about is the image behind the first rule's mirror. */
  lemma MirroredAsAsked(parse: string -> Parsed, img: ImageRef, mirrors: seq<RegistryMirror>)
    ensures AskedAs(parse, mirrors, img.image, ApplyMirrorsToImageRef(parse, img, mirrors).image)
  {
    hide FirstMatch, Rewrite, Behind;
    var p := parse(img.image);
    var i := SomeFirstMatch(p.registry, mirrors);
    FirstRuleDecides(p.registry, p.imageName, mirrors, i);
    if i < |mirrors| {
      RewrittenIsBehind(mirrors[i].mirror, img.image, p);
    }
  }

  /** `host` and `prefix` are what the rules put before every image name of `registry`. */
  ghost predicate Prefixes(registry: string, mirrors: seq<RegistryMirror>, host: string, prefix: string) {
    forall name :: ApplyRegistryMirror(registry, name, mirrors) == (host, prefix + name)
  }

  /** Host and prefix depend on the registry and the rules only, not on the image name. */
  lemma {:induction false} RewritePrefix(registry: string, mirrors: seq<RegistryMirror>) returns (host: string,
                                         prefix: string)
    ensures Prefixes(registry, mirrors, host, prefix)
  {
    if mirrors == [] {
      host, prefix := registry, "";
    } else if RuleMatches(registry, mirrors[0]) {
      var parts := ParseMirrorURL(mirrors[0].mirror);
      host, prefix := parts.0, if parts.1 != "" then parts.1 + "/" else "";
    } else {
      host, prefix := RewritePrefix(registry, mirrors[1..]);
    }
    forall name ensures ApplyRegistryMirror(registry, name, mirrors) == (host, prefix + name) {
      if prefix == "" {
        assert prefix + name == name;
      }
    }
  }

  lemma RebuiltNamesDiffer(base: string, p: Parsed, q: Parsed)
    requires p.registry == q.registry && p != q
    requires if p.registry == "" then p.suffix == "" && q.suffix == "" else WellParsed(p) && WellParsed(q)
    ensures base + p.imageName + p.suffix != base + q.imageName + q.suffix
  {
    var x, y := base + p.imageName + p.suffix, base + q.imageName + q.suffix;
    assert x[|base|..] == p.imageName + p.suffix;
    assert y[|base|..] == q.imageName + q.suffix;
    if p.registry == "" {
      assert p.imageName + p.suffix == p.imageName && q.imageName + q.suffix == q.imageName;
    } else if p.imageName + p.suffix == q.imageName + q.suffix {
      CutUnique(p.imageName, p.suffix, q.imageName, q.suffix, MARKS);
    }
  }

  lemma ApplyWithPrefix(parse: string -> Parsed, mirrors: seq<RegistryMirror>, img: ImageRef, host: string,
                        prefix: string)
    requires Prefixes(parse(img.image).registry, mirrors, host, prefix)
    ensures var p := parse(img.image);
            ApplyMirrorsToImageRef(parse, img, mirrors) ==
            if mirrors == [] || (host == p.registry && prefix == "") then img
            else ImageRef(host + "/" + prefix + p.imageName + p.suffix, img.digest)
  {
    var p := parse(img.image);
    assert ApplyRegistryMirror(p.registry, p.imageName, mirrors) == (host, prefix + p.imageName);
    if prefix == "" {
      assert prefix + p.imageName == p.imageName;
    } else {
      assert |prefix + p.imageName| > |p.imageName|;
    }
    assert host + "/" + (prefix + p.imageName) == host + "/" + prefix + p.imageName;
  }

  /**
   * References to one registry that differ in repository path, tag or digest stay different
   * after rewriting, and the digest already known is kept. Strings the parser rejects, which have no
   * registry, stay different likewise.
   */
  lemma RewritingNeverCollides(parse: string -> Parsed, mirrors: seq<RegistryMirror>, a: ImageRef, b: ImageRef)
    requires PlausibleParse(a.image, parse(a.image)) && PlausibleParse(b.image, parse(b.image))
    requires parse(a.image).registry == parse(b.image).registry
    requires parse(a.image) != parse(b.image)
    ensures ApplyMirrorsToImageRef(parse, a, mirrors).image != ApplyMirrorsToImageRef(parse, b, mirrors).image
    ensures ApplyMirrorsToImageRef(parse, a, mirrors).digest == a.digest
  {
    var p, q := parse(a.image), parse(b.image);
    var host, prefix := RewritePrefix(p.registry, mirrors);
    ApplyWithPrefix(parse, mirrors, a, host, prefix);
    ApplyWithPrefix(parse, mirrors, b, host, prefix);
    RebuiltNamesDiffer(host + "/" + prefix, p, q);
  }
}
