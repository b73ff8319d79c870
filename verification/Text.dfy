/** The string operations of Go's `strings` package that the repository relies on. */
module Text {

  function TrimPrefix(s: string, prefix: string): string {
    if prefix <= s then s[|prefix|..] else s
  }

  function TrimSuffix(s: string, suffix: string): string {
    if |suffix| <= |s| && s[|s| - |suffix|..] == suffix then s[..|s| - |suffix|] else s
  }

  /** strings.Index for a single character: the first position, or -1. */
  function IndexOf(s: string, c: char): (i: int)
    ensures -1 <= i < |s|
    ensures i == -1 <==> c !in s
    ensures 0 <= i ==> s[i] == c && c !in s[..i]
  {
    if s == "" then -1
    else if s[0] == c then 0
    else
      var rest := IndexOf(s[1..], c);
      if rest == -1 then -1
      else
        assert s[..rest + 1] == [s[0]] + s[1..][..rest];
        rest + 1
  }

  predicate OccursAt(s: string, sub: string, k: int) {
    0 <= k <= |s| && sub <= s[k..]
  }

  lemma OccursInTail(s: string, sub: string)
    requires s != ""
    ensures forall k :: 1 <= k ==> (OccursAt(s, sub, k) <==> OccursAt(s[1..], sub, k - 1))
  {
    forall k | 1 <= k <= |s| ensures s[k..] == s[1..][k - 1..] {
    }
  }

  /** strings.Index for a substring: where it occurs first, or -1. */
  function IndexOfString(s: string, sub: string): (i: int)
    ensures i == -1 || OccursAt(s, sub, i)
    ensures forall k :: OccursAt(s, sub, k) ==> 0 <= i <= k
  {
    if sub <= s then
      assert s[0..] == s;
      0
    else if s == "" then -1
    else
      OccursInTail(s, sub);
      assert s[0..] == s;
      var rest := IndexOfString(s[1..], sub);
      if rest == -1 then -1 else rest + 1
  }

  /** strings.ReplaceAll where both arguments are single characters. */
  function ReplaceAll(s: string, from: char, to: char): (r: string)
    ensures |r| == |s|
    ensures forall i :: 0 <= i < |s| ==> r[i] == (if s[i] == from then to else s[i])
  {
    seq(|s|, i requires 0 <= i < |s| => if s[i] == from then to else s[i])
  }

  /** unicode.IsSpace. */
  predicate IsSpace(c: char) {
    || '\t' <= c <= '\r' || c == ' ' || c == '\U{0085}' || c == '\U{00A0}' || c == '\U{1680}'
    || '\U{2000}' <= c <= '\U{200A}' || c == '\U{2028}' || c == '\U{2029}' || c == '\U{202F}'
    || c == '\U{205F}' || c == '\U{3000}'
  }

  /** The first position from `i` on that is not a space. */
  function SkipSpaces(s: string, i: nat): (j: nat)
    requires i <= |s|
    ensures i <= j <= |s|
    ensures j < |s| ==> !IsSpace(s[j])
    ensures forall k :: i <= k < j ==> IsSpace(s[k])
    ensures i < |s| && !IsSpace(s[i]) ==> j == i
    decreases |s| - i
  {
    if i < |s| && IsSpace(s[i]) then SkipSpaces(s, i + 1) else i
  }

  /** The last position down from `j`, not below `i`, that follows a non-space. */
  function DropSpaces(s: string, i: nat, j: nat): (e: nat)
    requires i <= j <= |s|
    ensures i <= e <= j
    ensures i < e ==> !IsSpace(s[e - 1])
    ensures forall k :: e <= k < j ==> IsSpace(s[k])
    ensures i < j && !IsSpace(s[j - 1]) ==> e == j
    decreases j
  {
    if i < j && IsSpace(s[j - 1]) then DropSpaces(s, i, j - 1) else j
  }

  /** strings.TrimSpace. */
  function TrimSpace(s: string): string {
    var i := SkipSpaces(s, 0);
    s[i..DropSpaces(s, i, |s|)]
  }

  /** A string without a space at either end. */
  predicate Trimmed(s: string) {
    s == "" || (!IsSpace(s[0]) && !IsSpace(s[|s| - 1]))
  }

  /** Trimming yields a trimmed substring, and leaves exactly the trimmed strings alone. */
  lemma TrimSpaceProperties(s: string)
    ensures Trimmed(TrimSpace(s))
    ensures TrimSpace(s) == s <==> Trimmed(s)
    ensures forall c :: c in TrimSpace(s) ==> c in s
  {
    var i := SkipSpaces(s, 0);
    var e := DropSpaces(s, i, |s|);
    var t := TrimSpace(s);
    assert |t| == e - i;
    if i < e {
      assert t[0] == s[i] && t[|t| - 1] == s[e - 1];
    }
    if Trimmed(s) {
      assert i == 0 && e == |s|;
    }
  }

  predicate Blank(s: string) {
    forall i :: 0 <= i < |s| ==> IsSpace(s[i])
  }

  /** Trimming takes off blank ends only. */
  lemma TrimsBlanks(s: string) returns (before: string, after: string)
    ensures s == before + TrimSpace(s) + after && Blank(before) && Blank(after) && Trimmed(TrimSpace(s))
  {
    TrimSpaceProperties(s);
    var i := SkipSpaces(s, 0);
    var e := DropSpaces(s, i, |s|);
    before, after := s[..i], s[e..];
  }

  /** So a string is trimmed to nothing exactly when it is blank. */
  lemma TrimmedToNothing(s: string)
    ensures TrimSpace(s) == "" <==> Blank(s)
  {
    var i := SkipSpaces(s, 0);
    if i < |s| && DropSpaces(s, i, |s|) == i {
      assert false;
    }
  }

  /** strings.Split on a one-character separator. */
  function Split(s: string, sep: char): (parts: seq<string>)
    ensures |parts| >= 1
    ensures forall p :: p in parts ==> sep !in p
    decreases |s|
  {
    var i := IndexOf(s, sep);
    if i == -1 then [s] else [s[..i]] + Split(s[i + 1..], sep)
  }

  /** strings.Join with a one-character separator. */
  function Join(parts: seq<string>, sep: char): string {
    if parts == [] then ""
    else if |parts| == 1 then parts[0]
    else parts[0] + [sep] + Join(parts[1..], sep)
  }

  lemma {:induction false} SplitAfterFirst(p: string, rest: string, sep: char)
    requires sep !in p
    ensures Split(p + [sep] + rest, sep) == [p] + Split(rest, sep)
  {
    var s := p + [sep] + rest;
    var i := IndexOf(s, sep);
    assert s[|p|] == sep && forall k :: 0 <= k < |p| ==> s[k] == p[k];
    assert forall k :: 0 <= k < i ==> s[..i][k] == s[k];
    assert i == |p|;
    assert s[..i] == p && s[i + 1..] == rest;
  }

  /** Splitting undoes joining for parts that do not contain the separator. */
  lemma {:induction false} SplitJoin(parts: seq<string>, sep: char)
    requires parts != []
    requires forall p :: p in parts ==> sep !in p
    ensures Split(Join(parts, sep), sep) == parts
  {
    if |parts| == 1 {
      assert parts == [parts[0]];
    } else {
      SplitJoin(parts[1..], sep);
      SplitAfterFirst(parts[0], Join(parts[1..], sep), sep);
      assert parts == [parts[0]] + parts[1..];
    }
  }

  lemma SplitWhole(p: string, sep: char)
    requires sep !in p
    ensures Split(p, sep) == [p]
  {
  }

  /** And joining undoes splitting. */
  lemma {:induction false} JoinSplit(s: string, sep: char)
    ensures Join(Split(s, sep), sep) == s
    decreases |s|
  {
    hide Split, IndexOf;
    var i := IndexOf(s, sep);
    if i == -1 {
      SplitWhole(s, sep);
    } else {
      var p, rest := s[..i], s[i + 1..];
      assert s == p + [sep] + rest;
      SplitAfterFirst(p, rest, sep);
      JoinSplit(rest, sep);
    }
  }

  lemma {:induction false} SplitAppend(p: string, q: string, sep: char)
    ensures Split(p + [sep] + q, sep) == Split(p, sep) + Split(q, sep)
    decreases |p|
  {
    hide Split;
    var i := IndexOf(p, sep);
    if i == -1 {
      SplitWhole(p, sep);
      SplitAfterFirst(p, q, sep);
    } else {
      var a, b := p[..i], p[i + 1..];
      assert p == a + [sep] + b && p + [sep] + q == a + [sep] + (b + [sep] + q);
      SplitAfterFirst(a, b, sep);
      SplitAfterFirst(a, b + [sep] + q, sep);
      SplitAppend(b, q, sep);
    }
  }

  lemma {:induction false} JoinAppend(xs: seq<string>, ys: seq<string>, sep: char)
    requires xs != [] && ys != []
    ensures Join(xs + ys, sep) == Join(xs, sep) + [sep] + Join(ys, sep)
  {
    assert (xs + ys)[1..] == xs[1..] + ys;
    if |xs| > 1 {
      JoinAppend(xs[1..], ys, sep);
    } else {
      assert xs[1..] + ys == ys;
    }
  }

  /** One path lies strictly under another exactly when its elements extend the other's. */
  lemma UnderPath(p: string, r: string, sep: char)
    ensures p + [sep] <= r <==> Split(p, sep) < Split(r, sep)
  {
    hide Split, Join;
    if p + [sep] <= r {
      var q := r[|p| + 1..];
      assert r == p + [sep] + q;
      SplitAppend(p, q, sep);
    }
    if Split(p, sep) < Split(r, sep) {
      var ps, rest := Split(p, sep), Split(r, sep)[|Split(p, sep)|..];
      assert Split(r, sep) == ps + rest;
      JoinSplit(p, sep);
      JoinSplit(r, sep);
      JoinAppend(ps, rest, sep);
    }
  }

  /** Two strings cut at the first separator-class character agree on both pieces. */
  lemma CutUnique(a: string, x: string, b: string, y: string, marks: set<char>)
    requires forall c :: c in a ==> c !in marks
    requires forall c :: c in b ==> c !in marks
    requires x != "" && x[0] in marks
    requires y != "" && y[0] in marks
    requires a + x == b + y
    ensures a == b && x == y
  {
    var s := a + x;
    assert s[|a|] in marks && forall k :: 0 <= k < |a| ==> s[k] == a[k];
    assert s[|b|] == y[0] && forall k :: 0 <= k < |b| ==> s[k] == b[k];
    assert |a| == |b|;
    assert a == (a + x)[..|a|] && b == (b + y)[..|b|];
    assert x == (a + x)[|a|..] && y == (b + y)[|b|..];
  }
}
