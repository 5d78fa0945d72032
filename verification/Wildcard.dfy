/** Wildcard patterns: the greedy matcher of adaptiveservice.go and what it decides.

  A pattern is a string in which every `*` stands for any string, the empty one
  included.  `Glob` says so by recursion on the pattern and is the reference;
  `GapForm` says the same thing without recursion, as "the parts of the pattern
  joined by some choice of gap strings".  `WildcardMatch` is the code: it strips the
  first part as a prefix and the last as a suffix and then looks for the leftmost
  occurrence of each middle part in turn. */
module Wildcard {

  const STAR := '*'

  // ----- Strings, as the Go standard library sees them -----

  predicate HasPrefix(s: string, p: string) {
    |p| <= |s| && s[..|p|] == p
  }

  predicate HasSuffix(s: string, p: string) {
    |p| <= |s| && s[|s| - |p|..] == p
  }

  predicate OccursAt(s: string, p: string, i: nat) {
    i + |p| <= |s| && s[i..i + |p|] == p
  }

  /** strings.Index: the leftmost occurrence, or -1. */
  method Index(s: string, p: string) returns (i: int)
    ensures i == -1 <==> forall k: nat :: !OccursAt(s, p, k)
    ensures i != -1 ==> 0 <= i && OccursAt(s, p, i) && forall k: nat :: k < i ==> !OccursAt(s, p, k)
  {
    i := 0;
    while i + |p| <= |s|
      invariant 0 <= i
      invariant forall k: nat :: k < i ==> !OccursAt(s, p, k)
    {
      if s[i..i + |p|] == p {
        assert OccursAt(s, p, i);
        return;
      }
      i := i + 1;
    }
    i := -1;
  }

  /** strings.Split for a one-character separator. */
  function Split(p: string, sep: char := STAR): (parts: seq<string>)
    ensures |parts| >= 1
    ensures forall k :: 0 <= k < |parts| ==> sep !in parts[k]
  {
    if p == "" then [""]
    else if p[0] == sep then [""] + Split(p[1..], sep)
    else var rest := Split(p[1..], sep); [[p[0]] + rest[0]] + rest[1..]
  }

  /** parts[0] + gaps[0] + parts[1] + gaps[1] + ... + parts[n]. */
  function JoinGaps(parts: seq<string>, gaps: seq<string>): string
    requires |parts| == |gaps| + 1
  {
    if gaps == [] then parts[0] else parts[0] + gaps[0] + JoinGaps(parts[1..], gaps[1..])
  }

  // ----- What a match is -----

  ghost predicate Glob(p: string, s: string)
    decreases |p|
  {
    if p == "" then s == ""
    else if p[0] == STAR then exists i :: 0 <= i <= |s| && Glob(p[1..], s[i..])
    else s != "" && s[0] == p[0] && Glob(p[1..], s[1..])
  }

  ghost predicate GapForm(p: string, s: string) {
    exists gaps: seq<string> :: |gaps| == |Split(p)| - 1 && s == JoinGaps(Split(p), gaps)
  }

  // ----- Matching by parts -----

  /** `s` is parts[0], then a gap, then parts[1], ..., ending with the last part. */
  ghost predicate Anchored(parts: seq<string>, s: string)
    requires parts != []
    decreases |parts|, 0
  {
    if |parts| == 1 then s == parts[0]
    else HasPrefix(s, parts[0]) && Floating(parts[1..], s[|parts[0]|..])
  }

  /** The same with a gap in front. */
  ghost predicate Floating(parts: seq<string>, s: string)
    requires parts != []
    decreases |parts|, 1
  {
    exists i :: 0 <= i <= |s| && Anchored(parts, s[i..])
  }

  lemma {:induction false} SplitHead(p: string)
    requires p != "" && p[0] != STAR
    ensures |Split(p)| == |Split(p[1..])|
    ensures Split(p)[0] == [p[0]] + Split(p[1..])[0] && Split(p)[1..] == Split(p[1..])[1..]
  {
  }

  lemma {:induction false} GlobIsAnchored(p: string, s: string)
    ensures Glob(p, s) <==> Anchored(Split(p), s)
    decreases |p|
  {
    if p == "" {
    } else if p[0] == STAR {
      assert Split(p)[1..] == Split(p[1..]);
      assert HasPrefix(s, "") && s[0..] == s;
      forall i | 0 <= i <= |s|
        ensures Glob(p[1..], s[i..]) <==> Anchored(Split(p[1..]), s[i..])
      {
        GlobIsAnchored(p[1..], s[i..]);
      }
    } else {
      SplitHead(p);
      var parts, rest := Split(p), Split(p[1..]);
      if s != "" {
        GlobIsAnchored(p[1..], s[1..]);
        if |parts| == 1 {
          assert s == [s[0]] + s[1..];
        } else {
          assert |parts[0]| <= |s| ==> s[..|parts[0]|] == [s[0]] + s[1..][..|rest[0]|];
          assert |parts[0]| <= |s| ==> s[|parts[0]|..] == s[1..][|rest[0]|..];
        }
      }
    }
  }

  lemma {:induction false} AnchoredHasGaps(parts: seq<string>, s: string) returns (gaps: seq<string>)
    requires parts != [] && Anchored(parts, s)
    ensures |gaps| == |parts| - 1 && s == JoinGaps(parts, gaps)
    decreases |parts|
  {
    gaps := [];
    if |parts| > 1 {
      var t := s[|parts[0]|..];
      assert Floating(parts[1..], t);
      var i :| 0 <= i <= |t| && Anchored(parts[1..], t[i..]);
      var rest := AnchoredHasGaps(parts[1..], t[i..]);
      gaps := [t[..i]] + rest;
      assert gaps[1..] == rest;
      assert s == parts[0] + t[..i] + t[i..];
    }
  }

  lemma {:induction false} JoinedIsAnchored(parts: seq<string>, gaps: seq<string>)
    requires |parts| == |gaps| + 1
    ensures Anchored(parts, JoinGaps(parts, gaps))
    decreases |parts|
  {
    if gaps != [] {
      var rest := JoinGaps(parts[1..], gaps[1..]);
      var s := parts[0] + gaps[0] + rest;
      var t := s[|parts[0]|..];
      JoinedIsAnchored(parts[1..], gaps[1..]);
      assert t[|gaps[0]|..] == rest;
    }
  }

  /** The recursive matcher and the closed form agree on every pattern and string. */
  lemma GlobIsGapForm(p: string, s: string)
    ensures Glob(p, s) <==> GapForm(p, s)
  {
    GlobIsAnchored(p, s);
    if Glob(p, s) {
      var gaps := AnchoredHasGaps(Split(p), s);
    }
    if GapForm(p, s) {
      var gaps: seq<string> :| |gaps| == |Split(p)| - 1 && s == JoinGaps(Split(p), gaps);
      JoinedIsAnchored(Split(p), gaps);
    }
  }

  // ----- The exchange argument -----

  /** All of `parts` occur in `s`, in order and without overlap. */
  ghost predicate InOrder(parts: seq<string>, s: string)
    decreases |parts|
  {
    parts == [] || exists i: nat :: OccursAt(s, parts[0], i) && InOrder(parts[1..], s[i + |parts[0]|..])
  }

  /** Dropping less of the string never loses a match. */
  lemma {:induction false} InOrderMonotone(parts: seq<string>, s: string, k: nat)
    requires k <= |s| && InOrder(parts, s[k..])
    ensures InOrder(parts, s)
  {
    if parts != [] {
      var p := parts[0];
      var i: nat :| OccursAt(s[k..], p, i) && InOrder(parts[1..], s[k..][i + |p|..]);
      assert s[k..][i..i + |p|] == s[k + i..k + i + |p|];
      assert s[k..][i + |p|..] == s[k + i + |p|..];
      assert OccursAt(s, p, k + i);
    }
  }

  /** Leftmost is as good as any: taking the first occurrence of the next part
      succeeds whenever some occurrence does. */
  lemma Exchange(parts: seq<string>, s: string, first: nat)
    requires parts != [] && OccursAt(s, parts[0], first)
    requires forall k: nat :: k < first ==> !OccursAt(s, parts[0], k)
    ensures InOrder(parts, s) <==> InOrder(parts[1..], s[first + |parts[0]|..])
  {
    var p := parts[0];
    if InOrder(parts, s) {
      var i: nat :| OccursAt(s, p, i) && InOrder(parts[1..], s[i + |p|..]);
      var t := s[first + |p|..];
      assert t[i - first..] == s[i + |p|..];
      InOrderMonotone(parts[1..], t, i - first);
    }
  }

  /** Middle parts followed by a last part: the last part may as well be a suffix. */
  ghost predicate SuffixAndInOrder(parts: seq<string>, s: string)
    requires parts != []
  {
    var last := parts[|parts| - 1];
    HasSuffix(s, last) && InOrder(parts[..|parts| - 1], s[..|s| - |last|])
  }

  lemma Slices(s: string, i: nat, p: string, last: string)
    requires i + |p| + |last| <= |s|
    ensures var t, u := s[i + |p|..], s[..|s| - |last|];
            && s[i..][|p|..] == t
            && u[i..i + |p|] == s[i..][..|p|]
            && u[i + |p|..] == t[..|t| - |last|]
            && t[|t| - |last|..] == s[|s| - |last|..]
  {
  }

  lemma {:induction false} InOrderFrom(parts: seq<string>, s: string, i: nat)
    requires parts != [] && OccursAt(s, parts[0], i) && InOrder(parts[1..], s[i + |parts[0]|..])
    ensures InOrder(parts, s)
  {
  }

  /** A first part in front of a tail that has its parts in order. */
  lemma {:induction false} FirstInOrder(parts: seq<string>, s: string, i: nat, t: string)
    requires |parts| > 1 && i <= |s| && HasPrefix(s[i..], parts[0]) && t == s[i..][|parts[0]|..]
    requires SuffixAndInOrder(parts[1..], t)
    ensures SuffixAndInOrder(parts, s)
  {
    var p, rest, last, mids := parts[0], parts[1..], parts[|parts| - 1], parts[..|parts| - 1];
    Slices(s, i, p, last);
    var u := s[..|s| - |last|];
    assert rest[|rest| - 1] == last && rest[..|rest| - 1] == mids[1..] && mids[0] == p;
    assert OccursAt(u, mids[0], i);
    assert u[i + |p|..] == t[..|t| - |last|];
    InOrderFrom(mids, u, i);
  }

  lemma {:induction false} FloatingImpliesInOrder(parts: seq<string>, s: string)
    requires parts != [] && Floating(parts, s)
    ensures SuffixAndInOrder(parts, s)
    decreases |parts|
  {
    var i :| 0 <= i <= |s| && Anchored(parts, s[i..]);
    if |parts| == 1 {
      assert s[i..] == parts[0];
      assert s[|s| - |parts[0]|..] == s[i..];
    } else {
      var t := s[i..][|parts[0]|..];
      FloatingImpliesInOrder(parts[1..], t);
      FirstInOrder(parts, s, i, t);
    }
  }

  lemma {:induction false} InOrderImpliesFloating(parts: seq<string>, s: string)
    requires parts != [] && SuffixAndInOrder(parts, s)
    ensures Floating(parts, s)
    decreases |parts|
  {
    var last, mids := parts[|parts| - 1], parts[..|parts| - 1];
    if |parts| == 1 {
      assert Anchored(parts, s[|s| - |last|..]);
    } else {
      var p, rest, u := parts[0], parts[1..], s[..|s| - |last|];
      var i: nat :| OccursAt(u, mids[0], i) && InOrder(mids[1..], u[i + |mids[0]|..]);
      Slices(s, i, p, last);
      assert rest[..|rest| - 1] == mids[1..];
      InOrderImpliesFloating(rest, s[i + |p|..]);
      assert Anchored(parts, s[i..]);
    }
  }

  /** What the code computes: prefix, then suffix, then the middle parts in order. */
  ghost predicate StripAndSearch(parts: seq<string>, s: string)
    requires |parts| >= 2
  {
    HasPrefix(s, parts[0]) && SuffixAndInOrder(parts[1..], s[|parts[0]|..])
  }

  lemma GlobIsStripAndSearch(p: string, s: string)
    requires |Split(p)| >= 2
    ensures Glob(p, s) <==> StripAndSearch(Split(p), s)
  {
    GlobIsAnchored(p, s);
    var parts := Split(p);
    if HasPrefix(s, parts[0]) {
      var t := s[|parts[0]|..];
      if Floating(parts[1..], t) {
        FloatingImpliesInOrder(parts[1..], t);
      }
      if SuffixAndInOrder(parts[1..], t) {
        InOrderImpliesFloating(parts[1..], t);
      }
    }
  }

  /** Empty middle parts constrain nothing. */
  lemma EmptyPart(parts: seq<string>, s: string)
    requires parts != [] && parts[0] == ""
    ensures InOrder(parts, s) <==> InOrder(parts[1..], s)
  {
    assert OccursAt(s, "", 0) && s[0..] == s;
    Exchange(parts, s, 0);
  }

  // ----- The code -----

  lemma StarMatchesAll(s: string)
    ensures Glob("*", s)
  {
    assert "*"[1..] == "" && s[|s|..] == "";
    assert Glob("*"[1..], s[|s|..]);
  }

  lemma {:induction false} OnePartIsLiteral(p: string)
    ensures |Split(p)| == 1 <==> STAR !in p
    ensures |Split(p)| == 1 ==> Split(p)[0] == p
  {
    if p != "" {
      OnePartIsLiteral(p[1..]);
      if p[0] != STAR {
        SplitHead(p);
      }
      assert p == [p[0]] + p[1..];
    }
  }

  /** The loop of the code over the middle parts. */
  method SearchInOrder(mids: seq<string>, text: string) returns (ok: bool)
    ensures ok <==> InOrder(mids, text)
  {
    var str := text;
    for j := 0 to |mids|
      invariant InOrder(mids[j..], str) <==> InOrder(mids, text)
    {
      var part := mids[j];
      assert mids[j..][0] == part && mids[j..][1..] == mids[j + 1..];
      if part == "" {
        EmptyPart(mids[j..], str);
        continue;
      }
      var index := Index(str, part);
      if index == -1 {
        return false;
      }
      Exchange(mids[j..], str, index);
      str := str[index + |part|..];
    }
    return true;
  }

  /** Decides exactly the glob relation, for every pattern and every string. */
  method WildcardMatch(pattern: string, text: string) returns (ok: bool)
    ensures ok <==> Glob(pattern, text)
  {
    if pattern == "*" {
      StarMatchesAll(text);
      return true;
    }
    if pattern == "" {
      return text == "";
    }
    var parts := Split(pattern);
    if |parts| == 1 {
      OnePartIsLiteral(pattern);
      GlobIsAnchored(pattern, text);
      return pattern == text;
    }
    GlobIsStripAndSearch(pattern, text);

    var str := text;
    var begin := parts[0];
    if begin != "" {
      if !HasPrefix(str, begin) {
        return false;
      }
      str := str[|begin|..];
    }
    assert str == text[|begin|..];
    assert parts[1..][..|parts| - 2] == parts[1..|parts| - 1];
    assert str[..|str|] == str && HasSuffix(str, "");

    var end := parts[|parts| - 1];
    if end != "" {
      if !HasSuffix(str, end) {
        return false;
      }
      str := str[..|str| - |end|];
    }
    ok := SearchInOrder(parts[1..|parts| - 1], str);
  }

  /** A pattern without `*` matches itself and nothing else, which is why an
      exact-key lookup may stand in for a scan. */
  lemma ExactPattern(p: string, s: string)
    requires STAR !in p
    ensures Glob(p, s) <==> p == s
  {
    OnePartIsLiteral(p);
    GlobIsAnchored(p, s);
  }
}
