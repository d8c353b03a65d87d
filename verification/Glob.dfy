/** Approval patterns: a greedy left-to-right scan against what a `*` pattern means. */
module Glob {
  import opened Core

  // ----- what a pattern means -----

  /** Character by character: a star stands for any string, everything else for itself. */
  ghost predicate Matches(pattern: string, value: string) {
    if pattern == "" then value == ""
    else if pattern[0] == '*' then
      exists k :: 0 <= k <= |value| && Matches(pattern[1..], value[k..])
    else value != "" && value[0] == pattern[0] && Matches(pattern[1..], value[1..])
  }

  /** The pieces between the stars; there is always at least one. */
  function Split(pattern: string): (parts: seq<string>)
    ensures parts != []
    ensures |parts| == 1 <==> '*' !in pattern
    ensures |parts| == 1 ==> parts == [pattern]
  {
    if pattern == "" then [""]
    else
      var rest := Split(pattern[1..]);
      assert pattern == [pattern[0]] + pattern[1..];
      if pattern[0] == '*' then [""] + rest else [[pattern[0]] + rest[0]] + rest[1..]
  }

  predicate OccursAt(part: string, w: string, k: nat) {
    k + |part| <= |w| && w[k..k + |part|] == part
  }

  /** `w` is some string, parts[0], some string, parts[1], ..., ending with the last part. */
  ghost predicate Floating(parts: seq<string>, w: string)
    requires parts != []
    decreases |parts|
  {
    if |parts| == 1 then exists k: nat :: OccursAt(parts[0], w, k) && k + |parts[0]| == |w|
    else exists k: nat :: OccursAt(parts[0], w, k) && Floating(parts[1..], w[k + |parts[0]|..])
  }

  /** The value can be cut as p0 s1 p1 ... sn pn. */
  ghost predicate Cuttable(parts: seq<string>, value: string)
    requires parts != []
  {
    if |parts| == 1 then value == parts[0]
    else OccursAt(parts[0], value, 0) && Floating(parts[1..], value[|parts[0]|..])
  }

  // ----- the scan -----

  /** The first occurrence at or after `from`. */
  function FindFrom(w: string, part: string, from: nat): (r: Option<nat>)
    ensures r.Some? ==> from <= r.value && OccursAt(part, w, r.value)
                        && forall k :: from <= k < r.value ==> !OccursAt(part, w, k)
    ensures r.None? ==> forall k: nat :: from <= k ==> !OccursAt(part, w, k)
    decreases |w| - from
  {
    if from + |part| > |w| then None
    else if OccursAt(part, w, from) then Some(from)
    else if from == |w| then None
    else FindFrom(w, part, from + 1)
  }

  predicate EndsWith(w: string, part: string) {
    |part| <= |w| && w[|w| - |part|..] == part
  }

  method WildcardMatch(pattern: string, value: string) returns (r: bool)
    ensures r <==> Matches(pattern, value)
  {
    MatchesIsCuttable(pattern, value);
    if pattern == "*" {
      StarMatches(value);
      return true;
    }
    if '*' !in pattern {
      return pattern == value;
    }
    var parts := Split(pattern);
    var pos := 0;
    var i := 0;
    while i < |parts|
      invariant 0 <= i <= |parts| && 0 <= pos <= |value|
      invariant i == 0 ==> pos == 0
      invariant 0 < i < |parts| ==> (Cuttable(parts, value) <==> Floating(parts[i..], value[pos..]))
      invariant i == |parts| ==> Cuttable(parts, value)
    {
      var part := parts[i];
      if i > 0 {
        ScanStep(parts, i, value, pos);
      }
      if part == "" {
        i := i + 1;
        continue;
      }
      if i == 0 {
        if !(part <= value) {
          return false;
        }
        pos := |part|;
      } else if i == |parts| - 1 {
        if !EndsWith(value[pos..], part) {
          return false;
        }
      } else {
        var found := FindFrom(value[pos..], part, 0);
        if found.None? {
          return false;
        }
        pos := pos + found.value + |part|;
      }
      i := i + 1;
    }
    r := true;
  }

  /** A value is accepted when some pattern matches it. */
  method MatchesPatterns(value: string, patterns: seq<string>) returns (r: bool)
    ensures r <==> exists i :: 0 <= i < |patterns| && Matches(patterns[i], value)
  {
    for i := 0 to |patterns|
      invariant forall j :: 0 <= j < i ==> !Matches(patterns[j], value)
    {
      var m := WildcardMatch(patterns[i], value);
      if m {
        return true;
      }
    }
    r := false;
  }

  // ----- why the leftmost choice suffices -----

  /** A longer stretch to float in never hurts. */
  lemma {:induction false} FloatingGrows(parts: seq<string>, w: string, n: nat)
    requires parts != [] && n <= |w| && Floating(parts, w[n..])
    ensures Floating(parts, w)
  {
    var tail, p := w[n..], parts[0];
    if |parts| == 1 {
      var k: nat :| OccursAt(p, tail, k) && k + |p| == |tail|;
      assert w[n + k..n + k + |p|] == tail[k..k + |p|];
      assert OccursAt(p, w, n + k);
    } else {
      var k: nat :| OccursAt(p, tail, k) && Floating(parts[1..], tail[k + |p|..]);
      assert w[n + k..n + k + |p|] == tail[k..k + |p|];
      assert w[n + k + |p|..] == tail[k + |p|..];
      assert OccursAt(p, w, n + k);
    }
  }

  /** One turn of the scan: the last part has to end the value, any other is taken at its first occurrence. */
  lemma FloatingStep(parts: seq<string>, w: string)
    requires parts != []
    ensures |parts| == 1 ==> (Floating(parts, w) <==> EndsWith(w, parts[0]))
    ensures |parts| > 1 && parts[0] == "" ==> (Floating(parts, w) <==> Floating(parts[1..], w))
    ensures var found := FindFrom(w, parts[0], 0);
            |parts| > 1 ==> (Floating(parts, w) <==>
                             found.Some? && Floating(parts[1..], w[found.value + |parts[0]|..]))
  {
    var p := parts[0];
    if |parts| == 1 {
      if EndsWith(w, p) {
        assert w[|w| - |p|..|w|] == w[|w| - |p|..];
        assert OccursAt(p, w, |w| - |p|);
      }
      if Floating(parts, w) {
        var k: nat :| OccursAt(p, w, k) && k + |p| == |w|;
        assert w[k..k + |p|] == w[|w| - |p|..];
      }
    } else {
      var found := FindFrom(w, p, 0);
      if Floating(parts, w) {
        var k: nat :| OccursAt(p, w, k) && Floating(parts[1..], w[k + |p|..]);
        assert found.Some? && found.value <= k;
        var here := w[found.value + |p|..];
        assert here[k - found.value..] == w[k + |p|..];
        FloatingGrows(parts[1..], here, k - found.value);
      }
      if p == "" {
        assert OccursAt(p, w, 0);
        assert w[0..] == w;
      }
    }
  }

  /** The same in terms of the scan's cursor. */
  lemma ScanStep(parts: seq<string>, i: nat, value: string, pos: nat)
    requires i < |parts| && pos <= |value|
    ensures i == |parts| - 1 ==> (Floating(parts[i..], value[pos..]) <==> EndsWith(value[pos..], parts[i]))
    ensures i < |parts| - 1 && parts[i] == "" ==>
              (Floating(parts[i..], value[pos..]) <==> Floating(parts[i + 1..], value[pos..]))
    ensures var found := FindFrom(value[pos..], parts[i], 0);
            i < |parts| - 1 ==>
              (Floating(parts[i..], value[pos..]) <==>
               found.Some? && Floating(parts[i + 1..], value[pos + found.value + |parts[i]|..]))
  {
    var w := value[pos..];
    FloatingStep(parts[i..], w);
    assert parts[i..][1..] == parts[i + 1..];
    var found := FindFrom(w, parts[i], 0);
    if found.Some? {
      assert w[found.value + |parts[i]|..] == value[pos + found.value + |parts[i]|..];
    }
  }

  // ----- the two meanings agree -----

  /** Floating is being cuttable somewhere further on. */
  lemma FloatingIsSomewhere(parts: seq<string>, w: string)
    requires parts != []
    ensures Floating(parts, w) <==> exists k :: 0 <= k <= |w| && Cuttable(parts, w[k..])
  {
    var p := parts[0];
    forall k | 0 <= k <= |w| && Cuttable(parts, w[k..]) ensures Floating(parts, w) {
      var tail := w[k..];
      assert tail[0..|p|] == w[k..k + |p|];
      assert OccursAt(p, w, k);
      assert tail[|p|..] == w[k + |p|..];
      if |parts| == 1 {
        assert tail == p;
      }
    }
    if Floating(parts, w) {
      if |parts| == 1 {
        var k: nat :| OccursAt(p, w, k) && k + |p| == |w|;
        assert w[k..] == w[k..k + |p|];
        assert Cuttable(parts, w[k..]);
      } else {
        var k: nat :| OccursAt(p, w, k) && Floating(parts[1..], w[k + |p|..]);
        var tail := w[k..];
        assert tail[0..|p|] == w[k..k + |p|] && tail[|p|..] == w[k + |p|..];
        assert Cuttable(parts, w[k..]);
      }
    }
  }

  /** Both readings of a pattern agree: its characters, and its star-separated parts. */
  lemma {:induction false} MatchesIsCuttable(pattern: string, value: string)
    ensures Matches(pattern, value) <==> Cuttable(Split(pattern), value)
    decreases |pattern|
  {
    if pattern != "" {
      var rest := Split(pattern[1..]);
      if pattern[0] == '*' {
        forall k | 0 <= k <= |value|
          ensures Matches(pattern[1..], value[k..]) <==> Cuttable(rest, value[k..])
        {
          MatchesIsCuttable(pattern[1..], value[k..]);
        }
        FloatingIsSomewhere(rest, value);
        assert value[0..] == value && Split(pattern)[1..] == rest;
        assert OccursAt("", value, 0);
      } else {
        LiteralStep(pattern, value);
        if value != "" {
          MatchesIsCuttable(pattern[1..], value[1..]);
        }
      }
    }
  }

  lemma LiteralStep(pattern: string, value: string)
    requires pattern != "" && pattern[0] != '*'
    ensures Cuttable(Split(pattern), value) <==>
            value != "" && value[0] == pattern[0] && Cuttable(Split(pattern[1..]), value[1..])
  {
    LiteralCut(pattern[0], Split(pattern[1..]), value);
  }

  lemma LiteralCut(c: char, rest: seq<string>, value: string)
    requires rest != []
    ensures Cuttable([[c] + rest[0]] + rest[1..], value) <==>
            value != "" && value[0] == c && Cuttable(rest, value[1..])
  {
    var p, h := [c] + rest[0], rest[0];
    assert ([p] + rest[1..])[1..] == rest[1..];
    if value != "" {
      var tail := value[1..];
      assert value == [value[0]] + tail;
      if |p| <= |value| {
        assert value[|p|..] == tail[|h|..];
        assert value[0..|p|] == [value[0]] + tail[0..|h|];
      }
    }
  }

  lemma StarMatches(value: string)
    ensures Matches("*", value)
  {
    assert value[|value|..] == "";
    assert Matches("*"[1..], value[|value|..]);
  }
}
