/** Field classification: dotted path patterns, and the most specific matching rule. */
module FieldRegistry {
  import opened Sequences
  import opened Text
  import opened Wrappers

  datatype Sensitivity = Public | Low | Medium | High | Critical

  datatype Action = Keep | Redact | Pseudonymize | Obfuscate

  datatype FieldRule = FieldRule(match_: string, sensitivity: Sensitivity, action: Option<Action>)

  /** `path.split(".").filter(Boolean)`, with `current` the segment read so far. */
  function SegmentsFrom(path: string, current: string): seq<string> {
    if path == "" then
      Nonempty(current)
    else if path[0] == '.' then
      Nonempty(current) + SegmentsFrom(path[1..], "")
    else
      SegmentsFrom(path[1..], current + [path[0]])
  }

  function Nonempty(s: string): seq<string> {
    if s == "" then [] else [s]
  }

  function Segments(path: string): seq<string> {
    SegmentsFrom(path, "")
  }

  /** What a pattern accepts: a prefix before `**`, or segment by segment with `*` for any one. */
  predicate Matches(pattern: seq<string>, path: seq<string>) {
    var wildcard := IndexOf(pattern, "**");
    if wildcard >= 0 then
      pattern[..wildcard] <= path
    else
      |pattern| == |path| && forall i | 0 <= i < |path| :: pattern[i] == "*" || pattern[i] == path[i]
  }

  predicate PathMatches(pattern: string, path: string) {
    Matches(Segments(pattern), Segments(path))
  }

  /** Matching with `*` for any one segment before `**` as well. */
  predicate WildMatches(pattern: seq<string>, path: seq<string>)
    requires "**" in pattern
  {
    var wildcard := IndexOf(pattern, "**");
    wildcard <= |path| && forall i | 0 <= i < wildcard :: pattern[i] == "*" || pattern[i] == path[i]
  }

  /** Before `**` a `*` matches only a segment that is itself written `*`. */
  lemma StarBeforeDoubleStar(pattern: seq<string>, path: seq<string>)
    requires "**" in pattern
    ensures Matches(pattern, path) <==>
      WildMatches(pattern, path)
      && forall i | 0 <= i < IndexOf(pattern, "**") :: pattern[i] == "*" ==> path[i] == "*"
  {
    var wildcard := IndexOf(pattern, "**");
    if WildMatches(pattern, path) {
      assert pattern[..wildcard] <= path <==> forall i | 0 <= i < wildcard :: pattern[i] == path[i];
    }
  }

  lemma {:induction false} SegmentEnds(a: string, rest: string, current: string)
    requires '.' !in a && (rest == "" || rest[0] == '.')
    ensures SegmentsFrom(a + rest, current) ==
      Nonempty(current + a) + (if rest == "" then [] else SegmentsFrom(rest[1..], ""))
  {
    if a == "" {
      assert a + rest == rest && current + a == current;
    } else {
      assert (a + rest)[1..] == a[1..] + rest;
      assert current + [a[0]] + a[1..] == current + a;
      SegmentEnds(a[1..], rest, current + [a[0]]);
    }
  }

  predicate Plain(segments: seq<string>) {
    forall s | s in segments :: s != "" && '.' !in s
  }

  /** Splitting undoes joining with dots. */
  lemma {:induction false} SegmentsOfJoin(segments: seq<string>)
    requires Plain(segments)
    ensures Segments(Join(segments, ".")) == segments
  {
    if segments != [] {
      var first, rest := segments[0], segments[1..];
      assert first in segments && "" + first == first && segments == [first] + rest;
      if rest == [] {
        assert first + "" == first;
        SegmentEnds(first, "", "");
      } else {
        assert forall s | s in rest :: s in segments;
        SegmentsOfJoin(rest);
        assert Join(segments, ".") == first + ("." + Join(rest, "."));
        assert ("." + Join(rest, "."))[1..] == Join(rest, ".");
        SegmentEnds(first, "." + Join(rest, "."), "");
      }
    }
  }

  lemma {:induction false} SegmentsFromAppend(a: string, b: string, current: string)
    ensures SegmentsFrom(a + "." + b, current) == SegmentsFrom(a, current) + SegmentsFrom(b, "")
  {
    var whole := a + "." + b;
    if a == "" {
      assert whole[1..] == b;
    } else {
      assert whole[1..] == a[1..] + "." + b;
      if a[0] == '.' {
        SegmentsFromAppend(a[1..], b, "");
      } else {
        SegmentsFromAppend(a[1..], b, current + [a[0]]);
      }
    }
  }

  /** A dot separates, whatever stands on either side; empty segments do not count. */
  lemma SegmentsAppend(a: string, b: string)
    ensures Segments(a + "." + b) == Segments(a) + Segments(b)
  {
    SegmentsFromAppend(a, b, "");
  }

  /** What a pattern of these segments accepts: `**` ends a prefix that is taken literally, else `*` is any one. */
  predicate BySegments(pattern: seq<string>, path: seq<string>) {
    if "**" in pattern then
      exists n | 0 <= n < |pattern| && n <= |path| :: EndsPrefix(pattern, path, n)
    else
      |pattern| == |path| && forall i | 0 <= i < |path| :: pattern[i] in {"*", path[i]}
  }

  /** The first `**` stands at `n`, after what the path starts with. */
  predicate EndsPrefix(pattern: seq<string>, path: seq<string>, n: nat)
    requires n < |pattern| && n <= |path|
  {
    pattern[n] == "**" && forall i | 0 <= i < n :: pattern[i] != "**" && pattern[i] == path[i]
  }

  lemma MatchesBySegments(pattern: seq<string>, path: seq<string>)
    ensures Matches(pattern, path) <==> BySegments(pattern, path)
  {
    var wildcard := IndexOf(pattern, "**");
    if wildcard >= 0 {
      assert forall i | 0 <= i < wildcard :: pattern[i] in pattern[..wildcard];
      if pattern[..wildcard] <= path {
        assert forall i | 0 <= i < wildcard :: pattern[..wildcard][i] == path[i];
        assert EndsPrefix(pattern, path, wildcard);
      }
      if n :| 0 <= n < |pattern| && n <= |path| && EndsPrefix(pattern, path, n) {
        FirstIs(pattern, "**", n);
      }
    } else {
      assert "**" !in pattern;
    }
  }

  lemma FirstIs(s: seq<string>, x: string, n: nat)
    requires n < |s| && s[n] == x && forall i | 0 <= i < n :: s[i] != x
    ensures IndexOf(s, x) == n
  {
    assert x in s;
  }

  lemma TwoSegments(a: string, b: string)
    requires '.' !in a && '.' !in b && a != "" && b != ""
    ensures Segments(a + "." + b) == [a, b]
  {
    assert a + "." + b == a + ("." + b) && ("." + b)[1..] == b;
    SegmentEnds(a, "." + b, "");
    assert b + "" == b;
    SegmentEnds(b, "", "");
    assert "" + a == a && "" + b == b;
  }

  /** The pattern `*.**` misses the path `a.b`, though `*.b` matches it. */
  lemma StarIsLiteral()
    ensures PathMatches("*.b", "a.b") && !PathMatches("*.**", "a.b")
    ensures WildMatches(["*", "**"], ["a", "b"]) && Segments("*.**") == ["*", "**"]
  {
    TwoSegments("*", "b");
    TwoSegments("a", "b");
    TwoSegments("*", "**");
    assert "*" + "." + "b" == "*.b" && "a" + "." + "b" == "a.b" && "*" + "." + "**" == "*.**";
    assert IndexOf(["*", "**"], "**") == 1;
    assert IndexOf(["*", "b"], "**") == -1;
    assert ["*", "**"][..1][0] == "*";
  }

  method MatchPath(pattern: string, path: string) returns (r: bool)
    ensures r <==> PathMatches(pattern, path)
    ensures forall p, q | Plain(p) && Plain(q) && pattern == Join(p, ".") && path == Join(q, ".") ::
      r <==> BySegments(p, q)
  {
    forall p, q | Plain(p) && Plain(q) && pattern == Join(p, ".") && path == Join(q, ".")
      ensures PathMatches(pattern, path) <==> BySegments(p, q)
    {
      SegmentsOfJoin(p);
      SegmentsOfJoin(q);
      MatchesBySegments(p, q);
    }
    var patternSegs, pathSegs := Segments(pattern), Segments(path);
    var doubleWildcardIndex := IndexOf(patternSegs, "**");
    if doubleWildcardIndex != -1 {
      var prefix := patternSegs[..doubleWildcardIndex];
      if |prefix| > |pathSegs| {
        return false;
      }
      for i := 0 to |prefix|
        invariant prefix[..i] == pathSegs[..i]
      {
        if prefix[i] != pathSegs[i] {
          return false;
        }
      }
      assert prefix[..|prefix|] == prefix;
      return true;
    }
    if |patternSegs| != |pathSegs| {
      return false;
    }
    for i := 0 to |pathSegs|
      invariant forall k :: 0 <= k < i ==> patternSegs[k] == "*" || patternSegs[k] == pathSegs[k]
    {
      if patternSegs[i] == "*" {
        continue;
      }
      if patternSegs[i] != pathSegs[i] {
        return false;
      }
    }
    r := true;
  }

  /** The rule kept once `rule` has been looked at: a longer match takes over. */
  function Better(best: Option<FieldRule>, rule: FieldRule, path: string): Option<FieldRule> {
    if PathMatches(rule.match_, path) && (best.None? || |rule.match_| > |best.value.match_|) then Some(rule)
    else best
  }

  /** The rule kept after the first `n` rules. */
  function ClassifyAmong(rules: seq<FieldRule>, n: nat, path: string): Option<FieldRule>
    requires n <= |rules|
  {
    if n == 0 then None else Better(ClassifyAmong(rules, n - 1, path), rules[n - 1], path)
  }

  function Classify(rules: seq<FieldRule>, path: string): Option<FieldRule> {
    ClassifyAmong(rules, |rules|, path)
  }

  method ClassifyPath(rules: seq<FieldRule>, path: string) returns (best: Option<FieldRule>)
    ensures best == Classify(rules, path)
  {
    best := None;
    for i := 0 to |rules|
      invariant best == ClassifyAmong(rules, i, path)
    {
      var rule := rules[i];
      var matches := MatchPath(rule.match_, path);
      if !matches {
        continue;
      }
      if best.None? || |rule.match_| > |best.value.match_| {
        best := Some(rule);
      }
    }
  }

  /** The classification: a matching rule, none longer, and the first of that length. */
  ghost predicate MostSpecific(rules: seq<FieldRule>, n: nat, path: string, i: nat)
    requires n <= |rules|
  {
    && i < n && PathMatches(rules[i].match_, path)
    && (forall j :: 0 <= j < n && PathMatches(rules[j].match_, path) ==>
      && |rules[j].match_| <= |rules[i].match_|
      && (j < i ==> |rules[j].match_| < |rules[i].match_|))
  }

  /** `best` is the most specific match among the first `n` rules, or there is no match. */
  ghost predicate IsBest(rules: seq<FieldRule>, n: nat, path: string, best: Option<FieldRule>)
    requires n <= |rules|
  {
    if best.None? then forall i :: 0 <= i < n ==> !PathMatches(rules[i].match_, path)
    else exists i :: 0 <= i < n && MostSpecific(rules, n, path, i) && rules[i] == best.value
  }

  lemma {:induction false} ClassifyIsMostSpecific(rules: seq<FieldRule>, n: nat, path: string)
    requires n <= |rules|
    ensures IsBest(rules, n, path, ClassifyAmong(rules, n, path))
  {
    hide Better, PathMatches, MostSpecific;
    if n > 0 {
      ClassifyIsMostSpecific(rules, n - 1, path);
      BestNext(rules, n, path, ClassifyAmong(rules, n - 1, path));
    }
  }

  lemma BestNext(rules: seq<FieldRule>, n: nat, path: string, best: Option<FieldRule>)
    requires 0 < n <= |rules| && IsBest(rules, n - 1, path, best)
    ensures IsBest(rules, n, path, Better(best, rules[n - 1], path))
  {
    hide PathMatches;
    if best.Some? {
      var i :| 0 <= i < n - 1 && MostSpecific(rules, n - 1, path, i) && rules[i] == best.value;
      MostSpecificNext(rules, n - 1, path, i);
    } else if PathMatches(rules[n - 1].match_, path) {
      assert forall j :: 0 <= j < n && PathMatches(rules[j].match_, path) ==> j == n - 1;
      assert MostSpecific(rules, n, path, n - 1);
    }
  }

  /** A longer match takes over; otherwise the one found so far stays. */
  lemma MostSpecificNext(rules: seq<FieldRule>, n: nat, path: string, i: nat)
    requires n < |rules| && MostSpecific(rules, n, path, i)
    ensures
      if PathMatches(rules[n].match_, path) && |rules[n].match_| > |rules[i].match_| then
        MostSpecific(rules, n + 1, path, n)
      else
        MostSpecific(rules, n + 1, path, i)
  {
  }
}
