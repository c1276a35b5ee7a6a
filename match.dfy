/**
 * src/utils/match.ts: include/ignore matching of candidate strings against
 * glob patterns. The glob test itself (micromatch) is a foreign library; it is
 * the parameter `glob`, read as `glob(pattern, candidate)`.
 */
module MatchUtil {
  import opened Wrappers
  import ListUtil

  /** A glob test: does `candidate` match `pattern`? */
  type Glob = (string, string) -> bool

  predicate MatchesAny(glob: Glob, patterns: seq<string>, candidate: string)
  {
    exists p :: p in patterns && glob(p, candidate)
  }

  /** `micromatch(candidates, patterns)`: the candidates that match some pattern,
      in candidate order. */
  function Micromatch(candidates: seq<string>, patterns: seq<string>, glob: Glob): (r: seq<string>)
    ensures |r| <= |candidates|
    ensures forall c :: c in r <==> c in candidates && MatchesAny(glob, patterns, c)
    ensures |r| == |candidates| <==> forall c :: c in candidates ==> MatchesAny(glob, patterns, c)
    decreases |candidates|
  {
    if candidates == [] then []
    else
      var rest := Micromatch(candidates[1..], patterns, glob);
      assert candidates == [candidates[0]] + candidates[1..];
      if MatchesAny(glob, patterns, candidates[0]) then [candidates[0]] + rest else rest
  }

  /** The candidates that match no pattern, in candidate order (a reference
      definition for ignore mode). */
  function Unmatched(candidates: seq<string>, patterns: seq<string>, glob: Glob): (r: seq<string>)
    decreases |candidates|
  {
    if candidates == [] then []
    else
      var rest := Unmatched(candidates[1..], patterns, glob);
      if MatchesAny(glob, patterns, candidates[0]) then rest else [candidates[0]] + rest
  }

  datatype MatchResult = MatchResult(matched: bool, matches: seq<string>)

  /** The module-private `match(candidates, patterns, ignore)`. */
  function MatchMode(candidates: seq<string>, patterns: seq<string>, ignore: bool, glob: Glob): (r: MatchResult)
    ensures !ignore ==> (r.matched <==> exists c :: c in candidates && MatchesAny(glob, patterns, c))
    ensures !ignore && r.matched ==> r.matches == Micromatch(candidates, patterns, glob)
    ensures ignore ==> (r.matched <==> exists c :: c in candidates && !MatchesAny(glob, patterns, c))
    ensures ignore && r.matched ==> r.matches == Unmatched(candidates, patterns, glob)
    ensures !r.matched ==> r.matches == []
    ensures forall c :: c in r.matches ==> c in candidates
  {
    var matches := Micromatch(candidates, patterns, glob);
    if !ignore && |matches| > 0 then
      assert matches[0] in matches;
      MatchResult(true, matches)
    else if ignore && |matches| != |candidates| then
      RemoveMatchedIsUnmatched(candidates, matches, patterns, glob);
      ListUtil.RemoveListKeeps(candidates, matches);
      MatchResult(true, ListUtil.RemoveList(candidates, matches))
    else
      (assert !ignore ==> matches == [];
       MatchResult(false, []))
  }

  /** Removing, by value, every candidate that matches leaves exactly the unmatched ones. */
  lemma {:induction false} RemoveMatchedIsUnmatched(candidates: seq<string>, matched: seq<string>,
                                                    patterns: seq<string>, glob: Glob)
    requires forall c :: c in candidates ==> (c in matched <==> MatchesAny(glob, patterns, c))
    ensures ListUtil.RemoveList(candidates, matched) == Unmatched(candidates, patterns, glob)
    decreases |candidates|
  {
    if candidates != [] {
      assert forall c :: c in candidates[1..] ==> c in candidates;
      RemoveMatchedIsUnmatched(candidates[1..], matched, patterns, glob);
    }
  }

  /** `Match(candidates, patterns, ignorePatterns)`. `None` stands for `null` or
      `undefined`; a present list, even an empty one, is truthy. The source's
      final `throw` (both lists set) cannot be reached: `patterns` is tested first. */
  function Match(candidates: Option<seq<string>>, patterns: Option<seq<string>>,
                 ignorePatterns: Option<seq<string>>, glob: Glob): (r: MatchResult)
    ensures candidates.None? && (patterns.Some? || ignorePatterns.Some?) ==> r == MatchResult(false, [])
    ensures !r.matched ==> r.matches == []
    ensures candidates.Some? ==> forall c :: c in r.matches ==> c in candidates.value
  {
    if patterns.None? && ignorePatterns.None? then
      MatchResult(true, candidates.GetOr([]))
    else if patterns.Some? then
      if candidates.Some? then MatchMode(candidates.value, patterns.value, false, glob)
      else MatchResult(false, [])
    else
      if candidates.Some? then MatchMode(candidates.value, ignorePatterns.value, true, glob)
      else MatchResult(false, [])
  }

  /** With neither list set, everything is matched and the matches are the candidates. */
  lemma NoFiltersAlwaysMatch(candidates: Option<seq<string>>, glob: Glob)
    ensures Match(candidates, None, None, glob) == MatchResult(true, candidates.GetOr([]))
  {
  }

  /** When both lists are set, the include list wins and the ignore list is not read. */
  lemma {:induction false} PatternsWinOverIgnorePatterns(candidates: seq<string>, patterns: seq<string>,
                                                        ignorePatterns: seq<string>, glob: Glob)
    ensures Match(Some(candidates), Some(patterns), Some(ignorePatterns), glob)
            == Match(Some(candidates), Some(patterns), None, glob)
  {
  }

  /** An empty include list is truthy and selects include mode, which never matches. */
  lemma EmptyPatternListNeverMatches(candidates: Option<seq<string>>, ignorePatterns: Option<seq<string>>, glob: Glob)
    ensures Match(candidates, Some([]), ignorePatterns, glob) == MatchResult(false, [])
  {
  }

  /** Include mode over concrete names: `Match(['a.go','b.md'], ['*.go'], null)`. */
  lemma IncludeExample(glob: Glob)
    requires glob("*.go", "a.go") && !glob("*.go", "b.md")
    ensures Match(Some(["a.go", "b.md"]), Some(["*.go"]), None, glob) == MatchResult(true, ["a.go"])
  {
    assert MatchesAny(glob, ["*.go"], "a.go");
    assert !MatchesAny(glob, ["*.go"], "b.md");
  }

  /** Ignore mode: `Match(['a.go','b.md'], null, ['*.md'])` keeps 'a.go', and
      `Match(['a.md'], null, ['*.md'])` is unmatched because nothing survives. */
  lemma IgnoreExamples(glob: Glob)
    requires glob("*.md", "b.md") && glob("*.md", "a.md") && !glob("*.md", "a.go")
    ensures Match(Some(["a.go", "b.md"]), None, Some(["*.md"]), glob) == MatchResult(true, ["a.go"])
    ensures Match(Some(["a.md"]), None, Some(["*.md"]), glob) == MatchResult(false, [])
  {
    assert MatchesAny(glob, ["*.md"], "b.md");
    assert MatchesAny(glob, ["*.md"], "a.md");
    assert !MatchesAny(glob, ["*.md"], "a.go");
    assert Unmatched(["a.go", "b.md"], ["*.md"], glob) == ["a.go"] by {
      assert ["a.go", "b.md"][1..] == ["b.md"];
    }
  }
}
