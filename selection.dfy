/**
 * The file-change selection rule that src/handler/index.ts (labels) and
 * src/handler/auto-grant.ts (commit statuses) both apply to each of their
 * entries, given the pull request's changed files.
 */
module Selection {
  import opened MatchUtil

  /** An entry is selected when it has neither list, when some changed file
      matches its `if_include` list, or when no changed file matches its
      `if_not_include` list. */
  predicate Selected(ifInclude: seq<string>, ifNotInclude: seq<string>, changedFiles: seq<string>, glob: Glob)
  {
    (|ifInclude| == 0 && |ifNotInclude| == 0)
    || (|ifInclude| != 0 && |Micromatch(changedFiles, ifInclude, glob)| != 0)
    || (|ifNotInclude| != 0 && |Micromatch(changedFiles, ifNotInclude, glob)| == 0)
  }

  /** The `match` flag as the handlers compute it: set when both lists are
      empty, then possibly raised by each non-empty list in turn. */
  method SelectionFlag(ifInclude: seq<string>, ifNotInclude: seq<string>, changedFiles: seq<string>, glob: Glob)
    returns (matched: bool)
    ensures matched == Selected(ifInclude, ifNotInclude, changedFiles, glob)
  {
    matched := if |ifInclude| == 0 && |ifNotInclude| == 0 then true else false;
    if |ifInclude| != 0 {
      var includeMatches := Micromatch(changedFiles, ifInclude, glob);
      matched := if |includeMatches| != 0 then true else matched;
    }
    if |ifNotInclude| != 0 {
      var notIncludeMatches := Micromatch(changedFiles, ifNotInclude, glob);
      matched := if |notIncludeMatches| == 0 then true else matched;
    }
  }

  /** The rule in terms of individual files. */
  lemma SelectedMeaning(ifInclude: seq<string>, ifNotInclude: seq<string>, changedFiles: seq<string>, glob: Glob)
    ensures Selected(ifInclude, ifNotInclude, changedFiles, glob) <==>
              (|ifInclude| == 0 && |ifNotInclude| == 0)
              || (|ifInclude| != 0 && exists f :: f in changedFiles && MatchesAny(glob, ifInclude, f))
              || (|ifNotInclude| != 0 && forall f :: f in changedFiles ==> !MatchesAny(glob, ifNotInclude, f))
  {
    var inc := Micromatch(changedFiles, ifInclude, glob);
    var exc := Micromatch(changedFiles, ifNotInclude, glob);
    if |inc| != 0 {
      assert inc[0] in inc;
    }
    if |exc| != 0 {
      assert exc[0] in exc;
    }
  }

  /** With no changed files, an entry is selected exactly when its
      `if_include` list is empty or its `if_not_include` list is not. */
  lemma SelectedWithoutChangedFiles(ifInclude: seq<string>, ifNotInclude: seq<string>, glob: Glob)
    ensures Selected(ifInclude, ifNotInclude, [], glob) <==> |ifInclude| == 0 || |ifNotInclude| != 0
  {
  }
}
