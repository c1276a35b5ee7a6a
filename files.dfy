/**
 * src/utils/files.ts. The pull-request file list (a paginated remote call in
 * `ListPRFiles`) is a parameter.
 */
module FilesUtil {
  import opened Wrappers
  import opened MatchUtil

  /** The files a pushed commit touches, as the push payload lists them. */
  datatype Commit = Commit(added: seq<string>, removed: seq<string>, modified: seq<string>)

  datatype FilesError =
    | NotPushEvent(eventName: string)
    | NeitherPushNorPullRequest(eventName: string)

  /** `ListPushFiles`: throws for any event but push. For a push the per-commit
      `concat` results are discarded, so the three accumulators stay empty and
      the result is always the empty list. */
  method ListPushFiles(eventName: string, commits: seq<Commit>) returns (r: Result<seq<string>, FilesError>)
    ensures r.Success? <==> eventName == "push"
    ensures r.Success? ==> r.value == []
    ensures r.Failure? ==> r.error == NotPushEvent(eventName)
  {
    if eventName == "push" {
      var filesAdded: seq<string> := [];
      var filesRemoved: seq<string> := [];
      var filesModified: seq<string> := [];
      for i := 0 to |commits| {
        // Array.prototype.concat returns a new array; these results are dropped.
        var _ := filesAdded + commits[i].added;
        var _ := filesRemoved + commits[i].removed;
        var _ := filesModified + commits[i].modified;
      }
      r := Success(filesAdded + filesRemoved + filesModified);
    } else {
      r := Failure(NotPushEvent(eventName));
    }
  }

  /** `CheckPushOrPullFileMatch`: matches the event's changed files (the push
      file list, or `prFiles` for a pull request) against the path filters. */
  method CheckPushOrPullFileMatch(eventName: string, commits: seq<Commit>, prFiles: seq<string>,
                                  patterns: Option<seq<string>>, ignorePatterns: Option<seq<string>>,
                                  glob: Glob)
    returns (r: Result<MatchResult, FilesError>)
    ensures r.Success? <==> eventName == "push" || eventName == "pull_request"
    ensures eventName == "push" ==> r == Success(Match(Some([]), patterns, ignorePatterns, glob))
    ensures eventName == "pull_request" ==> r == Success(Match(Some(prFiles), patterns, ignorePatterns, glob))
    ensures r.Failure? ==> r.error == NeitherPushNorPullRequest(eventName)
  {
    if eventName == "push" || eventName == "pull_request" {
      var files: seq<string>;
      if eventName == "push" {
        var pushed := ListPushFiles(eventName, commits);
        files := pushed.value;
      } else {
        files := prFiles;
      }
      r := Success(Match(Some(files), patterns, ignorePatterns, glob));
    } else {
      r := Failure(NeitherPushNorPullRequest(eventName));
    }
  }

  /** For a push the file list is empty, so any path filter is unmatched and no
      filter at all gives a match with no files. */
  lemma PushPathFiltersNeverMatch(patterns: Option<seq<string>>, ignorePatterns: Option<seq<string>>, glob: Glob)
    ensures patterns.Some? || ignorePatterns.Some? ==> Match(Some([]), patterns, ignorePatterns, glob) == MatchResult(false, [])
    ensures patterns.None? && ignorePatterns.None? ==> Match(Some([]), patterns, ignorePatterns, glob) == MatchResult(true, [])
  {
  }
}
