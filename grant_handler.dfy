/**
 * src/handler/auto-grant.ts: posts a commit status for each configured status
 * whose file-change rule the pull request meets and whose state is valid.
 * The inputs, the parsed JSON `config` list, the listed pull-request files and
 * the head SHA of the pull request are parameters.
 */
module GrantHandler {
  import opened Wrappers
  import opened MatchUtil
  import opened Selection
  import opened Seqs

  /** A status entry of the JSON `config`; `None` for a key that is missing or null. */
  datatype JsonStatus = JsonStatus(
    context: Option<string>, description: Option<string>, targetUrl: Option<string>, state: Option<string>,
    ifInclude: Option<seq<string>>, ifNotInclude: Option<seq<string>>)

  /** A status to consider; `context` is `None` when the JSON entry had none. */
  datatype Status = Status(
    context: Option<string>, description: string, targetUrl: string, state: string,
    ifInclude: seq<string>, ifNotInclude: seq<string>)

  /** The arguments of one createCommitStatus request. */
  datatype StatusRequest = StatusRequest(sha: string, context: Option<string>, description: string, targetUrl: string, state: string)

  /** The input fields shared by every status. */
  datatype Defaults = Defaults(description: string, targetUrl: string, state: string, ifInclude: seq<string>, ifNotInclude: seq<string>)

  function FromContext(context: string, d: Defaults): Status
  {
    Status(Some(context), d.description, d.targetUrl, d.state, d.ifInclude, d.ifNotInclude)
  }

  function FromJson(js: JsonStatus, d: Defaults): Status
  {
    Status(js.context, js.description.GetOr(d.description), js.targetUrl.GetOr(d.targetUrl), js.state.GetOr(d.state),
           js.ifInclude.GetOr(d.ifInclude), js.ifNotInclude.GetOr(d.ifNotInclude))
  }

  /** Builds the status list: one status per line of `contexts`, then one per
      JSON entry, in order. */
  method BuildStatuses(contexts: seq<string>, d: Defaults, jsonStatuses: seq<JsonStatus>) returns (statuses: seq<Status>)
    ensures |statuses| == |contexts| + |jsonStatuses|
    ensures forall i :: 0 <= i < |contexts| ==> statuses[i] == FromContext(contexts[i], d)
    ensures forall i :: 0 <= i < |jsonStatuses| ==> statuses[|contexts| + i] == FromJson(jsonStatuses[i], d)
  {
    statuses := [];
    for i := 0 to |contexts|
      invariant |statuses| == i
      invariant forall k :: 0 <= k < i ==> statuses[k] == FromContext(contexts[k], d)
    {
      statuses := statuses + [FromContext(contexts[i], d)];
    }
    for i := 0 to |jsonStatuses|
      invariant |statuses| == |contexts| + i
      invariant forall k :: 0 <= k < |contexts| ==> statuses[k] == FromContext(contexts[k], d)
      invariant forall k :: 0 <= k < i ==> statuses[|contexts| + k] == FromJson(jsonStatuses[k], d)
    {
      statuses := statuses + [FromJson(jsonStatuses[i], d)];
    }
  }

  /** The states a commit status may be created with. */
  predicate ValidState(state: string)
  {
    state == "pending" || state == "success" || state == "failure"
  }

  function RequestFor(s: Status, sha: string): StatusRequest
  {
    StatusRequest(sha, s.context, s.description, s.targetUrl, s.state)
  }

  /** The requests sent for a status list, in order: one per selected status
      with a valid state, carrying the head SHA. */
  function Grants(statuses: seq<Status>, sha: string, changedFiles: seq<string>, glob: Glob): (r: seq<StatusRequest>)
    ensures |r| <= |statuses|
    decreases |statuses|
  {
    if statuses == [] then []
    else
      var s := statuses[0];
      var rest := Grants(statuses[1..], sha, changedFiles, glob);
      assert statuses == [s] + statuses[1..];
      if Selected(s.ifInclude, s.ifNotInclude, changedFiles, glob) && ValidState(s.state) then [RequestFor(s, sha)] + rest
      else rest
  }

  /** The selected statuses whose state is invalid: each is reported and not posted. */
  function Rejected(statuses: seq<Status>, changedFiles: seq<string>, glob: Glob): (r: seq<Option<string>>)
    ensures |r| <= |statuses|
    decreases |statuses|
  {
    if statuses == [] then []
    else
      var s := statuses[0];
      var rest := Rejected(statuses[1..], changedFiles, glob);
      assert statuses == [s] + statuses[1..];
      if Selected(s.ifInclude, s.ifNotInclude, changedFiles, glob) && !ValidState(s.state) then [s.context] + rest
      else rest
  }

  /** A request is sent exactly for each selected status with a valid state. */
  lemma {:induction false} GrantsMembers(statuses: seq<Status>, sha: string, changedFiles: seq<string>, glob: Glob)
    ensures forall q :: q in Grants(statuses, sha, changedFiles, glob) <==>
              exists s :: s in statuses && q == RequestFor(s, sha) && ValidState(s.state)
                          && Selected(s.ifInclude, s.ifNotInclude, changedFiles, glob)
    decreases |statuses|
  {
    if statuses != [] {
      GrantsMembers(statuses[1..], sha, changedFiles, glob);
      assert statuses == [statuses[0]] + statuses[1..];
    }
  }

  /** A state is reported exactly for each selected status with an invalid state. */
  lemma {:induction false} RejectedMembers(statuses: seq<Status>, changedFiles: seq<string>, glob: Glob)
    ensures forall c :: c in Rejected(statuses, changedFiles, glob) <==>
              exists s :: s in statuses && s.context == c && !ValidState(s.state)
                          && Selected(s.ifInclude, s.ifNotInclude, changedFiles, glob)
    decreases |statuses|
  {
    if statuses != [] {
      RejectedMembers(statuses[1..], changedFiles, glob);
      assert statuses == [statuses[0]] + statuses[1..];
    }
  }

  /** The handler: builds the status list, fetches the changed files (whose
      `concat` result is discarded, so the list stays empty), then posts or
      rejects each selected status in order. */
  method RunGrantHandler(contexts: seq<string>, d: Defaults, jsonStatuses: seq<JsonStatus>,
                         headSha: string, pullFiles: seq<string>, glob: Glob)
    returns (requests: seq<StatusRequest>, wrongStates: seq<Option<string>>)
    ensures var statuses := seq(|contexts|, i requires 0 <= i < |contexts| => FromContext(contexts[i], d))
                            + seq(|jsonStatuses|, i requires 0 <= i < |jsonStatuses| => FromJson(jsonStatuses[i], d));
            requests == Grants(statuses, headSha, [], glob) && wrongStates == Rejected(statuses, [], glob)
  {
    var statuses := BuildStatuses(contexts, d, jsonStatuses);
    ghost var expected := seq(|contexts|, i requires 0 <= i < |contexts| => FromContext(contexts[i], d))
                          + seq(|jsonStatuses|, i requires 0 <= i < |jsonStatuses| => FromJson(jsonStatuses[i], d));
    assert statuses == expected;
    var changedFiles: seq<string> := [];
    var _ := changedFiles + pullFiles;
    requests, wrongStates := PostStatuses(statuses, headSha, changedFiles, glob);
  }

  /** The request list from status `i` on starts with that status's request, if any. */
  lemma GrantsStep(statuses: seq<Status>, i: nat, sha: string, changedFiles: seq<string>, glob: Glob)
    requires i < |statuses|
    ensures var s := statuses[i];
            Grants(statuses[i..], sha, changedFiles, glob)
            == (if Selected(s.ifInclude, s.ifNotInclude, changedFiles, glob) && ValidState(s.state) then [RequestFor(s, sha)] else [])
               + Grants(statuses[i + 1..], sha, changedFiles, glob)
  {
    assert statuses[i..][0] == statuses[i] && statuses[i..][1..] == statuses[i + 1..];
  }

  /** The rejected list from status `i` on starts with that status's context, if it is rejected. */
  lemma RejectedStep(statuses: seq<Status>, i: nat, changedFiles: seq<string>, glob: Glob)
    requires i < |statuses|
    ensures var s := statuses[i];
            Rejected(statuses[i..], changedFiles, glob)
            == (if Selected(s.ifInclude, s.ifNotInclude, changedFiles, glob) && !ValidState(s.state) then [s.context] else [])
               + Rejected(statuses[i + 1..], changedFiles, glob)
  {
    assert statuses[i..][0] == statuses[i] && statuses[i..][1..] == statuses[i + 1..];
  }

  /** The loop of the handler: each selected status is posted when its state
      is valid and reported otherwise. */
  method PostStatuses(statuses: seq<Status>, headSha: string, changedFiles: seq<string>, glob: Glob)
    returns (requests: seq<StatusRequest>, wrongStates: seq<Option<string>>)
    ensures requests == Grants(statuses, headSha, changedFiles, glob)
    ensures wrongStates == Rejected(statuses, changedFiles, glob)
  {
    requests := [];
    wrongStates := [];
    for i := 0 to |statuses|
      invariant requests + Grants(statuses[i..], headSha, changedFiles, glob) == Grants(statuses, headSha, changedFiles, glob)
      invariant wrongStates + Rejected(statuses[i..], changedFiles, glob) == Rejected(statuses, changedFiles, glob)
    {
      var status := statuses[i];
      GrantsStep(statuses, i, headSha, changedFiles, glob);
      RejectedStep(statuses, i, changedFiles, glob);
      var matched := SelectionFlag(status.ifInclude, status.ifNotInclude, changedFiles, glob);
      if matched {
        if status.state == "pending" || status.state == "success" || status.state == "failure" {
          AppendAssoc(requests, [RequestFor(status, headSha)], Grants(statuses[i + 1..], headSha, changedFiles, glob));
          requests := requests + [StatusRequest(headSha, status.context, status.description, status.targetUrl, status.state)];
        } else {
          AppendAssoc(wrongStates, [status.context], Rejected(statuses[i + 1..], changedFiles, glob));
          wrongStates := wrongStates + [status.context];
        }
      }
    }
    assert statuses[|statuses|..] == [];
  }

  /** As the changed-file list stays empty, statuses that all have only an
      `if_include` list post nothing. */
  lemma IncludeOnlyNeverPosted(statuses: seq<Status>, sha: string, glob: Glob)
    requires forall s :: s in statuses ==> |s.ifInclude| != 0 && |s.ifNotInclude| == 0
    ensures Grants(statuses, sha, [], glob) == []
  {
    GrantsMembers(statuses, sha, [], glob);
    forall s | s in statuses
      ensures !Selected(s.ifInclude, s.ifNotInclude, [], glob)
    {
      SelectedWithoutChangedFiles(s.ifInclude, s.ifNotInclude, glob);
    }
    if Grants(statuses, sha, [], glob) != [] {
      assert Grants(statuses, sha, [], glob)[0] in Grants(statuses, sha, [], glob);
    }
  }

  /** A status with an `if_not_include` list and a valid state is always posted. */
  lemma NotIncludeAlwaysPosted(statuses: seq<Status>, sha: string, glob: Glob, s: Status)
    requires s in statuses && |s.ifNotInclude| != 0 && ValidState(s.state)
    ensures RequestFor(s, sha) in Grants(statuses, sha, [], glob)
  {
    GrantsMembers(statuses, sha, [], glob);
    SelectedWithoutChangedFiles(s.ifInclude, s.ifNotInclude, glob);
  }
}
