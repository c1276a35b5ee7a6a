/**
 * src/index.ts, `handleWorkflowRun`: when a workflow run completes, the
 * pending commit status that the slash command left on the head commit is
 * replaced by the run's result, and the comment that triggered the run, whose
 * id the pending status carries in its description, gets a completion note.
 * The combined commit status of the head commit, which the client reads, is a
 * parameter.
 */
module WorkflowRunHandler {
  import opened Wrappers
  import opened Strings
  import opened GitHub
  import opened Seqs

  /** One entry of the combined commit status of a commit. */
  datatype CommitStatus = CommitStatus(context: string, description: string, targetUrl: string)

  /** The part of the `workflow_run` event payload that is read. */
  datatype WorkflowRunEvent = WorkflowRunEvent(runId: nat, workflowName: string, headSha: string, conclusion: Option<string>)

  datatype Outcome =
    | NoStatus                  // no status with the workflow's name: logged and skipped
    | Failed(message: string)   // `core.setFailed`
    | NoTriggerComment          // the status names no comment: logged and skipped
    | Threw(message: string)    // an exception, reported through `core.setFailed`
    | Done

  /** The requests sent, and how the handler ends. */
  datatype Completion = Completion(calls: seq<Call>, outcome: Outcome)

  /** `statuses.filter(s => s.context === workflowName)`. */
  function StatusesFor(statuses: seq<CommitStatus>, context: string): (r: seq<CommitStatus>)
    ensures |r| <= |statuses|
    ensures forall s :: s in r <==> s in statuses && s.context == context
    decreases |statuses|
  {
    if statuses == [] then []
    else
      var rest := StatusesFor(statuses[1..], context);
      assert statuses == [statuses[0]] + statuses[1..];
      if statuses[0].context == context then [statuses[0]] + rest else rest
  }

  /** The new state of the status: only a successful run is a success. */
  function StatusState(conclusion: Option<string>): (r: string)
    ensures r == "success" || r == "failure"
    ensures r == "success" <==> conclusion == Some("success")
  {
    if conclusion == Some("success") then "success" else "failure"
  }

  /** The conclusions that have a description of their own. */
  const KnownConclusions: seq<string> := ["success", "failure", "cancelled", "timed_out", "stale", "action_required"]

  const UnrecognizedPrefix: string := "Workflow run have completed with unrecognized conclusion "

  /** The description of the new status, by conclusion. */
  function ConclusionDescription(conclusion: Option<string>): string
  {
    if conclusion == Some("success") then "Workflow run have finished successfully"
    else if conclusion == Some("failure") then "Workflow run have finished with failure"
    else if conclusion == Some("cancelled") then "Workflow run have been canceled"
    else if conclusion == Some("timed_out") then "Workflow run have timed out"
    else if conclusion == Some("stale") then "Workflow run is stale"
    else if conclusion == Some("action_required") then "Workflow run have completed with action required"
    else UnrecognizedPrefix + JsText(conclusion)
  }

  /** The text before the comment id in the description of a pending status. */
  const TriggerPrefix: string := "Workflow run was triggered by slash command in comment "

  /** The description that the slash-command pipeline gives the pending
      status of a workflow run it dispatched from comment `commentId`. */
  function TriggerDescription(commentId: nat): string
  {
    TriggerPrefix + NatToString(commentId)
  }

  /** The regex `Workflow run was triggered by slash command in comment (\d+)`
      matches at `j`. */
  predicate TriggerAt(s: string, j: nat)
  {
    OccursAt(s, TriggerPrefix, j) && j + |TriggerPrefix| < |s| && IsDigit(s[j + |TriggerPrefix|])
  }

  /** The leftmost match at or after `i`. */
  function FindTrigger(s: string, i: nat): (r: Option<nat>)
    ensures r.Some? ==> i <= r.value && TriggerAt(s, r.value)
    ensures r.Some? ==> forall j :: i <= j < r.value ==> !TriggerAt(s, j)
    ensures r.None? ==> forall j :: i <= j ==> !TriggerAt(s, j)
    decreases |s| - i
  {
    if i >= |s| then None
    else if TriggerAt(s, i) then Some(i)
    else FindTrigger(s, i + 1)
  }

  /** The end of the greedy `\d+` run that starts at `i`. */
  function DigitRunEnd(s: string, i: nat): (e: nat)
    requires i <= |s|
    ensures i <= e <= |s|
    ensures forall k :: i <= k < e ==> IsDigit(s[k])
    ensures e < |s| ==> !IsDigit(s[e])
    decreases |s| - i
  {
    if i == |s| || !IsDigit(s[i]) then i else DigitRunEnd(s, i + 1)
  }

  /** The comment id captured from a status description, read with `parseInt`;
      none when the regex does not match. */
  function ExtractCommentId(description: string): (r: Option<nat>)
    ensures r.Some? <==> exists j: nat :: TriggerAt(description, j)
  {
    match FindTrigger(description, 0)
    case None => None
    case Some(j) =>
      var k := j + |TriggerPrefix|;
      var e := DigitRunEnd(description, k);
      assert AllDigits(description[k..e]);
      Some(DigitsValue(description[k..e]))
  }

  /** The note appended to the triggering comment. */
  function CompletionNote(ev: WorkflowRunEvent): string
  {
    ">Workflow run completed: run id = " + NatToString(ev.runId) + ", conclusion = " + JsText(ev.conclusion)
  }

  function AmbiguityMessage(ev: WorkflowRunEvent, count: nat): string
  {
    "Found more than 1 (actually " + NatToString(count) + ") with context " + ev.workflowName
    + " on SHA " + ev.headSha + " (head SHA for workflow run " + NatToString(ev.runId) + ")"
  }

  /** What `handleWorkflowRun` does, given the head commit's statuses and the
      comment bodies on the server. */
  function CompletionRun(ev: WorkflowRunEvent, statuses: seq<CommitStatus>, comments: map<nat, string>): Completion
  {
    var matching := StatusesFor(statuses, ev.workflowName);
    if |matching| == 0 then Completion([], NoStatus)
    else if |matching| > 1 then Completion([], Failed(AmbiguityMessage(ev, |matching|)))
    else
      var status := matching[0];
      var post := ReposCreateCommitStatus(ev.headSha, ev.workflowName, StatusState(ev.conclusion),
                                          ConclusionDescription(ev.conclusion), status.targetUrl);
      var note := NoteRun(ev, status.description, comments);
      Completion([post] + note.calls, note.outcome)
  }

  /** The part after the new status: the completion note on the comment that
      the old status's description names. */
  function NoteRun(ev: WorkflowRunEvent, description: string, comments: map<nat, string>): Completion
  {
    match ExtractCommentId(description)
    case None => Completion([], NoTriggerComment)
    case Some(id) =>
      if id !in comments then Completion([], Threw("Not Found"))
      else Completion([IssuesUpdateComment(id, comments[id] + "\n" + CompletionNote(ev))], Done)
  }

  /** `handleWorkflowRun`, against the client. */
  method HandleWorkflowRun(helper: GitHubHelper, ev: WorkflowRunEvent, statuses: seq<CommitStatus>)
    returns (outcome: Outcome)
    modifies helper
    ensures helper.calls == old(helper.calls) + CompletionRun(ev, statuses, old(helper.Comments())).calls
    ensures outcome == CompletionRun(ev, statuses, old(helper.Comments())).outcome
  {
    var matching := StatusesFor(statuses, ev.workflowName);
    if |matching| == 0 {
      return NoStatus;
    }
    if |matching| > 1 {
      return Failed(AmbiguityMessage(ev, |matching|));
    }
    var status := matching[0];
    var state := StatusState(ev.conclusion);
    var description := ConclusionDescription(ev.conclusion);
    helper.CreateCommitStatus(ev.headSha, ev.workflowName, state, description, status.targetUrl);
    outcome := NoteTriggerComment(helper, ev, status.description);
    AppendAssoc(old(helper.calls), [ReposCreateCommitStatus(ev.headSha, ev.workflowName, state, description, status.targetUrl)],
                NoteRun(ev, status.description, old(helper.Comments())).calls);
  }

  /** The part after the new status, against the client. */
  method NoteTriggerComment(helper: GitHubHelper, ev: WorkflowRunEvent, description: string) returns (outcome: Outcome)
    modifies helper
    ensures helper.calls == old(helper.calls) + NoteRun(ev, description, old(helper.Comments())).calls
    ensures outcome == NoteRun(ev, description, old(helper.Comments())).outcome
  {
    var commentId := ExtractCommentId(description);
    if commentId.None? {
      return NoTriggerComment;
    }
    var commentData := helper.GetComment(commentId.value);
    if commentData.Failure? {
      return Threw(commentData.error);
    }
    var _ := helper.SuffixComment(commentId.value, commentData.value, CompletionNote(ev));
    return Done;
  }

  /* ---- properties ---- */

  /** A known conclusion's description is shorter than the unrecognized prefix. */
  lemma KnownDescriptionShort(c: Option<string>)
    requires c.Some? && c.value in KnownConclusions
    ensures |ConclusionDescription(c)| < |UnrecognizedPrefix|
  {
  }

  /** The six known descriptions differ: five have lengths of their own, and
      the two of length 39 differ at index 27. */
  lemma KnownDescriptionsDiffer(c1: Option<string>, c2: Option<string>)
    requires c1.Some? && c1.value in KnownConclusions && c2.Some? && c2.value in KnownConclusions
    requires ConclusionDescription(c1) == ConclusionDescription(c2)
    ensures c1 == c2
  {
    var d := ConclusionDescription(c1);
    if |d| == 39 {
      assert c1 == Some("success") <==> d[27] == 's';
      assert c2 == Some("success") <==> d[27] == 's';
    }
  }

  /** Two runs get the same description only when their conclusions print the
      same; a null conclusion and the text "null" are the one collision. */
  lemma ConclusionDescriptionDistinguishes(c1: Option<string>, c2: Option<string>)
    requires ConclusionDescription(c1) == ConclusionDescription(c2)
    ensures JsText(c1) == JsText(c2)
  {
    var d := ConclusionDescription(c1);
    var known1 := c1.Some? && c1.value in KnownConclusions;
    var known2 := c2.Some? && c2.value in KnownConclusions;
    if known1 && !known2 {
      KnownDescriptionShort(c1);
    } else if !known1 && known2 {
      KnownDescriptionShort(c2);
    } else if known1 && known2 {
      KnownDescriptionsDiffer(c1, c2);
    } else {
      assert d == UnrecognizedPrefix + JsText(c1) == UnrecognizedPrefix + JsText(c2);
      assert JsText(c1) == d[|UnrecognizedPrefix|..] == JsText(c2);
    }
  }

  /** The pending status's description gives back the id of the comment that
      triggered the run, also when text that does not start with a digit
      follows it. */
  lemma TriggerRoundTrip(commentId: nat, rest: string)
    requires rest == [] || !IsDigit(rest[0])
    ensures ExtractCommentId(TriggerDescription(commentId) + rest) == Some(commentId)
  {
    var digits := NatToString(commentId);
    var s := TriggerDescription(commentId) + rest;
    var k := |TriggerPrefix|;
    assert s[..k] == TriggerPrefix;
    assert s[k..k + |digits|] == digits;
    assert TriggerAt(s, 0);
    assert FindTrigger(s, 0) == Some(0);
    var e := DigitRunEnd(s, k);
    assert e == k + |digits|;
    DigitsValueOfNatToString(commentId);
  }

  /** The requests sent: the new status, only when exactly one status has the
      workflow's name, with the workflow's name, the head commit and a state
      that is a success exactly when the run succeeded; then at most one
      comment update, to the comment the status description names. */
  lemma CompletionRequests(ev: WorkflowRunEvent, statuses: seq<CommitStatus>, comments: map<nat, string>)
    ensures var r := CompletionRun(ev, statuses, comments);
            && (r.calls == [] <==> |StatusesFor(statuses, ev.workflowName)| != 1)
            && |r.calls| <= 2
            && (r.calls != [] ==>
                  var status := StatusesFor(statuses, ev.workflowName)[0];
                  && status in statuses
                  && r.calls[0].ReposCreateCommitStatus?
                  && r.calls[0].sha == ev.headSha && r.calls[0].context == ev.workflowName
                  && r.calls[0].targetUrl == status.targetUrl
                  && (r.calls[0].state == "success" <==> ev.conclusion == Some("success")))
            && (|r.calls| == 2 ==>
                  var status := StatusesFor(statuses, ev.workflowName)[0];
                  && r.calls[1].IssuesUpdateComment?
                  && ExtractCommentId(status.description) == Some(r.calls[1].commentId))
  {
  }

  /** A run dispatched from a comment that still exists ends with that
      comment holding its old body followed by the completion note. */
  lemma DispatchedRunNotesItsComment(ev: WorkflowRunEvent, statuses: seq<CommitStatus>, comments: map<nat, string>,
                                     commentId: nat, rest: string)
    requires |StatusesFor(statuses, ev.workflowName)| == 1
    requires StatusesFor(statuses, ev.workflowName)[0].description == TriggerDescription(commentId) + rest
    requires rest == [] || !IsDigit(rest[0])
    requires commentId in comments
    ensures CompletionRun(ev, statuses, comments).outcome == Done
    ensures var after := ApplyCalls(comments, CompletionRun(ev, statuses, comments).calls);
            commentId in after && after[commentId] == comments[commentId] + "\n" + CompletionNote(ev)
  {
    TriggerRoundTrip(commentId, rest);
    var r := CompletionRun(ev, statuses, comments);
    assert r.calls[..1][..0] == [];
    assert r.calls[..1] == [r.calls[0]];
  }
}
