/**
 * src/github-helper.ts: the repository-level permission check, the client
 * wrapper around the GitHub REST API, and the selection of workflows and
 * workflow runs. The REST transport is not modelled: the client records each
 * write request it sends, in order, and keeps the comment bodies it has
 * written; what a read request returns is an input.
 */
module GitHub {
  import opened Wrappers
  import opened Utils

  /* ---------------------------------------------------------------------- */
  /* containPermission                                                       */
  /* ---------------------------------------------------------------------- */

  /** The four repository permission levels, lowest first. */
  const RepoLevels: seq<string> := ["none", "read", "write", "admin"]

  /** The frozen `permissionLevels` table of `containPermission`. Every other
      name reads as `undefined`; the names the table inherits from
      `Object.prototype` are not modelled. */
  function RepoLevel(p: string): Option<nat>
  {
    if p == "none" then Some(1)
    else if p == "read" then Some(2)
    else if p == "write" then Some(3)
    else if p == "admin" then Some(4)
    else None
  }

  /** `containPermission`: throws on an empty name, otherwise compares levels;
      a comparison that involves `undefined` is false. */
  function ContainPermission(userPermission: string, requiredPermission: string): (r: Result<bool, string>)
    ensures userPermission == "" ==> r == Failure("user permission is empty")
    ensures userPermission != "" && requiredPermission == "" ==> r == Failure("required permission is empty")
    ensures userPermission != "" && requiredPermission != "" ==>
              r.Success? && (r.value <==> exists i, j :: 0 <= j <= i < |RepoLevels| && RepoLevels[i] == userPermission
                                                                                 && RepoLevels[j] == requiredPermission)
  {
    if userPermission == "" then Failure("user permission is empty")
    else if requiredPermission == "" then Failure("required permission is empty")
    else
      var u := RepoLevel(userPermission);
      var q := RepoLevel(requiredPermission);
      assert forall k :: 0 <= k < |RepoLevels| ==> RepoLevel(RepoLevels[k]) == Some(k + 1);
      assert u.Some? ==> RepoLevels[u.value - 1] == userPermission;
      assert q.Some? ==> RepoLevels[q.value - 1] == requiredPermission;
      Success(u.Some? && q.Some? && u.value >= q.value)
  }

  /** Each of the four levels contains itself. */
  lemma ContainPermissionReflexive(p: string)
    requires p in RepoLevels
    ensures ContainPermission(p, p) == Success(true)
  {
    var i :| 0 <= i < |RepoLevels| && RepoLevels[i] == p;
    assert RepoLevels[i] == p;
  }

  /** Each level contains the one below it and not the one above it. */
  lemma {:induction false} RepoLevelsOrdered(k: nat)
    requires k + 1 < |RepoLevels|
    ensures ContainPermission(RepoLevels[k + 1], RepoLevels[k]) == Success(true)
    ensures ContainPermission(RepoLevels[k], RepoLevels[k + 1]) == Success(false)
  {
    assert RepoLevels[k + 1] == RepoLevels[k + 1] && RepoLevels[k] == RepoLevels[k];
  }

  /** A name outside the four levels, such as `triage` or `maintain`, on
      either side gives false. */
  lemma UnknownLevelDenies(userPermission: string, requiredPermission: string)
    requires userPermission != "" && requiredPermission != ""
    requires userPermission !in RepoLevels || requiredPermission !in RepoLevels
    ensures ContainPermission(userPermission, requiredPermission) == Success(false)
  {
  }

  /* ---------------------------------------------------------------------- */
  /* The client                                                              */
  /* ---------------------------------------------------------------------- */

  /** A write request sent to the REST API, named after its endpoint. */
  datatype Call =
    | ReactionsCreate(commentId: nat, content: string)
    | IssuesAddLabels(issueNumber: nat, labels: seq<string>)
    | IssuesRemoveLabel(issueNumber: nat, name: string)
    | IssuesAddAssignees(issueNumber: nat, assignees: seq<string>)
    | IssuesRemoveAssignees(issueNumber: nat, assignees: seq<string>)
    | PullsRequestReviewers(pullNumber: nat, reviewers: seq<string>)
    | PullsRemoveRequestedReviewers(pullNumber: nat, reviewers: seq<string>)
    | IssuesUpdate(issueNumber: nat, title: string, body: string)
    | IssuesUpdateComment(commentId: nat, body: string)
    | ReposCreateCommitStatus(sha: string, context: string, state: string, description: string, targetUrl: string)

  /** An issue as `getIssue` returns it; the body may be null. */
  datatype IssueData = IssueData(title: string, body: Option<string>)

  /** The comment bodies after a series of requests: each comment update
      replaces that comment's body. */
  function ApplyCalls(comments: map<nat, string>, calls: seq<Call>): map<nat, string>
    decreases |calls|
  {
    if calls == [] then comments
    else
      var c := calls[|calls| - 1];
      var before := ApplyCalls(comments, calls[..|calls| - 1]);
      if c.IssuesUpdateComment? then before[c.commentId := c.body] else before
  }

  lemma {:induction false} ApplyCallsAppend(comments: map<nat, string>, calls: seq<Call>, more: seq<Call>)
    ensures ApplyCalls(comments, calls + more) == ApplyCalls(ApplyCalls(comments, calls), more)
    decreases |more|
  {
    if more != [] {
      assert (calls + more)[..|calls + more| - 1] == calls + more[..|more| - 1];
      ApplyCallsAppend(comments, calls, more[..|more| - 1]);
    } else {
      assert calls + more == calls;
    }
  }

  /** `GitHubHelper`: every method that writes sends one request and records
      it; the comment bodies on the server follow from the requests sent. */
  class GitHubHelper {
    /** The comment bodies on the server before any request, by comment id. */
    const initialComments: map<nat, string>
    /** The write requests sent so far, oldest first. */
    var calls: seq<Call>

    /** The comment bodies on the server now. */
    function Comments(): map<nat, string>
      reads this
    {
      ApplyCalls(initialComments, calls)
    }

    constructor(comments: map<nat, string>)
      ensures initialComments == comments && calls == []
      ensures Comments() == comments
    {
      initialComments := comments;
      calls := [];
    }

    /** Records one request that is not a comment update. */
    method Send(c: Call)
      requires !c.IssuesUpdateComment?
      modifies this
      ensures calls == old(calls) + [c]
      ensures Comments() == old(Comments())
    {
      calls := calls + [c];
      assert calls[..|calls| - 1] == old(calls);
    }

    method AddReaction(commentId: nat, reaction: string)
      modifies this
      ensures calls == old(calls) + [ReactionsCreate(commentId, reaction)]
    {
      Send(ReactionsCreate(commentId, reaction));
    }

    method AddLabel(issueNumber: nat, name: string)
      modifies this
      ensures calls == old(calls) + [IssuesAddLabels(issueNumber, [name])]
    {
      Send(IssuesAddLabels(issueNumber, [name]));
    }

    method RemoveLabel(issueNumber: nat, name: string)
      modifies this
      ensures calls == old(calls) + [IssuesRemoveLabel(issueNumber, name)]
    {
      Send(IssuesRemoveLabel(issueNumber, name));
    }

    method AddAssignee(issueNumber: nat, assignee: string)
      modifies this
      ensures calls == old(calls) + [IssuesAddAssignees(issueNumber, [assignee])]
    {
      Send(IssuesAddAssignees(issueNumber, [assignee]));
    }

    method RemoveAssignee(issueNumber: nat, assignee: string)
      modifies this
      ensures calls == old(calls) + [IssuesRemoveAssignees(issueNumber, [assignee])]
    {
      Send(IssuesRemoveAssignees(issueNumber, [assignee]));
    }

    method AddReviewer(issueNumber: nat, reviewer: string)
      modifies this
      ensures calls == old(calls) + [PullsRequestReviewers(issueNumber, [reviewer])]
    {
      Send(PullsRequestReviewers(issueNumber, [reviewer]));
    }

    method RemoveReviewer(issueNumber: nat, reviewer: string)
      modifies this
      ensures calls == old(calls) + [PullsRemoveRequestedReviewers(issueNumber, [reviewer])]
    {
      Send(PullsRemoveRequestedReviewers(issueNumber, [reviewer]));
    }

    method UpdateIssue(issueNumber: nat, title: string, body: string)
      modifies this
      ensures calls == old(calls) + [IssuesUpdate(issueNumber, title, body)]
    {
      Send(IssuesUpdate(issueNumber, title, body));
    }

    method UpdateComment(commentId: nat, body: string)
      modifies this
      ensures calls == old(calls) + [IssuesUpdateComment(commentId, body)]
      ensures Comments() == old(Comments())[commentId := body]
    {
      calls := calls + [IssuesUpdateComment(commentId, body)];
      assert calls[..|calls| - 1] == old(calls);
    }

    /** `suffixComment`: writes and returns the old body, a newline and the suffix. */
    method SuffixComment(commentId: nat, oldBody: string, suffix: string) returns (newBody: string)
      modifies this
      ensures newBody == oldBody + "\n" + suffix
      ensures calls == old(calls) + [IssuesUpdateComment(commentId, newBody)]
      ensures Comments() == old(Comments())[commentId := newBody]
    {
      newBody := oldBody + "\n" + suffix;
      UpdateComment(commentId, newBody);
    }

    /** `getComment`: the body of an existing comment; an unknown id fails. */
    method GetComment(commentId: nat) returns (r: Result<string, string>)
      ensures r.Success? <==> commentId in Comments()
      ensures r.Success? ==> r.value == Comments()[commentId]
      ensures r.Failure? ==> r.error == "Not Found"
    {
      var comments := Comments();
      if commentId in comments {
        r := Success(comments[commentId]);
      } else {
        r := Failure("Not Found");
      }
    }

    method CreateCommitStatus(sha: string, name: string, state: string, description: string, targetUrl: string)
      modifies this
      ensures calls == old(calls) + [ReposCreateCommitStatus(sha, name, state, description, targetUrl)]
      ensures Comments() == old(Comments())
    {
      Send(ReposCreateCommitStatus(sha, name, state, description, targetUrl));
    }
  }

  /** Suffixing twice leaves the comment holding the original body followed by
      both suffixes, each on its own line. */
  lemma SuffixTwice(comments: map<nat, string>, id: nat, body: string, s1: string, s2: string)
    ensures var first := body + "\n" + s1;
            var calls := [IssuesUpdateComment(id, first), IssuesUpdateComment(id, first + "\n" + s2)];
            id in ApplyCalls(comments, calls)
            && ApplyCalls(comments, calls)[id] == body + "\n" + s1 + "\n" + s2
  {
    var first := body + "\n" + s1;
    var calls := [IssuesUpdateComment(id, first), IssuesUpdateComment(id, first + "\n" + s2)];
    assert calls[..1][..0] == [];
    assert calls[..1] == [IssuesUpdateComment(id, first)];
  }

  /* ---------------------------------------------------------------------- */
  /* Workflows and workflow runs                                             */
  /* ---------------------------------------------------------------------- */

  datatype Workflow = Workflow(id: nat, name: string)

  /** `createdAt` is `new Date(created_at).valueOf()`, in milliseconds. */
  datatype WorkflowRun = WorkflowRun(id: nat, createdAt: int)

  function WorkflowsNamed(workflows: seq<Workflow>, name: string): (r: seq<Workflow>)
    ensures |r| <= |workflows|
    ensures forall w :: w in r <==> w in workflows && w.name == name
    decreases |workflows|
  {
    if workflows == [] then []
    else
      var rest := WorkflowsNamed(workflows[1..], name);
      assert workflows == [workflows[0]] + workflows[1..];
      if workflows[0].name == name then [workflows[0]] + rest else rest
  }

  /** `getWorkflowWithName` over the listed workflows: the one workflow with
      that name; none, or more than one, fails. */
  function GetWorkflowWithName(workflows: seq<Workflow>, name: string): (r: Result<Workflow, string>)
    ensures r.Success? <==> |WorkflowsNamed(workflows, name)| == 1
    ensures r.Success? ==> r.value in workflows && r.value.name == name
                           && forall w :: w in workflows && w.name == name ==> w == r.value
    ensures (forall w :: w in workflows ==> w.name != name) ==> r.Failure?
  {
    var filtered := WorkflowsNamed(workflows, name);
    if |filtered| == 0 then Failure("Cannot find any workflows with name '" + name + "'")
    else if |filtered| > 1 then Failure("Found more than 1 workflows with name '" + name + "'")
    else
      assert filtered[0] in filtered;
      Success(filtered[0])
  }

  /** The runs created at or after the cutoff, in listing order. */
  function RunsCreatedSince(runs: seq<WorkflowRun>, createdAt: int): (r: seq<WorkflowRun>)
    ensures forall x :: x in r <==> x in runs && x.createdAt >= createdAt
    decreases |runs|
  {
    if runs == [] then []
    else
      var rest := RunsCreatedSince(runs[1..], createdAt);
      assert runs == [runs[0]] + runs[1..];
      if runs[0].createdAt >= createdAt then [runs[0]] + rest else rest
  }

  /** The first run kept is the first run of the listing that is recent enough. */
  lemma {:induction false} RunsCreatedSinceFirst(runs: seq<WorkflowRun>, createdAt: int)
    requires RunsCreatedSince(runs, createdAt) != []
    ensures exists i :: 0 <= i < |runs| && runs[i] == RunsCreatedSince(runs, createdAt)[0]
                        && (forall k :: 0 <= k < i ==> runs[k].createdAt < createdAt)
    decreases |runs|
  {
    if runs[0].createdAt >= createdAt {
      assert runs[0] == RunsCreatedSince(runs, createdAt)[0];
    } else {
      var rest := RunsCreatedSince(runs[1..], createdAt);
      assert rest == RunsCreatedSince(runs, createdAt);
      RunsCreatedSinceFirst(runs[1..], createdAt);
      var i :| 0 <= i < |runs[1..]| && runs[1..][i] == rest[0]
               && (forall k :: 0 <= k < i ==> runs[1..][k].createdAt < createdAt);
      assert runs[i + 1] == rest[0];
      assert forall k :: 1 <= k < i + 1 ==> runs[k] == runs[1..][k - 1];
    }
  }

  /** `getWorkflowRunAfterTime` over one listing (or the listing's failure):
      the first run, in listing order, created at or after the cutoff. */
  function GetWorkflowRunAfterTime(listing: Result<seq<WorkflowRun>, string>, createdAt: int): (r: Result<WorkflowRun, string>)
    ensures listing.Failure? ==> r.Failure?
    ensures listing.Success? ==>
              (r.Success? <==> exists x :: x in listing.value && x.createdAt >= createdAt)
    ensures r.Success? ==> exists i :: 0 <= i < |listing.value| && listing.value[i] == r.value
                                       && createdAt <= r.value.createdAt
                                       && (forall k :: 0 <= k < i ==> listing.value[k].createdAt < createdAt)
  {
    match listing
    case Failure(e) => Failure(e)
    case Success(runs) =>
      var filtered := RunsCreatedSince(runs, createdAt);
      if |filtered| == 0 then Failure("No workflow run found")
      else
        assert filtered[0] in filtered;
        RunsCreatedSinceFirst(runs, createdAt);
        Success(filtered[0])
  }

  /** Whether the do-while loop stops after poll `j`. */
  predicate StopsAt(start: int, timeoutSeconds: int, createdAt: int,
                    polls: seq<Result<seq<WorkflowRun>, string>>, clock: seq<int>, j: nat)
    requires j < |polls| && j < |clock|
  {
    GetWorkflowRunAfterTime(polls[j], createdAt).Success? || IsTimeout(start, timeoutSeconds, clock[j])
  }

  /** `waitUntilWorkflowRunAfterTimeFound`. Iteration `j` sleeps, then polls and
      gets `polls[j]` (a failed poll is swallowed); `clock[j]` is the clock
      reading when the loop condition is next evaluated. The loop runs at least
      once and stops at the first iteration that found a run or found the
      time out; the run, or none, is returned. The sequences must reach that
      iteration. */
  method WaitUntilWorkflowRunAfterTimeFound(start: int, timeoutSeconds: int, createdAt: int,
                                            polls: seq<Result<seq<WorkflowRun>, string>>, clock: seq<int>)
    returns (run: Option<WorkflowRun>, iterations: nat)
    requires |clock| == |polls|
    requires exists j :: 0 <= j < |polls| && StopsAt(start, timeoutSeconds, createdAt, polls, clock, j)
    ensures 1 <= iterations <= |polls|
    ensures StopsAt(start, timeoutSeconds, createdAt, polls, clock, iterations - 1)
    ensures forall k :: 0 <= k < iterations - 1 ==> !StopsAt(start, timeoutSeconds, createdAt, polls, clock, k)
    ensures run.Some? <==> GetWorkflowRunAfterTime(polls[iterations - 1], createdAt).Success?
    ensures run.Some? ==> run.value == GetWorkflowRunAfterTime(polls[iterations - 1], createdAt).value
    ensures run.None? ==> IsTimeout(start, timeoutSeconds, clock[iterations - 1])
  {
    run := None;
    iterations := 0;
    var now := start;
    while true
      invariant iterations <= |polls|
      invariant run.None?
      invariant forall k :: 0 <= k < iterations ==> !StopsAt(start, timeoutSeconds, createdAt, polls, clock, k)
      decreases |polls| - iterations
    {
      if iterations == |polls| {
        assert false;
      }
      var found := GetWorkflowRunAfterTime(polls[iterations], createdAt);
      if found.Success? {
        run := Some(found.value);
      }
      now := clock[iterations];
      iterations := iterations + 1;
      if !(run.None? && !IsTimeout(start, timeoutSeconds, now)) {
        return;
      }
    }
  }
}
