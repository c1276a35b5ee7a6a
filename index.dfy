/**
 * src/index.ts: the slash-command pipeline run on an issue comment, and the
 * handling of a completed workflow run. The client is a `GitHubHelper`;
 * what its read requests return (the actor's permission, the issue, the
 * combined commit status) is a parameter.
 */
module Index {
  import opened Wrappers
  import opened Strings
  import opened CommandsHelper
  import opened InputsHelper
  import opened GitHub
  import opened Seqs

  /* ---------------------------------------------------------------------- */
  /* Issue comments                                                          */
  /* ---------------------------------------------------------------------- */

  /** The comment that triggered the run. */
  datatype IssueComment = IssueComment(issueNumber: nat, commentId: nat, body: string, isPullRequest: bool)

  /** How `handleIssueComment` ends. */
  datatype Outcome =
    | NotSlashCommand      // the first line is not a slash command
    | HelpPosted           // the help table was appended to the comment
    | NotRegistered        // no enabled command has that name
    | WrongIssueType       // none of them is configured for this kind of issue
    | NoPermission         // none of them is allowed for the actor
    | Failed(message: string)  // `core.setFailed`, then return
    | Threw(message: string)   // an exception leaves the handler
    | Done

  /** The requests sent, the comment body as last written, and how it ended. */
  datatype Run = Run(calls: seq<Call>, commentBody: string, outcome: Outcome)

  /** The text after the slash of a slash command: the first line (split at
      `\r?\n`) trimmed, when it has two characters or more and starts with '/'. */
  function CommandText(body: string): (r: Option<string>)
    ensures r.Some? ==> exists i :: 0 <= i < |r.value| && !IsSpace(r.value[i])
  {
    var line := Trim(FirstLine(body));
    if |line| < 2 || line[0] != '/' then None
    else
      assert line[1..][|line| - 2] == line[|line| - 1];
      Some(line[1..])
  }

  /** A slash command always has a first token. */
  lemma SlashCommandHasToken(body: string)
    requires CommandText(body).Some?
    ensures |Tokens(CommandText(body).value)| > 0
  {
    var t := CommandText(body).value;
    var i :| 0 <= i < |t| && !IsSpace(t[i]);
    NonBlankHasToken(t, i);
  }

  function Head(tokens: seq<string>): Option<string>
  {
    if |tokens| > 0 then Some(tokens[0]) else None
  }

  predicate FitsScope(cmd: Command, isPullRequest: bool)
  {
    cmd.issueType == "both" || (cmd.issueType == "issue" && !isPullRequest)
    || (cmd.issueType == "pull_request" && isPullRequest)
  }

  /** Stage 1: the enabled commands named by the first token (none when there
      is no token, as nothing equals `undefined`). */
  function NameStage(cmds: seq<Command>, head: Option<string>): (r: seq<Command>)
    ensures |r| <= |cmds|
    ensures forall c :: c in r <==> c in cmds && c.enable && head == Some(c.name)
    decreases |cmds|
  {
    if cmds == [] then []
    else
      var rest := NameStage(cmds[1..], head);
      assert cmds == [cmds[0]] + cmds[1..];
      if cmds[0].enable && head == Some(cmds[0].name) then [cmds[0]] + rest else rest
  }

  /** Stage 2 (and the help table's filter): the commands for this kind of issue. */
  function TypeStage(cmds: seq<Command>, isPullRequest: bool): (r: seq<Command>)
    ensures |r| <= |cmds|
    ensures forall c :: c in r <==> c in cmds && FitsScope(c, isPullRequest)
    decreases |cmds|
  {
    if cmds == [] then []
    else
      var rest := TypeStage(cmds[1..], isPullRequest);
      assert cmds == [cmds[0]] + cmds[1..];
      if FitsScope(cmds[0], isPullRequest) then [cmds[0]] + rest else rest
  }

  /** Stage 3: the commands the actor's permission contains. The filter's
      callback throws, and so does the stage, at the first command for which
      `containPermission` throws. */
  function PermissionStage(cmds: seq<Command>, actorPermission: string): (r: Result<seq<Command>, string>)
    ensures actorPermission == "" && cmds != [] ==> r == Failure("user permission is empty")
    ensures r.Success? ==> |r.value| <= |cmds|
    ensures r.Success? ==> forall c :: c in r.value <==> c in cmds && ContainPermission(actorPermission, c.permission) == Success(true)
    decreases |cmds|
  {
    if cmds == [] then Success([])
    else
      assert cmds == [cmds[0]] + cmds[1..];
      match ContainPermission(actorPermission, cmds[0].permission)
      case Failure(e) => Failure(e)
      case Success(keep) =>
        match PermissionStage(cmds[1..], actorPermission)
        case Failure(e) => Failure(e)
        case Success(rest) => Success(if keep then [cmds[0]] + rest else rest)
  }

  const HelpHeader: string := "\n> Command | Description\n> --- | ---\n>/help | Show this help message in comment\n"

  function HelpRow(cmd: Command): string
  {
    "> /" + cmd.name + " " + cmd.usage + " | " + cmd.help + "\n"
  }

  /** The rows of the given commands, in order. */
  function HelpRows(cmds: seq<Command>): string
    decreases |cmds|
  {
    if cmds == [] then "" else HelpRows(cmds[..|cmds| - 1]) + HelpRow(cmds[|cmds| - 1])
  }

  function HelpMessage(cmds: seq<Command>, isPullRequest: bool): string
  {
    HelpHeader + HelpRows(TypeStage(cmds, isPullRequest))
  }

  /** The help table ignores `enable`: it is the same whatever each command's flag. */
  lemma {:induction false} HelpIgnoresEnable(cmds: seq<Command>, flags: seq<bool>, isPullRequest: bool)
    requires |flags| == |cmds|
    ensures var toggled := seq(|cmds|, i requires 0 <= i < |cmds| => cmds[i].(enable := flags[i]));
            HelpMessage(toggled, isPullRequest) == HelpMessage(cmds, isPullRequest)
  {
    HelpRowsIgnoreEnable(cmds, flags, isPullRequest);
  }

  lemma {:induction false} HelpRowsIgnoreEnable(cmds: seq<Command>, flags: seq<bool>, isPullRequest: bool)
    requires |flags| == |cmds|
    ensures var toggled := seq(|cmds|, i requires 0 <= i < |cmds| => cmds[i].(enable := flags[i]));
            HelpRows(TypeStage(toggled, isPullRequest)) == HelpRows(TypeStage(cmds, isPullRequest))
    decreases |cmds|
  {
    var toggled := seq(|cmds|, i requires 0 <= i < |cmds| => cmds[i].(enable := flags[i]));
    if cmds != [] {
      var restToggled := seq(|cmds| - 1, i requires 0 <= i < |cmds| - 1 => cmds[1..][i].(enable := flags[1..][i]));
      assert toggled[1..] == restToggled;
      HelpRowsIgnoreEnable(cmds[1..], flags[1..], isPullRequest);
      var rest := TypeStage(cmds[1..], isPullRequest);
      assert HelpRows(TypeStage(restToggled, isPullRequest)) == HelpRows(rest);
      if FitsScope(cmds[0], isPullRequest) {
        assert TypeStage(cmds, isPullRequest) == [cmds[0]] + rest;
        assert TypeStage(toggled, isPullRequest) == [toggled[0]] + TypeStage(restToggled, isPullRequest);
        HelpRowsCons(cmds[0], rest);
        HelpRowsCons(toggled[0], TypeStage(restToggled, isPullRequest));
      } else {
        assert TypeStage(toggled, isPullRequest) == TypeStage(restToggled, isPullRequest);
      }
    }
  }

  lemma {:induction false} HelpRowsCons(cmd: Command, rest: seq<Command>)
    ensures HelpRows([cmd] + rest) == HelpRow(cmd) + HelpRows(rest)
    decreases |rest|
  {
    if rest == [] {
      assert ([cmd] + rest)[..0] == [];
    } else {
      var all := [cmd] + rest;
      var init := rest[..|rest| - 1];
      assert all[..|all| - 1] == [cmd] + init;
      assert all[|all| - 1] == rest[|rest| - 1];
      HelpRowsCons(cmd, init);
      assert HelpRows(all) == HelpRow(cmd) + HelpRows(init) + HelpRow(rest[|rest| - 1]);
      AppendAssoc(HelpRow(cmd), HelpRows(init), HelpRow(rest[|rest| - 1]));
    }
  }

  /** JavaScript truthiness of a format: set and not empty. */
  predicate Truthy(f: Option<string>)
  {
    f.Some? && f.value != ""
  }

  /** The six action blocks, in the order they run. */
  datatype ActionKind = AddLabel | RemoveLabel | AddAssignee | RemoveAssignee | AddReviewer | RemoveReviewer

  function ActionFormat(cmd: Command, kind: ActionKind): Option<string>
  {
    match kind
    case AddLabel => cmd.labelFormat
    case RemoveLabel => cmd.unlabelFormat
    case AddAssignee => cmd.assigneeFormat
    case RemoveAssignee => cmd.unassigneeFormat
    case AddReviewer => cmd.requestReviewerFormat
    case RemoveReviewer => cmd.unrequestReviewerFormat
  }

  function ActionRequest(kind: ActionKind, issueNumber: nat, text: string): Call
  {
    match kind
    case AddLabel => IssuesAddLabels(issueNumber, [text])
    case RemoveLabel => IssuesRemoveLabel(issueNumber, text)
    case AddAssignee => IssuesAddAssignees(issueNumber, [text])
    case RemoveAssignee => IssuesRemoveAssignees(issueNumber, [text])
    case AddReviewer => PullsRequestReviewers(issueNumber, [text])
    case RemoveReviewer => PullsRemoveRequestedReviewers(issueNumber, [text])
  }

  function AuditLine(kind: ActionKind, text: string): string
  {
    var what := match kind
      case AddLabel => "added label "
      case RemoveLabel => "removed label "
      case AddAssignee => "added assignee "
      case RemoveAssignee => "removed assignee "
      case AddReviewer => "added reviewer "
      case RemoveReviewer => "removed reviewer ";
    ">github-actions(bot): " + what + text
  }

  /** The requests sent for a list of comment bodies is an audit trail of the
      comment: every comment update is to that comment, and each body written
      extends `from` and is extended by every later one and by `to`. */
  predicate AuditTrail(calls: seq<Call>, commentId: nat, from: string, to: string)
  {
    from <= to
    && (forall k :: 0 <= k < |calls| && calls[k].IssuesUpdateComment? ==>
          calls[k].commentId == commentId && from <= calls[k].body <= to)
    && (forall k, l :: 0 <= k < l < |calls| && calls[k].IssuesUpdateComment? && calls[l].IssuesUpdateComment? ==>
          calls[k].body <= calls[l].body)
  }

  lemma PrefixTransitive(a: string, b: string, c: string)
    requires a <= b && b <= c
    ensures a <= c
  {
    assert forall i :: 0 <= i < |a| ==> a[i] == b[i] == c[i];
  }

  lemma AuditTrailAppend(c1: seq<Call>, c2: seq<Call>, commentId: nat, a: string, b: string, c: string)
    requires AuditTrail(c1, commentId, a, b) && AuditTrail(c2, commentId, b, c)
    ensures AuditTrail(c1 + c2, commentId, a, c)
  {
    var all := c1 + c2;
    PrefixTransitive(a, b, c);
    forall k | 0 <= k < |all| && all[k].IssuesUpdateComment?
      ensures all[k].commentId == commentId && a <= all[k].body <= c
    {
      if k < |c1| {
        PrefixTransitive(all[k].body, b, c);
      } else {
        assert all[k] == c2[k - |c1|];
        PrefixTransitive(a, b, all[k].body);
      }
    }
    forall k, l | 0 <= k < l < |all| && all[k].IssuesUpdateComment? && all[l].IssuesUpdateComment?
      ensures all[k].body <= all[l].body
    {
      if l < |c1| {
        assert all[k] == c1[k] && all[l] == c1[l];
      } else if k >= |c1| {
        assert all[k] == c2[k - |c1|] && all[l] == c2[l - |c1|];
      } else {
        assert all[k] == c1[k] && all[l] == c2[l - |c1|];
        PrefixTransitive(all[k].body, b, all[l].body);
      }
    }
  }

  /** One action block: when its format is truthy, the request with the
      formatted text, then the comment suffixed with the audit line. */
  function ActionStep(kind: ActionKind, cmd: Command, args: seq<string>, ev: IssueComment, body: string): (seq<Call>, string)
  {
    var f := ActionFormat(cmd, kind);
    if Truthy(f) then
      var text := Formatted(f.value, args, |args|);
      var newBody := body + "\n" + AuditLine(kind, text);
      ([ActionRequest(kind, ev.issueNumber, text), IssuesUpdateComment(ev.commentId, newBody)], newBody)
    else ([], body)
  }

  /** The six action blocks in their fixed order. */
  function Actions(cmd: Command, args: seq<string>, ev: IssueComment, body: string): (seq<Call>, string)
  {
    var s1 := ActionStep(AddLabel, cmd, args, ev, body);
    var s2 := ActionStep(RemoveLabel, cmd, args, ev, s1.1);
    var s3 := ActionStep(AddAssignee, cmd, args, ev, s2.1);
    var s4 := ActionStep(RemoveAssignee, cmd, args, ev, s3.1);
    var s5 := ActionStep(AddReviewer, cmd, args, ev, s4.1);
    var s6 := ActionStep(RemoveReviewer, cmd, args, ev, s5.1);
    (s1.0 + s2.0 + s3.0 + s4.0 + s5.0 + s6.0, s6.1)
  }

  function CountTruthy(fs: seq<Option<string>>): (n: nat)
    ensures n <= |fs|
    ensures n == 0 <==> forall i :: 0 <= i < |fs| ==> !Truthy(fs[i])
    decreases |fs|
  {
    if fs == [] then 0 else (if Truthy(fs[0]) then 1 else 0) + CountTruthy(fs[1..])
  }

  /** Counting four formats is adding up their truthiness. */
  lemma CountTruthyFour(a: Option<string>, b: Option<string>, c: Option<string>, d: Option<string>)
    ensures CountTruthy([a, b, c, d])
            == (if Truthy(a) then 1 else 0) + (if Truthy(b) then 1 else 0) + (if Truthy(c) then 1 else 0) + (if Truthy(d) then 1 else 0)
  {
    assert [d][1..] == [];
    assert CountTruthy([d]) == (if Truthy(d) then 1 else 0);
    assert [c, d][1..] == [d];
    assert CountTruthy([c, d]) == (if Truthy(c) then 1 else 0) + (if Truthy(d) then 1 else 0);
    assert [b, c, d][1..] == [c, d];
    assert CountTruthy([b, c, d]) == (if Truthy(b) then 1 else 0) + (if Truthy(c) then 1 else 0) + (if Truthy(d) then 1 else 0);
    assert [a, b, c, d][1..] == [b, c, d];
  }

  function TitleFormats(cmd: Command): seq<Option<string>>
  {
    [cmd.prefixIssueTitleFormat, cmd.suffixIssueTitleFormat, cmd.removeIssueTitleFormat, cmd.replaceIssueTitleFormat]
  }

  /** The formats counted as body updates, as written: the fourth is the title
      replacement, not the body replacement. */
  function CountedBodyFormats(cmd: Command): seq<Option<string>>
  {
    [cmd.prefixIssueBodyFormat, cmd.suffixIssueBodyFormat, cmd.removeIssueBodyFormat, cmd.replaceIssueTitleFormat]
  }

  predicate WantsIssueUpdate(cmd: Command)
  {
    Truthy(cmd.prefixIssueTitleFormat) || Truthy(cmd.suffixIssueTitleFormat)
    || Truthy(cmd.removeIssueTitleFormat) || Truthy(cmd.replaceIssueTitleFormat)
    || Truthy(cmd.prefixIssueBodyFormat) || Truthy(cmd.suffixIssueBodyFormat)
    || Truthy(cmd.removeIssueBodyFormat) || Truthy(cmd.replaceIssueBodyFormat)
  }

  function Apply(f: Option<string>, args: seq<string>): string
    requires f.Some?
  {
    Formatted(f.value, args, |args|)
  }

  /** The new title, before trimming. */
  function EditedTitle(cmd: Command, args: seq<string>, title: string): string
  {
    var t1 := if Truthy(cmd.prefixIssueTitleFormat) then Apply(cmd.prefixIssueTitleFormat, args) + " " + title else title;
    var t2 := if Truthy(cmd.suffixIssueTitleFormat) then t1 + " " + Apply(cmd.suffixIssueTitleFormat, args) else t1;
    var t3 := if Truthy(cmd.removeIssueTitleFormat) then ReplaceFirst(t2, Apply(cmd.removeIssueTitleFormat, args), "") else t2;
    if Truthy(cmd.replaceIssueTitleFormat) then Apply(cmd.replaceIssueTitleFormat, args) else t3
  }

  const NullReplaceError: string := "Cannot read properties of null (reading 'replace')"
  const NullTrimError: string := "Cannot read properties of null (reading 'trim')"

  /** The new body, trimmed; a null body that is never assigned a string makes
      `replace` or `trim` throw. */
  function EditedBody(cmd: Command, args: seq<string>, body: Option<string>): Result<string, string>
  {
    var b1 := if Truthy(cmd.prefixIssueBodyFormat) then Some(Apply(cmd.prefixIssueBodyFormat, args) + "\n" + JsText(body)) else body;
    var b2 := if Truthy(cmd.suffixIssueBodyFormat) then Some(JsText(b1) + "\n" + Apply(cmd.suffixIssueBodyFormat, args)) else b1;
    if Truthy(cmd.removeIssueBodyFormat) && b2.None? then Failure(NullReplaceError)
    else
      var b3 := if Truthy(cmd.removeIssueBodyFormat) then Some(ReplaceFirst(b2.value, Apply(cmd.removeIssueBodyFormat, args), "")) else b2;
      var b4 := if Truthy(cmd.replaceIssueBodyFormat) then Some(Apply(cmd.replaceIssueBodyFormat, args)) else b3;
      if b4.None? then Failure(NullTrimError) else Success(Trim(b4.value))
  }

  /** The issue-update block. */
  function IssueUpdate(cmd: Command, args: seq<string>, ev: IssueComment, issue: IssueData, body: string): Run
  {
    if !WantsIssueUpdate(cmd) then Run([], body, Done)
    else if CountTruthy(TitleFormats(cmd)) > 1 then
      Run([], body, Failed("configured more than 1 issue title updates in command " + cmd.name))
    else if CountTruthy(CountedBodyFormats(cmd)) > 1 then
      Run([], body, Failed("configured more than 1 issue body updates in command " + cmd.name))
    else
      match EditedBody(cmd, args, issue.body)
      case Failure(e) => Run([], body, Threw(e))
      case Success(newIssueBody) =>
        var newBody := body + "\n" + (">github-actions(bot): updated issue " + NatToString(ev.issueNumber));
        Run([IssuesUpdate(ev.issueNumber, Trim(EditedTitle(cmd, args, issue.title)), newIssueBody),
             IssuesUpdateComment(ev.commentId, newBody)], newBody, Done)
  }

  function ReactionCalls(config: CommandsConfig, ev: IssueComment): seq<Call>
  {
    if config.useReaction then [ReactionsCreate(ev.commentId, "eyes")] else []
  }

  /** The command once its checks have passed: the six action blocks, then
      the issue update. */
  function ExecuteRun(cmd: Command, args: seq<string>, ev: IssueComment, issue: IssueData): Run
  {
    var acts := Actions(cmd, args, ev, ev.body);
    var upd := IssueUpdate(cmd, args, ev, issue, acts.1);
    Run(acts.0 + upd.calls, upd.commentBody, upd.outcome)
  }

  function HelpRun(config: CommandsConfig, ev: IssueComment): Run
  {
    var newBody := ev.body + "\n" + HelpMessage(config.commands, ev.isPullRequest);
    Run([IssuesUpdateComment(ev.commentId, newBody)], newBody, HelpPosted)
  }

  function ArgumentCountMessage(cmd: Command, found: int): string
  {
    "Required number of argument for command " + cmd.name + " is " + IntToString(cmd.args) + ", found " + IntToString(found)
  }

  /** The stages after the reaction: the permission check, the ambiguity
      check, the argument count, then the command itself. */
  function CheckedRun(typed: seq<Command>, ev: IssueComment, tokens: seq<string>, actorPermission: string, issue: IssueData): Run
  {
    match PermissionStage(typed, actorPermission)
    case Failure(e) => Run([], ev.body, Threw(e))
    case Success(permitted) =>
      if |permitted| == 0 then Run([], ev.body, NoPermission)
      else if |permitted| > 1 then
        Run([], ev.body, Threw("More than 1 commands matched, maybe the configuration is wrong"))
      else if |tokens| - 1 != permitted[0].args then
        Run([], ev.body, Threw(ArgumentCountMessage(permitted[0], |tokens| - 1)))
      else ExecuteRun(permitted[0], if |tokens| > 0 then tokens[1..] else [], ev, issue)
  }

  /** The slash command with the given tokens. */
  function CommandRun(config: CommandsConfig, ev: IssueComment, tokens: seq<string>, actorPermission: string, issue: IssueData): Run
  {
    if Head(tokens) == Some("help") then HelpRun(config, ev)
    else
      var named := NameStage(config.commands, Head(tokens));
      var typed := TypeStage(named, ev.isPullRequest);
      if |named| == 0 then Run([], ev.body, NotRegistered)
      else if |typed| == 0 then Run([], ev.body, WrongIssueType)
      else
        var run := CheckedRun(typed, ev, tokens, actorPermission, issue);
        run.(calls := ReactionCalls(config, ev) + run.calls)
  }

  /** What `handleIssueComment` does, given the actor's permission and the
      issue as `getIssue` returns it. */
  function IssueCommentRun(config: CommandsConfig, ev: IssueComment, actorPermission: string, issue: IssueData): Run
  {
    match CommandText(ev.body)
    case None => Run([], ev.body, NotSlashCommand)
    case Some(text) => CommandRun(config, ev, Tokens(text), actorPermission, issue)
  }

  /* ---- the handler, step by step ---- */

  /** One action block, run against the client. */
  method PerformAction(helper: GitHubHelper, kind: ActionKind, cmd: Command, args: seq<string>, ev: IssueComment, commentBody: string)
    returns (newBody: string)
    modifies helper
    ensures helper.calls == old(helper.calls) + ActionStep(kind, cmd, args, ev, commentBody).0
    ensures newBody == ActionStep(kind, cmd, args, ev, commentBody).1
  {
    newBody := commentBody;
    var f := ActionFormat(cmd, kind);
    if f.Some? && f.value != "" {
      var text := FormatWithArguments(f.value, args);
      match kind {
        case AddLabel => helper.AddLabel(ev.issueNumber, text);
        case RemoveLabel => helper.RemoveLabel(ev.issueNumber, text);
        case AddAssignee => helper.AddAssignee(ev.issueNumber, text);
        case RemoveAssignee => helper.RemoveAssignee(ev.issueNumber, text);
        case AddReviewer => helper.AddReviewer(ev.issueNumber, text);
        case RemoveReviewer => helper.RemoveReviewer(ev.issueNumber, text);
      }
      newBody := helper.SuffixComment(ev.commentId, commentBody, AuditLine(kind, text));
    }
  }

  /** Formats a set format; the caller has checked that it is truthy. */
  method FormatSet(f: Option<string>, args: seq<string>) returns (r: string)
    requires f.Some?
    ensures r == Apply(f, args)
  {
    r := FormatWithArguments(f.value, args);
  }

  /** The new title, computed as the source does. */
  method ComputeTitle(cmd: Command, args: seq<string>, issueTitle: string) returns (title: string)
    ensures title == EditedTitle(cmd, args, issueTitle)
  {
    title := issueTitle;
    if Truthy(cmd.prefixIssueTitleFormat) {
      var f := FormatSet(cmd.prefixIssueTitleFormat, args);
      title := f + " " + title;
    }
    if Truthy(cmd.suffixIssueTitleFormat) {
      var f := FormatSet(cmd.suffixIssueTitleFormat, args);
      title := title + " " + f;
    }
    if Truthy(cmd.removeIssueTitleFormat) {
      var f := FormatSet(cmd.removeIssueTitleFormat, args);
      title := ReplaceFirst(title, f, "");
    }
    if Truthy(cmd.replaceIssueTitleFormat) {
      title := FormatSet(cmd.replaceIssueTitleFormat, args);
    }
  }

  /** The new body, computed as the source does; a failure is the TypeError. */
  method ComputeBody(cmd: Command, args: seq<string>, issueBody: Option<string>) returns (r: Result<string, string>)
    ensures r == EditedBody(cmd, args, issueBody)
  {
    var body := issueBody;
    if Truthy(cmd.prefixIssueBodyFormat) {
      var f := FormatSet(cmd.prefixIssueBodyFormat, args);
      body := Some(f + "\n" + JsText(body));
    }
    if Truthy(cmd.suffixIssueBodyFormat) {
      var f := FormatSet(cmd.suffixIssueBodyFormat, args);
      body := Some(JsText(body) + "\n" + f);
    }
    if Truthy(cmd.removeIssueBodyFormat) {
      if body.None? {
        return Failure(NullReplaceError);
      }
      var f := FormatSet(cmd.removeIssueBodyFormat, args);
      body := Some(ReplaceFirst(body.value, f, ""));
    }
    if Truthy(cmd.replaceIssueBodyFormat) {
      var f := FormatSet(cmd.replaceIssueBodyFormat, args);
      body := Some(f);
    }
    if body.None? {
      return Failure(NullTrimError);
    }
    return Success(Trim(body.value));
  }

  /** The issue-update block, run against the client. */
  method PerformIssueUpdate(helper: GitHubHelper, cmd: Command, args: seq<string>, ev: IssueComment, issue: IssueData, commentBody: string)
    returns (newBody: string, outcome: Outcome)
    modifies helper
    ensures helper.calls == old(helper.calls) + IssueUpdate(cmd, args, ev, issue, commentBody).calls
    ensures newBody == IssueUpdate(cmd, args, ev, issue, commentBody).commentBody
    ensures outcome == IssueUpdate(cmd, args, ev, issue, commentBody).outcome
  {
    newBody := commentBody;
    outcome := Done;
    if !WantsIssueUpdate(cmd) {
      return;
    }
    var numberOfTitleUpdates := CountTruthy(TitleFormats(cmd));
    var numberOfBodyUpdates := CountTruthy(CountedBodyFormats(cmd));
    if numberOfTitleUpdates > 1 {
      outcome := Failed("configured more than 1 issue title updates in command " + cmd.name);
      return;
    }
    if numberOfBodyUpdates > 1 {
      outcome := Failed("configured more than 1 issue body updates in command " + cmd.name);
      return;
    }
    var title := ComputeTitle(cmd, args, issue.title);
    var body := ComputeBody(cmd, args, issue.body);
    title := Trim(title);
    if body.Failure? {
      outcome := Threw(body.error);
      return;
    }
    ghost var c0 := helper.calls;
    helper.UpdateIssue(ev.issueNumber, title, body.value);
    newBody := helper.SuffixComment(ev.commentId, commentBody, ">github-actions(bot): updated issue " + NatToString(ev.issueNumber));
    AppendAssoc(c0, [IssuesUpdate(ev.issueNumber, title, body.value)], [IssuesUpdateComment(ev.commentId, newBody)]);
    assert [IssuesUpdate(ev.issueNumber, title, body.value)] + [IssuesUpdateComment(ev.commentId, newBody)]
           == IssueUpdate(cmd, args, ev, issue, commentBody).calls;
  }

  /** The six action blocks, run against the client in their fixed order. */
  method PerformActions(helper: GitHubHelper, cmd: Command, args: seq<string>, ev: IssueComment)
    returns (commentBody: string)
    modifies helper
    ensures helper.calls == old(helper.calls) + Actions(cmd, args, ev, ev.body).0
    ensures commentBody == Actions(cmd, args, ev, ev.body).1
  {
    ghost var s1 := ActionStep(AddLabel, cmd, args, ev, ev.body);
    ghost var s2 := ActionStep(RemoveLabel, cmd, args, ev, s1.1);
    ghost var s3 := ActionStep(AddAssignee, cmd, args, ev, s2.1);
    ghost var s4 := ActionStep(RemoveAssignee, cmd, args, ev, s3.1);
    ghost var s5 := ActionStep(AddReviewer, cmd, args, ev, s4.1);
    ghost var s6 := ActionStep(RemoveReviewer, cmd, args, ev, s5.1);
    commentBody := PerformAction(helper, AddLabel, cmd, args, ev, ev.body);
    commentBody := PerformAction(helper, RemoveLabel, cmd, args, ev, commentBody);
    commentBody := PerformAction(helper, AddAssignee, cmd, args, ev, commentBody);
    commentBody := PerformAction(helper, RemoveAssignee, cmd, args, ev, commentBody);
    commentBody := PerformAction(helper, AddReviewer, cmd, args, ev, commentBody);
    commentBody := PerformAction(helper, RemoveReviewer, cmd, args, ev, commentBody);
    ghost var c0 := old(helper.calls);
    AppendAssoc(c0, s1.0, s2.0);
    AppendAssoc(c0, s1.0 + s2.0, s3.0);
    AppendAssoc(c0, s1.0 + s2.0 + s3.0, s4.0);
    AppendAssoc(c0, s1.0 + s2.0 + s3.0 + s4.0, s5.0);
    AppendAssoc(c0, s1.0 + s2.0 + s3.0 + s4.0 + s5.0, s6.0);
  }

  /** The checked command: the action blocks, then the issue update. */
  method Execute(helper: GitHubHelper, cmd: Command, args: seq<string>, ev: IssueComment, issue: IssueData)
    returns (outcome: Outcome)
    modifies helper
    ensures helper.calls == old(helper.calls) + ExecuteRun(cmd, args, ev, issue).calls
    ensures outcome == ExecuteRun(cmd, args, ev, issue).outcome
  {
    ghost var acts := Actions(cmd, args, ev, ev.body);
    ghost var upd := IssueUpdate(cmd, args, ev, issue, acts.1);
    var commentBody := PerformActions(helper, cmd, args, ev);
    commentBody, outcome := PerformIssueUpdate(helper, cmd, args, ev, issue, commentBody);
    assert helper.calls == old(helper.calls) + acts.0 + upd.calls;
    AppendAssoc(old(helper.calls), acts.0, upd.calls);
  }

  /** The help branch: the table of the commands for this kind of issue. */
  method PostHelp(helper: GitHubHelper, config: CommandsConfig, ev: IssueComment) returns (outcome: Outcome)
    modifies helper
    ensures helper.calls == old(helper.calls) + HelpRun(config, ev).calls
    ensures outcome == HelpRun(config, ev).outcome
  {
    var helpMessage := HelpHeader;
    var commandMatches := TypeStage(config.commands, ev.isPullRequest);
    for i := 0 to |commandMatches|
      invariant helpMessage == HelpHeader + HelpRows(commandMatches[..i])
      invariant helper.calls == old(helper.calls)
    {
      assert commandMatches[..i + 1][..i] == commandMatches[..i];
      assert HelpRows(commandMatches[..i + 1]) == HelpRows(commandMatches[..i]) + HelpRow(commandMatches[i]);
      AppendAssoc(HelpHeader, HelpRows(commandMatches[..i]), HelpRow(commandMatches[i]));
      helpMessage := helpMessage + HelpRow(commandMatches[i]);
    }
    assert commandMatches[..|commandMatches|] == commandMatches;
    assert helpMessage == HelpMessage(config.commands, ev.isPullRequest);
    var newBody := helper.SuffixComment(ev.commentId, ev.body, helpMessage);
    assert [IssuesUpdateComment(ev.commentId, newBody)] == HelpRun(config, ev).calls;
    return HelpPosted;
  }

  /** The stages after the reaction, run against the client. */
  method RunChecked(helper: GitHubHelper, commandMatches: seq<Command>, ev: IssueComment, commandTokens: seq<string>,
                    actorPermission: string, issue: IssueData)
    returns (outcome: Outcome)
    modifies helper
    ensures helper.calls == old(helper.calls) + CheckedRun(commandMatches, ev, commandTokens, actorPermission, issue).calls
    ensures outcome == CheckedRun(commandMatches, ev, commandTokens, actorPermission, issue).outcome
  {
    var permitted := PermissionStage(commandMatches, actorPermission);
    if permitted.Failure? {
      return Threw(permitted.error);
    }
    var cmds := permitted.value;
    if |cmds| == 0 {
      return NoPermission;
    }
    if |cmds| > 1 {
      return Threw("More than 1 commands matched, maybe the configuration is wrong");
    }
    var cmd := cmds[0];
    if |commandTokens| - 1 != cmd.args {
      return Threw(ArgumentCountMessage(cmd, |commandTokens| - 1));
    }
    var args := if |commandTokens| > 0 then commandTokens[1..] else [];
    outcome := Execute(helper, cmd, args, ev, issue);
  }

  /** The stages after tokenising. */
  method RunCommand(helper: GitHubHelper, config: CommandsConfig, ev: IssueComment, commandTokens: seq<string>,
                    actorPermission: string, issue: IssueData)
    returns (outcome: Outcome)
    modifies helper
    ensures helper.calls == old(helper.calls) + CommandRun(config, ev, commandTokens, actorPermission, issue).calls
    ensures outcome == CommandRun(config, ev, commandTokens, actorPermission, issue).outcome
  {
    var head := if |commandTokens| > 0 then Some(commandTokens[0]) else None;
    assert head == Head(commandTokens);
    if head == Some("help") {
      outcome := PostHelp(helper, config, ev);
      return;
    }
    var commandMatches := NameStage(config.commands, head);
    if |commandMatches| == 0 {
      assert CommandRun(config, ev, commandTokens, actorPermission, issue) == Run([], ev.body, NotRegistered);
      return NotRegistered;
    }
    commandMatches := TypeStage(commandMatches, ev.isPullRequest);
    if |commandMatches| == 0 {
      assert CommandRun(config, ev, commandTokens, actorPermission, issue) == Run([], ev.body, WrongIssueType);
      return WrongIssueType;
    }
    ghost var c0 := old(helper.calls);
    if config.useReaction {
      helper.AddReaction(ev.commentId, "eyes");
    }
    assert helper.calls == c0 + ReactionCalls(config, ev);
    ghost var run := CheckedRun(commandMatches, ev, commandTokens, actorPermission, issue);
    assert CommandRun(config, ev, commandTokens, actorPermission, issue) == run.(calls := ReactionCalls(config, ev) + run.calls);
    outcome := RunChecked(helper, commandMatches, ev, commandTokens, actorPermission, issue);
    AppendAssoc(c0, ReactionCalls(config, ev), run.calls);
  }

  /** `handleIssueComment`, with the actor's permission and the issue data as
      the client's read requests would return them. The workflow-dispatch
      block at the end is not part of this model. */
  method HandleIssueComment(helper: GitHubHelper, config: CommandsConfig, ev: IssueComment, actorPermission: string, issue: IssueData)
    returns (outcome: Outcome)
    modifies helper
    ensures helper.calls == old(helper.calls) + IssueCommentRun(config, ev, actorPermission, issue).calls
    ensures outcome == IssueCommentRun(config, ev, actorPermission, issue).outcome
  {
    var firstLine := Trim(FirstLine(ev.body));
    if |firstLine| < 2 || firstLine[0] != '/' {
      return NotSlashCommand;
    }
    var commandTokens := TokeniseCommand(firstLine[1..]);
    outcome := RunCommand(helper, config, ev, commandTokens, actorPermission, issue);
  }

  /* ---- properties of the pipeline ---- */

  /** Applied to comment bodies that hold `from` at `id`, the requests leave
      `to` there and every other comment as it was. */
  ghost predicate RewritesComment(calls: seq<Call>, id: nat, from: string, to: string)
  {
    forall m: map<nat, string> :: id in m && m[id] == from ==> ApplyCalls(m, calls) == m[id := to]
  }

  lemma RewritesCommentAppend(c1: seq<Call>, c2: seq<Call>, id: nat, a: string, b: string, c: string)
    requires RewritesComment(c1, id, a, b) && RewritesComment(c2, id, b, c)
    ensures RewritesComment(c1 + c2, id, a, c)
  {
    forall m: map<nat, string> | id in m && m[id] == a
      ensures ApplyCalls(m, c1 + c2) == m[id := c]
    {
      ApplyCallsAppend(m, c1, c2);
      var m1 := ApplyCalls(m, c1);
      assert m1 == m[id := b];
      assert ApplyCalls(m1, c2) == m1[id := c];
      assert m1[id := c] == m[id := c];
    }
  }

  /** A request and then one comment update: the comment holds the update. */
  lemma RequestThenUpdate(req: Call, id: nat, from: string, to: string)
    requires !req.IssuesUpdateComment?
    requires from <= to
    ensures AuditTrail([req, IssuesUpdateComment(id, to)], id, from, to)
    ensures RewritesComment([req, IssuesUpdateComment(id, to)], id, from, to)
  {
    var calls := [req, IssuesUpdateComment(id, to)];
    forall m: map<nat, string> | id in m && m[id] == from
      ensures ApplyCalls(m, calls) == m[id := to]
    {
      assert calls[..1][..0] == [];
      assert calls[..1] == [req];
      assert ApplyCalls(m, calls[..1]) == m;
    }
  }

  /** One action block appends to the triggering comment and to nothing else. */
  lemma ActionStepAuditTrail(kind: ActionKind, cmd: Command, args: seq<string>, ev: IssueComment, body: string)
    ensures var s := ActionStep(kind, cmd, args, ev, body);
            AuditTrail(s.0, ev.commentId, body, s.1) && RewritesComment(s.0, ev.commentId, body, s.1)
  {
    var s := ActionStep(kind, cmd, args, ev, body);
    if s.0 != [] {
      RequestThenUpdate(s.0[0], ev.commentId, body, s.1);
      assert s.0 == [s.0[0], IssuesUpdateComment(ev.commentId, s.1)];
    }
  }

  /** The six action blocks together append to the triggering comment. */
  lemma ActionsAuditTrail(cmd: Command, args: seq<string>, ev: IssueComment, body: string)
    ensures var a := Actions(cmd, args, ev, body);
            AuditTrail(a.0, ev.commentId, body, a.1) && RewritesComment(a.0, ev.commentId, body, a.1)
  {
    var id := ev.commentId;
    var s1 := ActionStep(AddLabel, cmd, args, ev, body);
    var s2 := ActionStep(RemoveLabel, cmd, args, ev, s1.1);
    var s3 := ActionStep(AddAssignee, cmd, args, ev, s2.1);
    var s4 := ActionStep(RemoveAssignee, cmd, args, ev, s3.1);
    var s5 := ActionStep(AddReviewer, cmd, args, ev, s4.1);
    var s6 := ActionStep(RemoveReviewer, cmd, args, ev, s5.1);
    ActionStepAuditTrail(AddLabel, cmd, args, ev, body);
    ActionStepAuditTrail(RemoveLabel, cmd, args, ev, s1.1);
    ActionStepAuditTrail(AddAssignee, cmd, args, ev, s2.1);
    ActionStepAuditTrail(RemoveAssignee, cmd, args, ev, s3.1);
    ActionStepAuditTrail(AddReviewer, cmd, args, ev, s4.1);
    ActionStepAuditTrail(RemoveReviewer, cmd, args, ev, s5.1);
    AuditTrailAppend(s1.0, s2.0, id, body, s1.1, s2.1);
    AuditTrailAppend(s1.0 + s2.0, s3.0, id, body, s2.1, s3.1);
    AuditTrailAppend(s1.0 + s2.0 + s3.0, s4.0, id, body, s3.1, s4.1);
    AuditTrailAppend(s1.0 + s2.0 + s3.0 + s4.0, s5.0, id, body, s4.1, s5.1);
    AuditTrailAppend(s1.0 + s2.0 + s3.0 + s4.0 + s5.0, s6.0, id, body, s5.1, s6.1);
    RewritesCommentAppend(s1.0, s2.0, id, body, s1.1, s2.1);
    RewritesCommentAppend(s1.0 + s2.0, s3.0, id, body, s2.1, s3.1);
    RewritesCommentAppend(s1.0 + s2.0 + s3.0, s4.0, id, body, s3.1, s4.1);
    RewritesCommentAppend(s1.0 + s2.0 + s3.0 + s4.0, s5.0, id, body, s4.1, s5.1);
    RewritesCommentAppend(s1.0 + s2.0 + s3.0 + s4.0 + s5.0, s6.0, id, body, s5.1, s6.1);
  }

  /** The issue update sends nothing, or the issue update and then the
      comment extended with one line. */
  lemma IssueUpdateShape(cmd: Command, args: seq<string>, ev: IssueComment, issue: IssueData, body: string)
    ensures var u := IssueUpdate(cmd, args, ev, issue, body);
            || (u.calls == [] && u.commentBody == body)
            || (|u.calls| == 2 && u.calls[0].IssuesUpdate? && u.calls[1] == IssuesUpdateComment(ev.commentId, u.commentBody)
                && body <= u.commentBody)
  {
  }

  /** The issue update appends to the triggering comment. */
  lemma IssueUpdateAuditTrail(cmd: Command, args: seq<string>, ev: IssueComment, issue: IssueData, body: string)
    ensures var u := IssueUpdate(cmd, args, ev, issue, body);
            AuditTrail(u.calls, ev.commentId, body, u.commentBody)
            && RewritesComment(u.calls, ev.commentId, body, u.commentBody)
  {
    var u := IssueUpdate(cmd, args, ev, issue, body);
    IssueUpdateShape(cmd, args, ev, issue, body);
    if u.calls != [] {
      RequestThenUpdate(u.calls[0], ev.commentId, body, u.commentBody);
      assert u.calls == [u.calls[0], IssuesUpdateComment(ev.commentId, u.commentBody)];
    } else {
      NothingSent(ev.commentId, body);
    }
  }

  /** Nothing sent leaves every comment as it was. */
  lemma NothingSent(id: nat, body: string)
    ensures AuditTrail([], id, body, body) && RewritesComment([], id, body, body)
  {
    forall m: map<nat, string> | id in m && m[id] == body
      ensures ApplyCalls(m, []) == m[id := body]
    {
    }
  }

  /** A checked command appends to the triggering comment. */
  lemma ExecuteRunAuditTrail(cmd: Command, args: seq<string>, ev: IssueComment, issue: IssueData)
    ensures var r := ExecuteRun(cmd, args, ev, issue);
            AuditTrail(r.calls, ev.commentId, ev.body, r.commentBody)
            && RewritesComment(r.calls, ev.commentId, ev.body, r.commentBody)
  {
    var acts := Actions(cmd, args, ev, ev.body);
    var upd := IssueUpdate(cmd, args, ev, issue, acts.1);
    ActionsAuditTrail(cmd, args, ev, ev.body);
    IssueUpdateAuditTrail(cmd, args, ev, issue, acts.1);
    AuditTrailAppend(acts.0, upd.calls, ev.commentId, ev.body, acts.1, upd.commentBody);
    RewritesCommentAppend(acts.0, upd.calls, ev.commentId, ev.body, acts.1, upd.commentBody);
  }

  /** The stages after the reaction append to the triggering comment. */
  lemma CheckedRunAuditTrail(typed: seq<Command>, ev: IssueComment, tokens: seq<string>, actorPermission: string, issue: IssueData)
    ensures var r := CheckedRun(typed, ev, tokens, actorPermission, issue);
            AuditTrail(r.calls, ev.commentId, ev.body, r.commentBody)
            && RewritesComment(r.calls, ev.commentId, ev.body, r.commentBody)
  {
    var p := PermissionStage(typed, actorPermission);
    if p.Success? && |p.value| == 1 && |tokens| - 1 == p.value[0].args {
      ExecuteRunAuditTrail(p.value[0], if |tokens| > 0 then tokens[1..] else [], ev, issue);
    } else {
      NothingSent(ev.commentId, ev.body);
    }
  }

  /** The help table is one update of the triggering comment. */
  lemma HelpRunAuditTrail(config: CommandsConfig, ev: IssueComment)
    ensures var r := HelpRun(config, ev);
            AuditTrail(r.calls, ev.commentId, ev.body, r.commentBody)
            && RewritesComment(r.calls, ev.commentId, ev.body, r.commentBody)
  {
    var r := HelpRun(config, ev);
    var id := ev.commentId;
    forall m: map<nat, string> | id in m && m[id] == ev.body
      ensures ApplyCalls(m, r.calls) == m[id := r.commentBody]
    {
      assert r.calls[..0] == [];
    }
  }

  /** The reaction leaves every comment as it was. */
  lemma ReactionRewritesNothing(config: CommandsConfig, ev: IssueComment)
    ensures AuditTrail(ReactionCalls(config, ev), ev.commentId, ev.body, ev.body)
            && RewritesComment(ReactionCalls(config, ev), ev.commentId, ev.body, ev.body)
  {
    var reaction := ReactionCalls(config, ev);
    var id := ev.commentId;
    forall m: map<nat, string> | id in m && m[id] == ev.body
      ensures ApplyCalls(m, reaction) == m[id := ev.body]
    {
      if reaction != [] {
        assert reaction[..0] == [];
      }
    }
  }

  /** The pipeline after tokenising appends to the triggering comment. */
  lemma CommandRunAuditTrail(config: CommandsConfig, ev: IssueComment, tokens: seq<string>, actorPermission: string, issue: IssueData)
    ensures var r := CommandRun(config, ev, tokens, actorPermission, issue);
            AuditTrail(r.calls, ev.commentId, ev.body, r.commentBody)
            && RewritesComment(r.calls, ev.commentId, ev.body, r.commentBody)
  {
    var id := ev.commentId;
    var named := NameStage(config.commands, Head(tokens));
    var typed := TypeStage(named, ev.isPullRequest);
    if Head(tokens) == Some("help") {
      HelpRunAuditTrail(config, ev);
    } else if |named| > 0 && |typed| > 0 {
      var run := CheckedRun(typed, ev, tokens, actorPermission, issue);
      var reaction := ReactionCalls(config, ev);
      ReactionRewritesNothing(config, ev);
      CheckedRunAuditTrail(typed, ev, tokens, actorPermission, issue);
      AuditTrailAppend(reaction, run.calls, id, ev.body, ev.body, run.commentBody);
      RewritesCommentAppend(reaction, run.calls, id, ev.body, ev.body, run.commentBody);
    } else {
      NothingSent(id, ev.body);
    }
  }

  /** Whatever happens, the handler only ever appends to the comment that
      triggered it: every comment update is to that comment, each extends the
      comment as it was and the one before, and afterwards that comment holds
      the last body written and no other comment has changed. */
  lemma IssueCommentAuditTrail(config: CommandsConfig, ev: IssueComment, actorPermission: string, issue: IssueData)
    ensures var r := IssueCommentRun(config, ev, actorPermission, issue);
            AuditTrail(r.calls, ev.commentId, ev.body, r.commentBody)
            && RewritesComment(r.calls, ev.commentId, ev.body, r.commentBody)
  {
    match CommandText(ev.body)
    case None => NothingSent(ev.commentId, ev.body);
    case Some(text) => CommandRunAuditTrail(config, ev, Tokens(text), actorPermission, issue);
  }

  /** The outcomes reached once a registered command for this kind of issue
      was found, which is when the reaction is added. */
  predicate Dispatched(o: Outcome)
  {
    o.NoPermission? || o.Failed? || o.Threw? || o.Done?
  }

  /** A request that changes the issue rather than the comment. */
  predicate ChangesIssue(c: Call)
  {
    !c.ReactionsCreate? && !c.IssuesUpdateComment?
  }

  /** A command that the first token, the kind of issue and the actor's
      permission all select. */
  predicate Qualifies(cmd: Command, ev: IssueComment, tokens: seq<string>, actorPermission: string)
  {
    cmd.enable && Head(tokens) == Some(cmd.name) && FitsScope(cmd, ev.isPullRequest)
    && ContainPermission(actorPermission, cmd.permission) == Success(true)
  }

  predicate NoReaction(calls: seq<Call>)
  {
    forall c :: c in calls ==> !c.ReactionsCreate?
  }

  lemma ActionStepNoReaction(kind: ActionKind, cmd: Command, args: seq<string>, ev: IssueComment, body: string)
    ensures NoReaction(ActionStep(kind, cmd, args, ev, body).0)
  {
    var s := ActionStep(kind, cmd, args, ev, body);
    if s.0 != [] {
      assert s.0 == [ActionRequest(kind, ev.issueNumber, Formatted(ActionFormat(cmd, kind).value, args, |args|)),
                     IssuesUpdateComment(ev.commentId, s.1)];
    }
  }

  lemma NoReactionAppend(a: seq<Call>, b: seq<Call>)
    requires NoReaction(a) && NoReaction(b)
    ensures NoReaction(a + b)
  {
  }

  /** The six action blocks send no reaction. */
  lemma ActionsNoReaction(cmd: Command, args: seq<string>, ev: IssueComment, body: string)
    ensures NoReaction(Actions(cmd, args, ev, body).0)
  {
    var s1 := ActionStep(AddLabel, cmd, args, ev, body);
    var s2 := ActionStep(RemoveLabel, cmd, args, ev, s1.1);
    var s3 := ActionStep(AddAssignee, cmd, args, ev, s2.1);
    var s4 := ActionStep(RemoveAssignee, cmd, args, ev, s3.1);
    var s5 := ActionStep(AddReviewer, cmd, args, ev, s4.1);
    var s6 := ActionStep(RemoveReviewer, cmd, args, ev, s5.1);
    ActionStepNoReaction(AddLabel, cmd, args, ev, body);
    ActionStepNoReaction(RemoveLabel, cmd, args, ev, s1.1);
    ActionStepNoReaction(AddAssignee, cmd, args, ev, s2.1);
    ActionStepNoReaction(RemoveAssignee, cmd, args, ev, s3.1);
    ActionStepNoReaction(AddReviewer, cmd, args, ev, s4.1);
    ActionStepNoReaction(RemoveReviewer, cmd, args, ev, s5.1);
    NoReactionAppend(s1.0, s2.0);
    NoReactionAppend(s1.0 + s2.0, s3.0);
    NoReactionAppend(s1.0 + s2.0 + s3.0, s4.0);
    NoReactionAppend(s1.0 + s2.0 + s3.0 + s4.0, s5.0);
    NoReactionAppend(s1.0 + s2.0 + s3.0 + s4.0 + s5.0, s6.0);
  }

  /** The issue update sends no reaction and ends in `Done`, `Failed` or `Threw`. */
  lemma IssueUpdateFacts(cmd: Command, args: seq<string>, ev: IssueComment, issue: IssueData, body: string)
    ensures var u := IssueUpdate(cmd, args, ev, issue, body);
            NoReaction(u.calls) && (u.outcome.Done? || u.outcome.Failed? || u.outcome.Threw?)
  {
  }

  /** A checked command sends no reaction and ends in a dispatched outcome
      other than `NoPermission`. */
  lemma ExecuteRunFacts(cmd: Command, args: seq<string>, ev: IssueComment, issue: IssueData)
    ensures var r := ExecuteRun(cmd, args, ev, issue);
            NoReaction(r.calls) && Dispatched(r.outcome) && !r.outcome.NoPermission?
  {
    var acts := Actions(cmd, args, ev, ev.body);
    var upd := IssueUpdate(cmd, args, ev, issue, acts.1);
    ActionsNoReaction(cmd, args, ev, ev.body);
    IssueUpdateFacts(cmd, args, ev, issue, acts.1);
    NoReactionAppend(acts.0, upd.calls);
  }

  /** What the stages after the reaction can do. */
  lemma CheckedRunFacts(typed: seq<Command>, ev: IssueComment, tokens: seq<string>, actorPermission: string, issue: IssueData)
    ensures var r := CheckedRun(typed, ev, tokens, actorPermission, issue);
            && NoReaction(r.calls) && Dispatched(r.outcome)
            && (r.outcome == NoPermission ==> r.calls == [] && r.commentBody == ev.body)
            && (r.calls != [] ==>
                  var p := PermissionStage(typed, actorPermission);
                  p.Success? && |p.value| == 1 && p.value[0].args == |tokens| - 1)
  {
    var p := PermissionStage(typed, actorPermission);
    if p.Success? && |p.value| == 1 && |tokens| - 1 == p.value[0].args {
      ExecuteRunFacts(p.value[0], if |tokens| > 0 then tokens[1..] else [], ev, issue);
    }
  }

  /** What the pipeline after tokenising can do. */
  lemma CommandRunFacts(config: CommandsConfig, ev: IssueComment, tokens: seq<string>, actorPermission: string, issue: IssueData)
    ensures var r := CommandRun(config, ev, tokens, actorPermission, issue);
            && !r.outcome.NotSlashCommand?
            && ((r.outcome.NotRegistered? || r.outcome.WrongIssueType?) ==> r.calls == [] && r.commentBody == ev.body)
            && ((|r.calls| > 0 && r.calls[0] == ReactionsCreate(ev.commentId, "eyes")) <==> config.useReaction && Dispatched(r.outcome))
            && (r.outcome == NoPermission ==> r.calls == ReactionCalls(config, ev) && r.commentBody == ev.body)
  {
    var named := NameStage(config.commands, Head(tokens));
    var typed := TypeStage(named, ev.isPullRequest);
    if Head(tokens) != Some("help") && |named| > 0 && |typed| > 0 {
      var run := CheckedRun(typed, ev, tokens, actorPermission, issue);
      CheckedRunFacts(typed, ev, tokens, actorPermission, issue);
      assert run.calls != [] ==> run.calls[0] in run.calls;
    }
  }

  /** Nothing at all is sent when the comment is not a slash command, names
      no enabled command, or names none for this kind of issue. */
  lemma QuietStops(config: CommandsConfig, ev: IssueComment, actorPermission: string, issue: IssueData)
    ensures var r := IssueCommentRun(config, ev, actorPermission, issue);
            (r.outcome.NotSlashCommand? || r.outcome.NotRegistered? || r.outcome.WrongIssueType?) ==>
              r.calls == [] && r.commentBody == ev.body
  {
    match CommandText(ev.body)
    case None =>
    case Some(text) => CommandRunFacts(config, ev, Tokens(text), actorPermission, issue);
  }

  /** The "eyes" reaction is the first request exactly when reactions are on
      and a registered command for this kind of issue was found; the actor's
      permission plays no part in it. */
  lemma ReactionExactlyWhenDispatched(config: CommandsConfig, ev: IssueComment, actorPermission: string, issue: IssueData)
    ensures var r := IssueCommentRun(config, ev, actorPermission, issue);
            (|r.calls| > 0 && r.calls[0] == ReactionsCreate(ev.commentId, "eyes"))
            <==> config.useReaction && Dispatched(r.outcome)
  {
    match CommandText(ev.body)
    case None =>
    case Some(text) => CommandRunFacts(config, ev, Tokens(text), actorPermission, issue);
  }

  /** Without the permission, only the reaction is sent. */
  lemma NoPermissionSendsOnlyReaction(config: CommandsConfig, ev: IssueComment, actorPermission: string, issue: IssueData)
    ensures var r := IssueCommentRun(config, ev, actorPermission, issue);
            r.outcome == NoPermission ==> r.calls == ReactionCalls(config, ev) && r.commentBody == ev.body
  {
    match CommandText(ev.body)
    case None =>
    case Some(text) => CommandRunFacts(config, ev, Tokens(text), actorPermission, issue);
  }

  /** When the three filters leave one command, it is the only qualifying one. */
  lemma OnePermittedIsOnlyQualifying(cmds: seq<Command>, ev: IssueComment, tokens: seq<string>, actorPermission: string)
    requires var p := PermissionStage(TypeStage(NameStage(cmds, Head(tokens)), ev.isPullRequest), actorPermission);
             p.Success? && |p.value| == 1
    ensures var p := PermissionStage(TypeStage(NameStage(cmds, Head(tokens)), ev.isPullRequest), actorPermission);
            && p.value[0] in cmds && Qualifies(p.value[0], ev, tokens, actorPermission)
            && forall c :: c in cmds && Qualifies(c, ev, tokens, actorPermission) ==> c == p.value[0]
  {
    var permitted := PermissionStage(TypeStage(NameStage(cmds, Head(tokens)), ev.isPullRequest), actorPermission).value;
    assert permitted == [permitted[0]];
    assert permitted[0] in permitted;
    forall c | c in cmds && Qualifies(c, ev, tokens, actorPermission)
      ensures c == permitted[0]
    {
      QualifyingIsPermitted(cmds, ev, tokens, actorPermission, c);
    }
  }

  /** A change to the issue comes from the checked stages having sent something. */
  lemma ChangeComesFromCheckedRun(config: CommandsConfig, ev: IssueComment, tokens: seq<string>, actorPermission: string, issue: IssueData)
    requires exists k :: 0 <= k < |CommandRun(config, ev, tokens, actorPermission, issue).calls|
                         && ChangesIssue(CommandRun(config, ev, tokens, actorPermission, issue).calls[k])
    ensures var typed := TypeStage(NameStage(config.commands, Head(tokens)), ev.isPullRequest);
            CheckedRun(typed, ev, tokens, actorPermission, issue).calls != []
  {
    var r := CommandRun(config, ev, tokens, actorPermission, issue);
    var k :| 0 <= k < |r.calls| && ChangesIssue(r.calls[k]);
    var named := NameStage(config.commands, Head(tokens));
    var typed := TypeStage(named, ev.isPullRequest);
    var run := CheckedRun(typed, ev, tokens, actorPermission, issue);
    if Head(tokens) == Some("help") {
      assert false;
    } else if |named| == 0 || |typed| == 0 {
      assert false;
    } else if run.calls == [] {
      assert false;
    }
  }

  /** After tokenising, the issue is changed only when exactly one configured
      command qualifies, and the comment gives it exactly its number of
      arguments. */
  lemma CommandRunChangesOnlyForOneCommand(config: CommandsConfig, ev: IssueComment, tokens: seq<string>, actorPermission: string, issue: IssueData)
    requires exists k :: 0 <= k < |CommandRun(config, ev, tokens, actorPermission, issue).calls|
                         && ChangesIssue(CommandRun(config, ev, tokens, actorPermission, issue).calls[k])
    ensures exists cmd :: cmd in config.commands && Qualifies(cmd, ev, tokens, actorPermission) && cmd.args == |tokens| - 1
    ensures forall c1, c2 ::
              (c1 in config.commands && c2 in config.commands
               && Qualifies(c1, ev, tokens, actorPermission) && Qualifies(c2, ev, tokens, actorPermission)) ==> c1 == c2
  {
    var typed := TypeStage(NameStage(config.commands, Head(tokens)), ev.isPullRequest);
    ChangeComesFromCheckedRun(config, ev, tokens, actorPermission, issue);
    CheckedRunFacts(typed, ev, tokens, actorPermission, issue);
    OnePermittedIsOnlyQualifying(config.commands, ev, tokens, actorPermission);
  }

  /** The issue is changed only when exactly one configured command qualifies
      for the first token, the kind of issue and the actor's permission, and
      the comment gives it exactly its number of arguments. */
  lemma IssueChangedOnlyByOneQualifyingCommand(config: CommandsConfig, ev: IssueComment, actorPermission: string, issue: IssueData)
    requires exists k :: 0 <= k < |IssueCommentRun(config, ev, actorPermission, issue).calls|
                         && ChangesIssue(IssueCommentRun(config, ev, actorPermission, issue).calls[k])
    ensures CommandText(ev.body).Some?
    ensures var tokens := Tokens(CommandText(ev.body).value);
            exists cmd :: cmd in config.commands && Qualifies(cmd, ev, tokens, actorPermission) && cmd.args == |tokens| - 1
    ensures var tokens := Tokens(CommandText(ev.body).value);
            forall c1, c2 ::
              (c1 in config.commands && c2 in config.commands
               && Qualifies(c1, ev, tokens, actorPermission) && Qualifies(c2, ev, tokens, actorPermission)) ==> c1 == c2
  {
    var text := CommandText(ev.body).value;
    CommandRunChangesOnlyForOneCommand(config, ev, Tokens(text), actorPermission, issue);
  }

  /** A qualifying command passes the three filters. */
  lemma QualifyingIsPermitted(cmds: seq<Command>, ev: IssueComment, tokens: seq<string>, actorPermission: string, c: Command)
    requires c in cmds && Qualifies(c, ev, tokens, actorPermission)
    requires PermissionStage(TypeStage(NameStage(cmds, Head(tokens)), ev.isPullRequest), actorPermission).Success?
    ensures c in PermissionStage(TypeStage(NameStage(cmds, Head(tokens)), ev.isPullRequest), actorPermission).value
  {
  }

  /** `triage` and `maintain` pass the configuration check, but the permission
      check of the pipeline knows only four levels: a command that requires
      one of them never qualifies, whatever the actor's permission. */
  lemma TriageAndMaintainNeverQualify(cmd: Command, ev: IssueComment, tokens: seq<string>, actorPermission: string)
    requires cmd.permission == "triage" || cmd.permission == "maintain"
    ensures cmd.permission in PermissionNames
    ensures !Qualifies(cmd, ev, tokens, actorPermission)
  {
    if actorPermission != "" {
      UnknownLevelDenies(actorPermission, cmd.permission);
    }
  }

  /** As written, the title replacement is counted with the body updates: a
      command that replaces the title and also edits the body is rejected as
      having more than one body update, and nothing is sent. */
  lemma TitleReplacementCountsAsBodyUpdate(cmd: Command, args: seq<string>, ev: IssueComment, issue: IssueData, body: string)
    requires Truthy(cmd.replaceIssueTitleFormat)
    requires !Truthy(cmd.prefixIssueTitleFormat) && !Truthy(cmd.suffixIssueTitleFormat) && !Truthy(cmd.removeIssueTitleFormat)
    requires Truthy(cmd.prefixIssueBodyFormat) || Truthy(cmd.suffixIssueBodyFormat) || Truthy(cmd.removeIssueBodyFormat)
    ensures IssueUpdate(cmd, args, ev, issue, body)
            == Run([], body, Failed("configured more than 1 issue body updates in command " + cmd.name))
  {
    CountTruthyFour(cmd.prefixIssueTitleFormat, cmd.suffixIssueTitleFormat, cmd.removeIssueTitleFormat, cmd.replaceIssueTitleFormat);
    CountTruthyFour(cmd.prefixIssueBodyFormat, cmd.suffixIssueBodyFormat, cmd.removeIssueBodyFormat, cmd.replaceIssueTitleFormat);
  }

  /** An update of the title alone sends the issue's body back trimmed and
      otherwise unchanged; when the issue has no body, `trim` on null throws
      and nothing is sent. */
  lemma TitleOnlyUpdateKeepsBody(cmd: Command, args: seq<string>, ev: IssueComment, issue: IssueData, body: string)
    requires Truthy(cmd.prefixIssueTitleFormat) || Truthy(cmd.suffixIssueTitleFormat)
             || Truthy(cmd.removeIssueTitleFormat) || Truthy(cmd.replaceIssueTitleFormat)
    requires CountTruthy(TitleFormats(cmd)) <= 1
    requires !Truthy(cmd.prefixIssueBodyFormat) && !Truthy(cmd.suffixIssueBodyFormat)
             && !Truthy(cmd.removeIssueBodyFormat) && !Truthy(cmd.replaceIssueBodyFormat)
    ensures var u := IssueUpdate(cmd, args, ev, issue, body);
            if issue.body.None? then u == Run([], body, Threw(NullTrimError))
            else u.outcome == Done && |u.calls| == 2
                 && u.calls[0] == IssuesUpdate(ev.issueNumber, Trim(EditedTitle(cmd, args, issue.title)), Trim(issue.body.value))
  {
    CountTruthyFour(cmd.prefixIssueBodyFormat, cmd.suffixIssueBodyFormat, cmd.removeIssueBodyFormat, cmd.replaceIssueTitleFormat);
  }

  /** An update of the body alone sends the issue's title back trimmed and
      otherwise unchanged. */
  lemma BodyOnlyUpdateKeepsTitle(cmd: Command, args: seq<string>, ev: IssueComment, issue: IssueData, body: string)
    requires !Truthy(cmd.prefixIssueTitleFormat) && !Truthy(cmd.suffixIssueTitleFormat)
             && !Truthy(cmd.removeIssueTitleFormat) && !Truthy(cmd.replaceIssueTitleFormat)
    requires IssueUpdate(cmd, args, ev, issue, body).calls != []
    ensures IssueUpdate(cmd, args, ev, issue, body).calls[0].title == Trim(issue.title)
  {
  }
}
