# slash-commander, modelled in Dafny

slash-commander is a GitHub Action. It reads a YAML list of slash commands.
When someone comments `/name arg…` on an issue or a pull request, it finds the
one command that is enabled under that name, fits the kind of issue and is
allowed for the actor's repository permission. It then adds or removes
labels, assignees and reviewers, and edits the issue title and body. After
each action it appends an audit line to the triggering comment. A second
entry point handles a completed workflow run: it replaces the pending commit
status that a slash command left on the head commit with the run's result,
and notes the completion in the comment that started the run. Two small
handlers add labels, or post commit statuses, to a pull request according to
its changed files. An event router matches an event against a list of entries.

The model follows the code as written, including its mistakes (see "Code
versus design" below). It has one module per source file:

- `Wrappers` (wrappers.dfy): `Option`, `Result`.
- `Seqs` (seqs.dfy): associativity of concatenation, used by the proofs.
- `Strings` (strings.dfy): the JavaScript string behaviour the bot relies on:
  - `\s` whitespace, `trim`, the first line of `split(/\r?\n/)`;
  - `replace` with a string pattern;
  - decimal printing and `parseInt` of digit strings.
- `Utils` (utils.dfy): `isTimeout`, with the clock reading as a parameter.
- `ListUtil` (list.dfy): `removeList`.
- `MatchUtil` (match.dfy): `match` and `Match`. The glob test of micromatch is a
  function parameter `glob(pattern, candidate)`.
- `FilesUtil` (files.dfy): `ListPushFiles` and `CheckPushOrPullFileMatch`.
- `Router` (router.dfy): `route`. Each entry's outcome is a function, and the
  loop is a method proved against it.
- `CommandsHelper` (commands.dfy):
  - the six-level `actorHasPermission`;
  - the tokenizer, as a scanner for the regex `TOKENISE_REGEX` together with the
    `exec` loop;
  - `formatWithArguments`.
- `InputsHelper` (inputs.dfy): `getCommandsConfig` defaulting over an
  already-parsed document, and `configIsValid`.
- `GitHub` (github.dfy):
  - the four-level `containPermission`;
  - the `GitHubHelper` client as a class that logs every write request it sends.
    The comment bodies on the server are a function of that log;
  - workflow selection;
  - the polling loop, over a given sequence of poll results and clock readings.
- `Selection` (selection.dfy): the `if_include` / `if_not_include` rule shared by
  both handlers.
- `LabelHandler` (label_handler.dfy) and `GrantHandler` (grant_handler.dfy): the
  label and status handlers.
- `Index` (index.dfy): `handleIssueComment`. The pipeline is specified by
  functions (`IssueCommentRun` and its parts). The methods that drive the client
  are proved to send exactly the requests those functions list.
- `WorkflowRunHandler` (workflow_run.dfy): `handleWorkflowRun`.

What a read request returns is a parameter of the operation that makes it:
- the actor's permission;
- the issue;
- the combined commit status;
- the listed workflows and workflow runs;
- the pull request's files.

## Model

| member | source | states |
|---|---|---|
| ListUtil.RemoveList | src/utils/list.ts:1-6 | The result is never longer than `original`. |
| ListUtil.RemoveListKeeps | src/utils/list.ts:1-6 | An element is kept iff it is in `original` and not in `remove`. A kept element keeps all its duplicates. |
| ListUtil.RemoveListAppend | src/utils/list.ts:2-4 | Removal distributes over concatenation, so kept elements stay in their original order. |
| ListUtil.RemoveNothing | src/utils/list.ts:2-4 | An empty `remove` list returns `original` unchanged. |
| ListUtil.RemoveEverything | src/utils/list.ts:2-4 | When every element is in `remove`, the result is empty. |
| MatchUtil.Micromatch | src/utils/match.ts:9 | The candidates that match some pattern, in candidate order. It has the full length iff every candidate matches. |
| MatchUtil.MatchMode | src/utils/match.ts:4-16 | Include mode is matched iff some candidate matches, with exactly the matching candidates. Ignore mode is matched iff some candidate matches no pattern, with the unmatched candidates. Otherwise the result is `{false, []}`. |
| MatchUtil.RemoveMatchedIsUnmatched | src/utils/match.ts:12-13 | Removing the matched candidates by value leaves exactly the candidates that match no pattern. |
| MatchUtil.Match | src/utils/match.ts:18-36 | Null candidates with any list set give `{false, []}`. An unmatched result has no matches. Matches are always drawn from the candidates. |
| MatchUtil.NoFiltersAlwaysMatch | src/utils/match.ts:23-24 | With neither list set, the result is matched and the matches are the candidates, or `[]` for null. |
| MatchUtil.PatternsWinOverIgnorePatterns | src/utils/match.ts:23-35 | With both lists set, the ignore list is not read, so the final throw cannot be reached. |
| MatchUtil.EmptyPatternListNeverMatches | src/utils/match.ts:25-28 | An empty include list is truthy and never matches. |
| MatchUtil.IncludeExample | src/utils/match.ts:9-11 | Include mode on concrete names keeps the matching name. |
| MatchUtil.IgnoreExamples | src/utils/match.ts:12-15 | Ignore mode keeps the unmatched name. It is unmatched when every candidate is ignored. |
| FilesUtil.ListPushFiles | src/utils/files.ts:5-20 | It throws iff the event is not push. For push it returns `[]`, because the `concat` results are discarded. |
| FilesUtil.CheckPushOrPullFileMatch | src/utils/files.ts:53-71 | It throws unless the event is push or pull_request. The result is `Match` over the push file list (always empty) or over the pull request's files. |
| FilesUtil.PushPathFiltersNeverMatch | src/utils/files.ts:16-66 | For a push, any path filter is unmatched, and no filter gives a match with no files. |
| Router.EntryOutcome | src/router/router.ts:49-207 | Entry with types and no action: throws. A qualifying entry has the event's name. A non-push/PR entry throws iff it sets a filter field, and otherwise qualifies iff the names match and the type matches. Past the types check, a push/PR entry throws on a missing push ref, then throws iff neither branch nor tag, or no sha, is truthy. Otherwise, once the file match succeeds, it qualifies iff the names match and the branch, tag and file matches all hold. The type match is not part of that condition. |
| Router.PushOrPullEntryIgnoresAction | src/router/router.ts:106 | For every push or pull-request entry and event, replacing one set action by another leaves the outcome unchanged, so the action type never matters. |
| Router.RouteEntry | src/router/router.ts:49-207 | The loop body computes exactly `EntryOutcome`, with the flags and branches of the source. |
| Router.Route | src/router/router.ts:44-231 | It succeeds iff no entry throws. Otherwise it fails with the error of the first entry that throws, after all earlier entries succeed. The returned list is always empty. |
| Router.ShippedListAlwaysThrows | src/router/list.ts:5-23 | The shipped entry list throws on every event, because of the trailing `{}` entry. |
| Router.PullRequestEntryIgnoresTypes | src/router/router.ts:106 | A pull-request entry whose types exclude the action still qualifies. |
| Router.BranchFilterIgnoresChangedFiles | src/router/router.ts:88-106 | A pull-request entry that filters on a branch qualifies whatever files changed. |
| Router.PushEntryOnRefLessEventThrows | src/router/router.ts:73-80 | A push entry throws on an event whose payload has no ref. |
| CommandsHelper.ActorHasPermission | src/commands-helper.ts:9-26 | True iff both names are among the six levels and the actor's level is at least the command's. Any other name that is not an `Object.prototype` property denies. |
| CommandsHelper.ActorHasPermissionReflexive | src/commands-helper.ts:13-25 | Each known level meets itself. |
| CommandsHelper.AdjacentLevelsOrdered | src/commands-helper.ts:13-20 | Each level meets the one below it and not the one above it: none<read<triage<write<maintain<admin. |
| CommandsHelper.ActorHasPermissionTransitive | src/commands-helper.ts:23-25 | The order is transitive. |
| CommandsHelper.ClosingQuoteIsRegexMatch | src/commands-helper.ts:5-6 | The quote scanner stops exactly at a quote that ends a well-formed `[^"\\]*(?:\\.[^"\\]*)*` body, so an escaped quote never closes. |
| CommandsHelper.NextMatch | src/commands-helper.ts:5-31 | `exec` from `lastIndex` skips only whitespace before its match. It returns null only when nothing but whitespace remains. |
| CommandsHelper.TokenSpans | src/commands-helper.ts:31-33 | The matches lie in bounds, are non-empty, and do not overlap, in input order. |
| CommandsHelper.TokenSpansCover | src/commands-helper.ts:31-33 | Every non-whitespace character lies inside a match. |
| CommandsHelper.Tokens | src/commands-helper.ts:28-35 | Every token is non-empty. |
| CommandsHelper.TokeniseCommand | src/commands-helper.ts:28-35 | The `exec`/`push` loop returns exactly `Tokens(command)`. |
| CommandsHelper.BlankHasNoTokens | src/commands-helper.ts:28-35 | An empty or all-whitespace string has no tokens. |
| CommandsHelper.NonBlankHasToken | src/commands-helper.ts:28-35 | A string with a non-whitespace character has a token. |
| CommandsHelper.UnquotedTokensAreWords | src/commands-helper.ts:5-6 | Without `"`, the tokens are exactly the maximal non-whitespace runs, left to right. |
| CommandsHelper.QuotedRegionIsOneToken | src/commands-helper.ts:5-6 | Take a closed quoted region with no `=` in it, followed by whitespace or the end. It is one token that keeps its quotes, even if it holds whitespace or `\"`. |
| CommandsHelper.EqualsInRegionStartsKey | src/commands-helper.ts:5-6 | The `=`-free condition is needed. In `"k=" "v"` the region `"k="` is closed and followed by a space, yet the keyed alternative matches `"k=" "`. |
| CommandsHelper.KeyedRegionIsOneToken | src/commands-helper.ts:5-6 | Take a closed quoted region prefixed by a non-empty `key=`, with no `=` after the key's own, and followed by whitespace or the end. Together with its key it is one token. |
| CommandsHelper.KeyedQuoteLargest | src/commands-helper.ts:6 | The backtracking `\S+=` search settles on the longest key that works. |
| CommandsHelper.UnclosedQuoteSplitsAtWhitespace | src/commands-helper.ts:6 | Any unclosed quote falls back to the plain `\S+` match, whatever follows it. |
| CommandsHelper.UnclosedQuoteHasNoKey | src/commands-helper.ts:6 | After an unclosed quote no `key="` within the run can match, because its quote would close the first one. |
| CommandsHelper.FormatWithArguments | src/commands-helper.ts:37-43 | The loop substitutes indices 1..n in turn on the progressively updated string, each in its first occurrence of the literal text `/$i/g`. |
| CommandsHelper.FormatIgnoresOtherPlaceholders | src/commands-helper.ts:38-41 | A format without a placeholder of index 1..n is returned unchanged, so higher indices are never touched. |
| CommandsHelper.NoSlashNoPlaceholder | src/commands-helper.ts:39 | Every placeholder the built regex matches begins with `/`. |
| CommandsHelper.FormatWithoutSlashUnchanged | src/commands-helper.ts:39-40 | A format without `/` comes back unchanged for any arguments. |
| CommandsHelper.BarePlaceholderStaysVerbatim | src/commands-helper.ts:39-40 | `formatWithArguments('Label: $1', ['bug'])` is `'Label: $1'`. |
| InputsHelper.DefaultedOfExplicit | src/inputs-helper.ts:64-87 | Defaults apply only to missing or null fields: a fully written entry reads back as itself. |
| InputsHelper.GetCommandsConfig | src/inputs-helper.ts:55-91 | `use_reaction` defaults to true. There is exactly one defaulted command per entry, in order. An empty document, or one without `commands`, throws. |
| InputsHelper.FirstViolation | src/inputs-helper.ts:95-140 | A command passes iff it has a name and a help text, has no workflow or reviewer format when issue-scoped, has a known permission and issue type, and has at most 9 arguments. |
| InputsHelper.ConfigIsValid | src/inputs-helper.ts:93-143 | Valid iff every command passes. Otherwise it reports the first failing check of the first failing command. |
| InputsHelper.NameAndHelpSuffice | src/inputs-helper.ts:64-87 | An entry with only a name and a help text is valid: enabled, issue-scoped, `read`, 0 arguments. |
| InputsHelper.ReviewerFormatNeedsIssueType | src/inputs-helper.ts:70-118 | A reviewer format under the default issue type is rejected. |
| InputsHelper.ArgumentBound | src/inputs-helper.ts:137-140 | The argument count is accepted iff it is at most 9. |
| GitHub.ContainPermission | src/github-helper.ts:107-132 | An empty user permission, then an empty required permission, throws. Otherwise, for names that are not `Object.prototype` properties, true iff both are among the four levels and the user's is at least the required one. |
| GitHub.ContainPermissionReflexive | src/github-helper.ts:117-131 | Each of the four levels contains itself. |
| GitHub.RepoLevelsOrdered | src/github-helper.ts:117-122 | The order is none<read<write<admin. |
| GitHub.UnknownLevelDenies | src/github-helper.ts:124-131 | Any other non-empty name on either side that is not an `Object.prototype` property, such as `triage` or `maintain`, gives false. |
| GitHub.GitHubHelper.constructor | src/github-helper.ts:44-46 | A new client has sent nothing. |
| GitHub.GitHubHelper.AddReaction | src/github-helper.ts:48-72 | Sends one reaction request. |
| GitHub.GitHubHelper.AddLabel | src/github-helper.ts:134-158 | Sends one add-labels request with that label. |
| GitHub.GitHubHelper.RemoveLabel | src/github-helper.ts:160-184 | Sends one remove-label request. |
| GitHub.GitHubHelper.AddAssignee | src/github-helper.ts:186-210 | Sends one add-assignees request. |
| GitHub.GitHubHelper.RemoveAssignee | src/github-helper.ts:212-238 | Sends one remove-assignees request. |
| GitHub.GitHubHelper.AddReviewer | src/github-helper.ts:240-266 | Sends one request-reviewers request. |
| GitHub.GitHubHelper.RemoveReviewer | src/github-helper.ts:268-296 | Sends one remove-requested-reviewers request. |
| GitHub.GitHubHelper.UpdateIssue | src/github-helper.ts:340-366 | Sends one issue update with that title and body. |
| GitHub.GitHubHelper.UpdateComment | src/github-helper.ts:399-421 | Sends one comment update. The comment then holds the new body and no other comment changes. |
| GitHub.GitHubHelper.SuffixComment | src/github-helper.ts:388-397 | Writes and returns exactly `oldBody + '\n' + suffix`. |
| GitHub.GitHubHelper.GetComment | src/github-helper.ts:368-386 | Returns the current body of an existing comment. An unknown id fails. |
| GitHub.GitHubHelper.CreateCommitStatus | src/github-helper.ts:585-617 | Sends one commit-status request and changes no comment. |
| GitHub.SuffixTwice | src/github-helper.ts:394 | Two suffixes leave the body followed by both, each on its own line. |
| GitHub.WorkflowsNamed | src/github-helper.ts:458 | The workflows with that name. |
| GitHub.GetWorkflowWithName | src/github-helper.ts:453-466 | Succeeds iff exactly one workflow has the name, and returns it. No match fails. |
| GitHub.RunsCreatedSince | src/github-helper.ts:533-535 | Keeps exactly the runs created at or after the cutoff. |
| GitHub.RunsCreatedSinceFirst | src/github-helper.ts:533-550 | The first run kept is the first run of the listing that is recent enough. |
| GitHub.GetWorkflowRunAfterTime | src/github-helper.ts:509-560 | A failed listing fails. Otherwise it succeeds iff some run is recent enough, and returns the first such run in listing order. |
| GitHub.WaitUntilWorkflowRunAfterTimeFound | src/github-helper.ts:489-507 | Polls at least once and stops at the first poll that finds a run or sees the timeout. Failed polls are swallowed. It returns that poll's run, or none only on timeout. |
| Utils.NotTimedOutAtDeadline | src/utils.ts:5-7 | Exactly at `start + t*1000` it is not timed out; one millisecond later it is. |
| Utils.TimeoutIsMonotone | src/utils.ts:6 | Once timed out, every later reading is timed out. |
| Utils.ZeroTimeoutExpiresAfterStart | src/utils.ts:6 | With a zero timeout, it is timed out iff now > start. |
| Selection.SelectionFlag | src/handler/index.ts:101-125 | The reassigned `match` flag equals the selection rule. |
| Selection.SelectedMeaning | src/handler/auto-grant.ts:112-138 | Selected iff both lists are empty, or some changed file matches `if_include`, or no changed file matches a non-empty `if_not_include`. |
| Selection.SelectedWithoutChangedFiles | src/handler/index.ts:85-125 | With no changed files, selected iff `if_include` is empty or `if_not_include` is not. |
| LabelHandler.BuildLabels | src/handler/index.ts:14-36 | The input label comes first, even with an empty name, then one label per JSON entry with the input lists as defaults. Entries without a name are reported and still added. |
| LabelHandler.SelectedNames | src/handler/index.ts:98-129 | A name is added iff some label with that name is selected. |
| LabelHandler.RunLabelHandler | src/handler/index.ts:14-136 | The single add-labels request holds the selected names of the built list, in order, judged against an empty file list. |
| LabelHandler.IncludeOnlyNeverAdded | src/handler/index.ts:85-125 | With the file list left empty, a label is added iff its `if_include` list is empty or its `if_not_include` list is not. |
| GrantHandler.BuildStatuses | src/handler/auto-grant.ts:17-48 | One status per `contexts` line with the input fields, then one per JSON entry with `??` defaults, in order. |
| GrantHandler.GrantsMembers | src/handler/auto-grant.ts:139-157 | A request is sent exactly for each selected status with a valid state. It carries the head sha and the status's context, description and URL. |
| GrantHandler.RejectedMembers | src/handler/auto-grant.ts:143-170 | A wrong state is reported exactly for each selected status whose state is not pending, success or failure. |
| GrantHandler.PostStatuses | src/handler/auto-grant.ts:110-172 | The loop sends exactly `Grants` and reports exactly `Rejected`, in order. |
| GrantHandler.RunGrantHandler | src/handler/auto-grant.ts:15-172 | The handler's requests and reports are those of the built status list, judged against an empty file list. |
| GrantHandler.IncludeOnlyNeverPosted | src/handler/auto-grant.ts:97-125 | Statuses that all have only `if_include` post nothing. |
| GrantHandler.NotIncludeAlwaysPosted | src/handler/auto-grant.ts:97-157 | A status with `if_not_include` and a valid state is always posted. |
| Index.CommandText | src/index.ts:155-161 | A slash command's text (after the `/`) has a non-whitespace character. |
| Index.SlashCommandHasToken | src/index.ts:155-161 | A slash command always has a first token. |
| Index.NameStage | src/index.ts:189-191 | Keeps exactly the enabled commands named by the first token. |
| Index.TypeStage | src/index.ts:201-207 | Keeps exactly the commands for this kind of issue. |
| Index.PermissionStage | src/index.ts:235-239 | Keeps exactly the commands whose permission the actor's contains. With a command left, an empty actor permission throws. |
| Index.HelpIgnoresEnable | src/index.ts:165-178 | The help table is the same whatever each command's `enable` flag. |
| Index.PostHelp | src/index.ts:164-186 | Sends the one comment update of the help branch. |
| Index.PerformAction | src/index.ts:266-330 | One action block: when its format is truthy, the request with the formatted text, then the audit line. |
| Index.ComputeTitle | src/index.ts:367-384 | Computes the edited title: prefix, suffix, first-occurrence removal, or replacement. |
| Index.ComputeBody | src/index.ts:385-404 | Computes the edited, trimmed body. `replace` or `trim` on a null body fails. |
| Index.PerformIssueUpdate | src/index.ts:332-412 | Sends exactly the issue-update block's requests. |
| Index.Execute | src/index.ts:266-412 | The six action blocks, then the issue update. |
| Index.RunChecked | src/index.ts:234-264 | The permission stage, the ambiguity and argument checks, then the command. |
| Index.RunCommand | src/index.ts:164-264 | Help, then the name and type stages, then the reaction, then the checked stages. |
| Index.HandleIssueComment | src/index.ts:139-412 | Sends exactly the requests, and ends with exactly the outcome, that `IssueCommentRun` gives. |
| Index.IssueCommentAuditTrail | src/index.ts:179-411 | Whatever happens, only the triggering comment is updated. Each update extends the previous body, and in the end no other comment has changed. |
| Index.ActionsAuditTrail | src/index.ts:266-330 | The six action blocks only append to the triggering comment. |
| Index.IssueUpdateShape | src/index.ts:355-411 | The issue update sends nothing, or the issue update followed by one comment update that extends the comment. |
| Index.QuietStops | src/index.ts:155-215 | Not a slash command, no enabled command with that name, or none for this kind of issue: nothing is sent. |
| Index.ReactionExactlyWhenDispatched | src/index.ts:229-232 | The eyes reaction is the first request iff reactions are on and the name and type stages found a command. The actor's permission plays no part. |
| Index.NoPermissionSendsOnlyReaction | src/index.ts:237-246 | When no command is permitted, only the reaction is sent. |
| Index.IssueChangedOnlyByOneQualifyingCommand | src/index.ts:189-264 | The issue changes only when exactly one configured command qualifies and the comment gives it exactly its number of arguments. |
| Index.TriageAndMaintainNeverQualify | src/index.ts:238 | A command requiring `triage` or `maintain` passes validation but never qualifies. |
| Index.TitleReplacementCountsAsBodyUpdate | src/index.ts:349-366 | A title replacement together with a body edit is rejected as two body updates, and nothing is sent. |
| Index.TitleOnlyUpdateKeepsBody | src/index.ts:367-405 | A title-only update sends the body back trimmed. A null body throws on `trim`. |
| Index.BodyOnlyUpdateKeepsTitle | src/index.ts:367-405 | A body-only update sends the title back trimmed. |
| WorkflowRunHandler.StatusesFor | src/index.ts:65-67 | Keeps exactly the statuses whose context is the workflow's name. |
| WorkflowRunHandler.StatusState | src/index.ts:81-84 | `success` iff the conclusion is `success`, otherwise `failure`. |
| WorkflowRunHandler.ConclusionDescriptionDistinguishes | src/index.ts:85-107 | Two conclusions get the same description only when they print the same. |
| WorkflowRunHandler.ExtractCommentId | src/index.ts:116-129 | An id is found iff the regex matches somewhere in the description. |
| WorkflowRunHandler.TriggerRoundTrip | src/index.ts:116-129 | The description of a pending status that a slash command created gives back the comment's id. |
| WorkflowRunHandler.NoteTriggerComment | src/index.ts:116-136 | Notes the completion on the comment the description names, or skips when it names none. |
| WorkflowRunHandler.HandleWorkflowRun | src/index.ts:57-137 | Sends exactly the requests, and ends with the outcome, that `CompletionRun` gives. |
| WorkflowRunHandler.CompletionRequests | src/index.ts:68-136 | A status is posted iff exactly one status has the workflow's name. It uses the head sha, the workflow's name and the old status's URL. At most one comment update follows, to the comment the old description names. |
| WorkflowRunHandler.DispatchedRunNotesItsComment | src/index.ts:108-136 | A run dispatched from an existing comment ends with that comment holding its old body plus the completion note. |
| Strings.Trim | src/index.ts:155 | `trim` leaves a string with no whitespace at either end, surrounded in the input only by whitespace. |
| Strings.FirstLine | src/index.ts:155 | The first line is a prefix of the input with no `\n`. It stops at the end, at a first `\n` that no `\r` precedes, or at the `\r` of a first `\r\n`. |
| Strings.ReplaceFirstOccurrence | src/index.ts:377-380 | `replace` with a string pattern replaces only the first occurrence. |
| Strings.ReplaceFirstWithoutOccurrence | src/index.ts:377-380 | Without an occurrence, `replace` leaves the string as it was. |
| Strings.DigitsValueOfNatToString | src/index.ts:129 | Parsing a printed id gives the id back. |

## Left out

- YAML and JSON parsing (`YAML.parse`, `JSON.parse`). Operations start from parsed records. A `JSON.parse` failure, including on an empty `config` input, is not modelled.
- Values of the wrong YAML or JSON type, such as a non-boolean `enable` or a non-string name, and `null` entries inside `commands`. Fields are typed.
- The transport and the HTTP status checks of the client. A remote failure that makes a request throw is not modelled, except `getComment` of an unknown id.
- Logging (`core.debug`, `core.info`, `core.warning`, `core.error`). `core.setFailed` becomes an outcome.
- The top-level `run()` of src/index.ts, src/handler/index.ts and src/handler/auto-grant.ts: reading the inputs, dispatching on the event name, and catching exceptions into `setFailed`. This is process plumbing.
- The workflow-dispatch block of `handleIssueComment` (src/index.ts:414-441). It calls helper methods that src/github-helper.ts does not define, so there is no behaviour to model.
- `getPermission`, `getIssue`, `getPull`, `getWorkflows`, `getWorkflowRunWithId`, `getCombinedCommitStatus` and `createWorkflowDispatch`. These are reads or unused writes. What a read returns is a parameter.
- `ListPRFiles` pagination and the single-page file fetch of the handlers. The file list is a parameter, and the handlers discard it anyway.
- micromatch semantics. Globbing is the parameter `glob`; micromatch is modelled as an order-preserving filter that keeps duplicates. Its de-duplication, negated patterns and options are not modelled.
- Special replacement patterns (`$&`, `$1`, `$$`) in `String.replace` replacement text. Replacement text is taken literally.
- `parseInt` beyond exact integers: a comment id is read as an unbounded natural number, with no floating-point rounding of very long digit strings.
- `Date.now`, `sleep` and `setTimeout`. The clock readings and poll results are parameters of the wait loop.
- CommandsHelper.ActorHasPermission: names that are `Object.prototype` properties (`toString`, `valueOf`, `constructor`, `__proto__`, …) are not modelled. The table lookup returns a function or an object for them rather than `undefined`, and `>=` on two of them compares their printed forms, so `("toString", "toString")` is true in the source and false here. The pipeline never passes such names, because validation limits `permission` to the six levels.
- GitHub.ContainPermission: the same `Object.prototype` names are not modelled. `("toString", "toString")` and `("toString", "constructor")` are true in the source and false here. GitHub returns one of the four levels, and validation limits the required permission to the six levels.
- UnknownLevelDenies (`GitHub.UnknownLevelDenies`) therefore holds of the source only for names that are not `Object.prototype` properties.
- Router.Route: the diagnostic fields of each handler-match record and the final logging loop are not modelled. The list is always empty anyway.
- WorkflowRunHandler.HandleWorkflowRun: the status description and a comment body are modelled as strings, so a null `status.description` (a TypeError in `match`) and a null comment body (printed as "null") are not modelled.
- src/handler/auto-label.ts (a no-op), src/utils/context.ts (environment reading), and src/config/*.ts and src/router/entry.ts (types only) have no behaviour to model. src/router/list.ts is `Router.ShippedList`.

## Code versus design

The model follows the code. These are the places where the code does not do
what its names and comments suggest:

- `formatWithArguments` builds the regex source `/\$i/g` with the slashes and
  flag inside the source (src/commands-helper.ts:39). So it replaces only the
  first literal `/$i/g`, and a bare `$1` is left as it is
  (`CommandsHelper.BarePlaceholderStaysVerbatim`).
- The body-update count lists `replace_issue_title_format` where
  `replace_issue_body_format` was evidently meant (src/index.ts:353). A command
  that replaces the title and edits the body is rejected
  (`Index.TitleReplacementCountsAsBodyUpdate`). A command with two body
  edits, one of them a replacement, is not rejected.
- `configIsValid` accepts `triage` and `maintain`. But the pipeline checks
  permissions with the four-level `containPermission`
  (src/index.ts:238), so such commands never run
  (`Index.TriageAndMaintainNeverQualify`).
- The `usage === null` check (src/inputs-helper.ts:99) can never fail,
  because defaulting has already turned null into "".
- `Array.concat` results are discarded in src/utils/files.ts:12-14,
  src/router/router.ts:107,182 and src/handler/index.ts:85 /
  src/handler/auto-grant.ts:97. As a result:
  - push file lists are always empty;
  - `route` always returns `[]`;
  - the handlers judge every label and status against no changed files.
- The push/pull-request condition of `route` tests `tagMatch` twice and never
  `typeMatch` (src/router/router.ts:106;
  `Router.PushOrPullEntryIgnoresAction` for every entry and event,
  `Router.PullRequestEntryIgnoresTypes` for an example).
- The shipped route list ends with `{}`. Its filter fields are `undefined`,
  which is `!== null`, so `route` throws on every event
  (`Router.ShippedListAlwaysThrows`).
