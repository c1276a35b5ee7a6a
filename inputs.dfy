/**
 * src/inputs-helper.ts: turning the parsed YAML configuration into command
 * definitions with defaults, and validating them.
 */
module InputsHelper {
  import opened Wrappers

  /** A command entry as it appears in the YAML document; `None` stands for a
      key that is missing or set to null (both give way to `??`). */
  datatype RawCommand = RawCommand(
    enable: Option<bool>,
    name: Option<string>,
    usage: Option<string>,
    help: Option<string>,
    args: Option<int>,
    issueType: Option<string>,
    permission: Option<string>,
    labelFormat: Option<string>,
    unlabelFormat: Option<string>,
    assigneeFormat: Option<string>,
    unassigneeFormat: Option<string>,
    requestReviewerFormat: Option<string>,
    unrequestReviewerFormat: Option<string>,
    prefixIssueTitleFormat: Option<string>,
    suffixIssueTitleFormat: Option<string>,
    removeIssueTitleFormat: Option<string>,
    replaceIssueTitleFormat: Option<string>,
    prefixIssueBodyFormat: Option<string>,
    suffixIssueBodyFormat: Option<string>,
    removeIssueBodyFormat: Option<string>,
    replaceIssueBodyFormat: Option<string>,
    workflowNameFormat: Option<string>)

  /** The top-level YAML document; `commands` is `None` when the key is absent. */
  datatype RawConfig = RawConfig(useReaction: Option<bool>, commands: Option<seq<RawCommand>>)

  /** A command definition after defaults; a format is `None` for null. */
  datatype Command = Command(
    enable: bool,
    name: string,
    usage: string,
    help: string,
    args: int,
    issueType: string,
    permission: string,
    labelFormat: Option<string>,
    unlabelFormat: Option<string>,
    assigneeFormat: Option<string>,
    unassigneeFormat: Option<string>,
    requestReviewerFormat: Option<string>,
    unrequestReviewerFormat: Option<string>,
    prefixIssueTitleFormat: Option<string>,
    suffixIssueTitleFormat: Option<string>,
    removeIssueTitleFormat: Option<string>,
    replaceIssueTitleFormat: Option<string>,
    prefixIssueBodyFormat: Option<string>,
    suffixIssueBodyFormat: Option<string>,
    removeIssueBodyFormat: Option<string>,
    replaceIssueBodyFormat: Option<string>,
    workflowNameFormat: Option<string>)

  datatype CommandsConfig = CommandsConfig(useReaction: bool, commands: seq<Command>)

  /** Why `getCommandsConfig` throws: the document is empty (YAML null) or
      has no `commands` list to iterate. */
  datatype ConfigError = EmptyDocument | CommandsNotIterable

  /** One entry with its defaults filled in. */
  function Defaulted(jc: RawCommand): Command
  {
    Command(
      jc.enable.GetOr(true), jc.name.GetOr(""), jc.usage.GetOr(""), jc.help.GetOr(""),
      jc.args.GetOr(0), jc.issueType.GetOr("issue"), jc.permission.GetOr("read"),
      jc.labelFormat, jc.unlabelFormat, jc.assigneeFormat, jc.unassigneeFormat,
      jc.requestReviewerFormat, jc.unrequestReviewerFormat,
      jc.prefixIssueTitleFormat, jc.suffixIssueTitleFormat, jc.removeIssueTitleFormat, jc.replaceIssueTitleFormat,
      jc.prefixIssueBodyFormat, jc.suffixIssueBodyFormat, jc.removeIssueBodyFormat, jc.replaceIssueBodyFormat,
      jc.workflowNameFormat)
  }

  /** The entry that writes out every field of a command explicitly. */
  function Explicit(cmd: Command): RawCommand
  {
    RawCommand(
      Some(cmd.enable), Some(cmd.name), Some(cmd.usage), Some(cmd.help),
      Some(cmd.args), Some(cmd.issueType), Some(cmd.permission),
      cmd.labelFormat, cmd.unlabelFormat, cmd.assigneeFormat, cmd.unassigneeFormat,
      cmd.requestReviewerFormat, cmd.unrequestReviewerFormat,
      cmd.prefixIssueTitleFormat, cmd.suffixIssueTitleFormat, cmd.removeIssueTitleFormat, cmd.replaceIssueTitleFormat,
      cmd.prefixIssueBodyFormat, cmd.suffixIssueBodyFormat, cmd.removeIssueBodyFormat, cmd.replaceIssueBodyFormat,
      cmd.workflowNameFormat)
  }

  /** Defaults only fill gaps: writing a command out in full and reading it
      back gives the same command. */
  lemma DefaultedOfExplicit(cmd: Command)
    ensures Defaulted(Explicit(cmd)) == cmd
  {
  }

  /** An entry that gives nothing: enabled, issues only, `read`, no arguments,
      no actions, and empty name, usage and help. */
  const EmptyEntry: RawCommand := RawCommand(None, None, None, None, None, None, None,
    None, None, None, None, None, None, None, None, None, None, None, None, None, None, None)

  /** `getCommandsConfig`: `use_reaction` defaults to true, and the entries are
      defaulted one by one, in order. */
  method GetCommandsConfig(yamlConfig: Option<RawConfig>) returns (r: Result<CommandsConfig, ConfigError>)
    ensures yamlConfig.None? ==> r == Failure(EmptyDocument)
    ensures yamlConfig.Some? && yamlConfig.value.commands.None? ==> r == Failure(CommandsNotIterable)
    ensures yamlConfig.Some? && yamlConfig.value.commands.Some? ==>
              r.Success?
              && r.value.useReaction == yamlConfig.value.useReaction.GetOr(true)
              && |r.value.commands| == |yamlConfig.value.commands.value|
              && forall i :: 0 <= i < |r.value.commands| ==>
                   r.value.commands[i] == Defaulted(yamlConfig.value.commands.value[i])
  {
    if yamlConfig.None? {
      return Failure(EmptyDocument);
    }
    var useReaction := yamlConfig.value.useReaction.GetOr(true);
    if yamlConfig.value.commands.None? {
      return Failure(CommandsNotIterable);
    }
    var raw := yamlConfig.value.commands.value;
    var commands: seq<Command> := [];
    for i := 0 to |raw|
      invariant |commands| == i
      invariant forall k :: 0 <= k < i ==> commands[k] == Defaulted(raw[k])
    {
      commands := commands + [Defaulted(raw[i])];
    }
    return Success(CommandsConfig(useReaction, commands));
  }

  const PermissionNames: seq<string> := ["none", "read", "triage", "write", "maintain", "admin"]
  const IssueTypeNames: seq<string> := ["issue", "pull_request", "both"]

  /** The checks of `configIsValid` for one command, in order; the message the
      first failing one reports. The check for a null `usage` can never fail,
      since defaulting turned null into "". */
  function FirstViolation(cmd: Command): (r: Option<string>)
    ensures r.None? <==> cmd.name != "" && cmd.help != ""
                         && (cmd.issueType == "issue" ==> cmd.workflowNameFormat.None?
                                                          && cmd.requestReviewerFormat.None?
                                                          && cmd.unrequestReviewerFormat.None?)
                         && cmd.permission in PermissionNames
                         && cmd.issueType in IssueTypeNames
                         && cmd.args <= 9
  {
    if cmd.name == "" then Some("command name is empty")
    else if cmd.help == "" then Some("command help message is empty")
    else if cmd.issueType == "issue" && cmd.workflowNameFormat.Some? then
      Some("command enabled on issues but have a workflow dispatch format")
    else if cmd.issueType == "issue" && cmd.requestReviewerFormat.Some? then
      Some("command enabled on issues but have a request reviewer format")
    else if cmd.issueType == "issue" && cmd.unrequestReviewerFormat.Some? then
      Some("command enabled on issues but have a unrequest reviewer format")
    else if cmd.permission !in PermissionNames then
      Some("'" + cmd.permission + "' is not a valid 'permission'.")
    else if cmd.issueType !in IssueTypeNames then
      Some("'" + cmd.issueType + "' is not a valid 'issue-type'.")
    else if cmd.args > 9 then Some("The maximum number of arguments is 9")
    else None
  }

  /** `configIsValid`: stops at the first command that fails a check and
      reports (through `setFailed`) that check's message. */
  method ConfigIsValid(config: CommandsConfig) returns (valid: bool, failedMessage: Option<string>)
    ensures valid <==> forall i :: 0 <= i < |config.commands| ==> FirstViolation(config.commands[i]).None?
    ensures valid ==> failedMessage.None?
    ensures !valid ==> exists i :: 0 <= i < |config.commands|
                                   && (forall k :: 0 <= k < i ==> FirstViolation(config.commands[k]).None?)
                                   && failedMessage == FirstViolation(config.commands[i])
                                   && failedMessage.Some?
  {
    for i := 0 to |config.commands|
      invariant forall k :: 0 <= k < i ==> FirstViolation(config.commands[k]).None?
    {
      var violation := FirstViolation(config.commands[i]);
      if violation.Some? {
        return false, violation;
      }
    }
    return true, None;
  }

  /** An entry with only a name and a help text is a valid command that is
      enabled on issues, for `read`, with no arguments. */
  lemma NameAndHelpSuffice(name: string, help: string)
    requires name != "" && help != ""
    ensures var cmd := Defaulted(EmptyEntry.(name := Some(name), help := Some(help)));
            FirstViolation(cmd).None? && cmd.enable && cmd.issueType == "issue"
            && cmd.permission == "read" && cmd.args == 0 && cmd.usage == ""
  {
  }

  /** A reviewer request needs an explicit `issue_type`: with the default
      (issues) the command is rejected. */
  lemma ReviewerFormatNeedsIssueType(jc: RawCommand)
    requires jc.name.Some? && jc.name.value != "" && jc.help.Some? && jc.help.value != ""
    requires jc.issueType.None? && jc.requestReviewerFormat.Some?
    ensures FirstViolation(Defaulted(jc)).Some?
  {
  }

  /** The largest accepted argument count is 9. */
  lemma ArgumentBound(cmd: Command)
    requires cmd.name != "" && cmd.help != "" && cmd.issueType == "both" && cmd.permission == "write"
    ensures FirstViolation(cmd).None? <==> cmd.args <= 9
  {
  }
}
