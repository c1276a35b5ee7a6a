/**
 * src/router/router.ts: the event router. The route entries (src/router/list.ts
 * in the source) and the pull request's changed files are parameters.
 */
module Router {
  import opened Wrappers
  import opened Strings
  import opened MatchUtil
  import opened FilesUtil

  /** A configuration field that can be missing (`undefined`), `null`, or set.
      The router tests the six filter fields with `!== null`, which tells the
      first two apart; everywhere else both are falsy. */
  datatype Field<T> = Absent | Null | Present(value: T)
  {
    function AsOption(): Option<T>
    {
      if Present? then Some(value) else None
    }
  }

  datatype HandlerEntry = HandlerEntry(name: string)

  datatype RouterEntry = RouterEntry(
    eventName: Option<string>,
    types: Option<seq<string>>,
    branches: Field<seq<string>>,
    branchIgnores: Field<seq<string>>,
    tags: Field<seq<string>>,
    tagIgnores: Field<seq<string>>,
    paths: Field<seq<string>>,
    pathIgnores: Field<seq<string>>,
    handlerEntries: seq<HandlerEntry>)

  /** The parts of `payload.pull_request` the router reads (`head.ref` and `sha`). */
  datatype PullRequestPayload = PullRequestPayload(headRef: Option<string>, sha: Option<string>)

  /** The inbound event: its name, action, and the payload fields the router reads. */
  datatype EventContext = EventContext(
    eventName: string,
    action: Option<string>,
    ref: Option<string>,
    after: Option<string>,
    pullRequest: Option<PullRequestPayload>,
    commits: seq<Commit>)

  /** One record of `handlerMatchResults` (the diagnostic fields are not modelled). */
  datatype HandlerMatch = HandlerMatch(handlerEntry: HandlerEntry, eventName: string, typeMatched: Option<string>)

  datatype RouteError =
    | TypesWithoutAction
    | RefNotString
    | UnresolvableRef
    | FileMatchFailed(cause: FilesError)
    | FiltersOnOtherEvent(eventName: Option<string>)

  /** JavaScript truthiness of an optional string: set and non-empty. */
  predicate Truthy(s: Option<string>)
  {
    s.Some? && s.value != ""
  }

  predicate IsPushOrPull(eventName: Option<string>)
  {
    eventName == Some("push") || eventName == Some("pull_request")
  }

  predicate HasFilters(e: RouterEntry)
  {
    !e.branches.Null? || !e.branchIgnores.Null? || !e.tags.Null?
    || !e.tagIgnores.Null? || !e.paths.Null? || !e.pathIgnores.Null?
  }

  predicate TypeMatches(e: RouterEntry, ctx: EventContext)
  {
    e.types.None? || (Truthy(ctx.action) && ctx.action.value in e.types.value)
  }

  /** The changed-file match for the event, as `CheckPushOrPullFileMatch` computes it. */
  function FileMatch(e: RouterEntry, ctx: EventContext, prFiles: seq<string>, glob: Glob): Result<MatchResult, FilesError>
  {
    if ctx.eventName == "push" then Success(Match(Some([]), e.paths.AsOption(), e.pathIgnores.AsOption(), glob))
    else if ctx.eventName == "pull_request" then Success(Match(Some(prFiles), e.paths.AsOption(), e.pathIgnores.AsOption(), glob))
    else Failure(NeitherPushNorPullRequest(ctx.eventName))
  }

  function BranchOf(e: RouterEntry, ctx: EventContext): Option<string>
    requires e.eventName == Some("push") ==> ctx.ref.Some?
  {
    if e.eventName == Some("push") then Some(ReplaceFirst(ctx.ref.value, "refs/heads/", ""))
    else if ctx.pullRequest.Some? then ctx.pullRequest.value.headRef
    else None
  }

  function TagOf(e: RouterEntry, ctx: EventContext): Option<string>
    requires e.eventName == Some("push") ==> ctx.ref.Some?
  {
    if e.eventName == Some("push") then Some(ReplaceFirst(ctx.ref.value, "refs/tags/", "")) else None
  }

  function ShaOf(e: RouterEntry, ctx: EventContext): Option<string>
  {
    if e.eventName == Some("push") then ctx.after
    else if ctx.pullRequest.Some? then ctx.pullRequest.value.sha
    else None
  }

  function Candidate(s: Option<string>): Option<seq<string>>
  {
    if Truthy(s) then Some([s.value]) else None
  }

  /** What one loop iteration of `route` does with one entry: throw, or decide
      whether the entry qualifies. Push and pull-request entries are judged by
      the ENTRY's event name and never consult the action type. */
  function EntryOutcome(e: RouterEntry, ctx: EventContext, prFiles: seq<string>, glob: Glob): (r: Result<bool, RouteError>)
    ensures r.Success? && r.value ==> e.eventName == Some(ctx.eventName)
    ensures e.types.Some? && !Truthy(ctx.action) ==> r == Failure(TypesWithoutAction)
    ensures !IsPushOrPull(e.eventName) && r.Success? ==> !HasFilters(e) && (r.value <==> e.eventName == Some(ctx.eventName) && TypeMatches(e, ctx))
    ensures !IsPushOrPull(e.eventName) && e.types.None? ==> (r.Success? <==> !HasFilters(e))
    ensures IsPushOrPull(e.eventName) && (e.types.None? || Truthy(ctx.action)) ==>
              (r == Failure(RefNotString) <==> e.eventName == Some("push") && ctx.ref.None?)
    ensures IsPushOrPull(e.eventName) && (e.types.None? || Truthy(ctx.action))
            && (e.eventName == Some("push") ==> ctx.ref.Some?) ==>
              (r == Failure(UnresolvableRef) <==>
                 (!Truthy(BranchOf(e, ctx)) && !Truthy(TagOf(e, ctx))) || !Truthy(ShaOf(e, ctx)))
    ensures IsPushOrPull(e.eventName) && r.Success? ==>
              (e.eventName == Some("push") ==> ctx.ref.Some?)
              && FileMatch(e, ctx, prFiles, glob).Success?
              && (r.value <==>
                    e.eventName == Some(ctx.eventName)
                    && Match(Candidate(BranchOf(e, ctx)), e.branches.AsOption(), e.branchIgnores.AsOption(), glob).matched
                    && Match(Candidate(TagOf(e, ctx)), e.tags.AsOption(), e.tagIgnores.AsOption(), glob).matched
                    && FileMatch(e, ctx, prFiles, glob).value.matched)
  {
    var eventNameMatch := e.eventName == Some(ctx.eventName);
    if e.types.Some? && !Truthy(ctx.action) then Failure(TypesWithoutAction)
    else if IsPushOrPull(e.eventName) then
      if e.eventName == Some("push") && ctx.ref.None? then Failure(RefNotString)
      else
        var branch := BranchOf(e, ctx);
        var tag := TagOf(e, ctx);
        var sha := ShaOf(e, ctx);
        if (!Truthy(branch) && !Truthy(tag)) || !Truthy(sha) then Failure(UnresolvableRef)
        else
          var branchMatch := Match(Candidate(branch), e.branches.AsOption(), e.branchIgnores.AsOption(), glob).matched;
          var tagMatch := Match(Candidate(tag), e.tags.AsOption(), e.tagIgnores.AsOption(), glob).matched;
          match FileMatch(e, ctx, prFiles, glob)
          case Failure(err) => Failure(FileMatchFailed(err))
          case Success(fileMatch) => Success(eventNameMatch && branchMatch && tagMatch && fileMatch.matched)
    else if HasFilters(e) then Failure(FiltersOnOtherEvent(e.eventName))
    else Success(eventNameMatch && TypeMatches(e, ctx))
  }

  /** A push or pull-request entry never consults the action type: once the
      action is set (so the types check cannot throw), replacing it by any
      other set action changes nothing. */
  lemma PushOrPullEntryIgnoresAction(e: RouterEntry, ctx: EventContext, a: string, prFiles: seq<string>, glob: Glob)
    requires IsPushOrPull(e.eventName) && Truthy(ctx.action) && a != ""
    ensures EntryOutcome(e, ctx, prFiles, glob) == EntryOutcome(e, ctx.(action := Some(a)), prFiles, glob)
  {
  }

  /** `route(context)`: walks the entries in order and throws at the first entry
      that is misconfigured for this event. Each qualifying entry's results are
      built with `concat`, whose result is discarded, so the returned list is
      always empty. */
  method Route(ctx: EventContext, entries: seq<RouterEntry>, prFiles: seq<string>, glob: Glob)
    returns (r: Result<seq<HandlerMatch>, RouteError>)
    ensures r.Success? <==> forall j :: 0 <= j < |entries| ==> EntryOutcome(entries[j], ctx, prFiles, glob).Success?
    ensures r.Success? ==> r.value == []
    ensures r.Failure? ==> exists i :: 0 <= i < |entries|
                                && (forall j :: 0 <= j < i ==> EntryOutcome(entries[j], ctx, prFiles, glob).Success?)
                                && EntryOutcome(entries[i], ctx, prFiles, glob) == Failure(r.error)
  {
    var handlerMatchResults: seq<HandlerMatch> := [];
    var i := 0;
    while i < |entries|
      invariant 0 <= i <= |entries|
      invariant forall j :: 0 <= j < i ==> EntryOutcome(entries[j], ctx, prFiles, glob).Success?
    {
      var entry := entries[i];
      var qualifies := RouteEntry(ctx, entry, prFiles, glob);
      if qualifies.Failure? {
        return Failure(qualifies.error);
      }
      if qualifies.value {
        // the result of `concat` is discarded
        var _ := handlerMatchResults + seq(|entry.handlerEntries|, k requires 0 <= k < |entry.handlerEntries| =>
                                             HandlerMatch(entry.handlerEntries[k], ctx.eventName, ctx.action));
      }
      i := i + 1;
    }
    r := Success(handlerMatchResults);
  }

  /** The body of the loop of `route` for one entry: throws, or says whether
      the entry's handlers are to be added. */
  method RouteEntry(ctx: EventContext, entry: RouterEntry, prFiles: seq<string>, glob: Glob)
    returns (r: Result<bool, RouteError>)
    ensures r == EntryOutcome(entry, ctx, prFiles, glob)
  {
    var eventNameMatch := false;
    var typeMatch := false;
    var branchMatch := false;
    var tagMatch := false;
    var pathMatch := false;
    if entry.eventName == Some(ctx.eventName) {
      eventNameMatch := true;
    }
    if entry.types.Some? && !Truthy(ctx.action) {
      return Failure(TypesWithoutAction);
    } else if entry.types.None? || (Truthy(ctx.action) && ctx.action.value in entry.types.value) {
      typeMatch := true;
    }
    if entry.eventName == Some("push") || entry.eventName == Some("pull_request") {
      var branch: Option<string>;
      var tag: Option<string>;
      var sha: Option<string>;
      if entry.eventName == Some("push") {
        if ctx.ref.None? {
          // `(payload.ref as string).replace(...)` on a missing ref is a TypeError
          return Failure(RefNotString);
        }
        branch := Some(ReplaceFirst(ctx.ref.value, "refs/heads/", ""));
        tag := Some(ReplaceFirst(ctx.ref.value, "refs/tags/", ""));
        sha := ctx.after;
      } else {
        branch := if ctx.pullRequest.Some? then ctx.pullRequest.value.headRef else None;
        tag := None;
        sha := if ctx.pullRequest.Some? then ctx.pullRequest.value.sha else None;
      }
      if (!Truthy(branch) && !Truthy(tag)) || !Truthy(sha) {
        return Failure(UnresolvableRef);
      }
      var branchMatchResult := Match(Candidate(branch), entry.branches.AsOption(), entry.branchIgnores.AsOption(), glob);
      branchMatch := branchMatchResult.matched;
      var tagMatchResult := Match(Candidate(tag), entry.tags.AsOption(), entry.tagIgnores.AsOption(), glob);
      tagMatch := tagMatchResult.matched;
      var fileMatchResult := CheckPushOrPullFileMatch(ctx.eventName, ctx.commits, prFiles,
                                                      entry.paths.AsOption(), entry.pathIgnores.AsOption(), glob);
      if fileMatchResult.Failure? {
        return Failure(FileMatchFailed(fileMatchResult.error));
      }
      pathMatch := fileMatchResult.value.matched;
      return Success(eventNameMatch && tagMatch && branchMatch && tagMatch && pathMatch);
    } else if !entry.branches.Null? || !entry.branchIgnores.Null? || !entry.tags.Null?
           || !entry.tagIgnores.Null? || !entry.paths.Null? || !entry.pathIgnores.Null? {
      return Failure(FiltersOnOtherEvent(entry.eventName));
    }
    return Success(eventNameMatch && typeMatch);
  }

  /** The entry list the source ships: a pull-request entry for 'opened' that
      runs the auto-label handler, followed by an empty object literal. */
  const ShippedList: seq<RouterEntry> := [
    RouterEntry(Some("pull_request"), Some(["opened"]), Null, Null, Null, Null, Null, Null,
                [HandlerEntry("auto-label")]),
    RouterEntry(None, None, Absent, Absent, Absent, Absent, Absent, Absent, [])
  ]

  /** The shipped list's empty entry has undefined filters, which are `!== null`,
      so routing with the shipped list throws on every event. */
  lemma ShippedListAlwaysThrows(ctx: EventContext, prFiles: seq<string>, glob: Glob)
    ensures !(forall j :: 0 <= j < |ShippedList| ==> EntryOutcome(ShippedList[j], ctx, prFiles, glob).Success?)
  {
    assert EntryOutcome(ShippedList[1], ctx, prFiles, glob) == Failure(FiltersOnOtherEvent(None));
  }

  /** A pull-request entry whose types do not contain the event's action still
      qualifies: the push/pull-request condition leaves out `typeMatch`. */
  lemma PullRequestEntryIgnoresTypes(prFiles: seq<string>, glob: Glob)
    ensures var e := RouterEntry(Some("pull_request"), Some(["opened"]), Null, Null, Null, Null, Null, Null, []);
            var ctx := EventContext("pull_request", Some("closed"), None, None,
                                    Some(PullRequestPayload(Some("feature"), Some("abc123"))), []);
            !TypeMatches(e, ctx) && EntryOutcome(e, ctx, prFiles, glob) == Success(true)
  {
  }

  /** A pull-request entry that filters only on branches matches whatever files
      the pull request changes. */
  lemma BranchFilterIgnoresChangedFiles(prFiles: seq<string>, glob: Glob)
    requires glob("main", "main")
    ensures var e := RouterEntry(Some("pull_request"), None, Present(["main"]), Null, Null, Null, Null, Null, []);
            var ctx := EventContext("pull_request", Some("opened"), None, None,
                                    Some(PullRequestPayload(Some("main"), Some("abc123"))), []);
            EntryOutcome(e, ctx, prFiles, glob) == Success(true)
  {
    assert MatchesAny(glob, ["main"], "main");
  }

  /** A push entry throws on any other event whose payload has no ref. */
  lemma PushEntryOnRefLessEventThrows(e: RouterEntry, ctx: EventContext, prFiles: seq<string>, glob: Glob)
    requires e.eventName == Some("push") && ctx.ref.None? && (e.types.None? || Truthy(ctx.action))
    ensures EntryOutcome(e, ctx, prFiles, glob) == Failure(RefNotString)
  {
  }
}
