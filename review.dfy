/** The review-app commands: deploying, deleting and listing review apps of a review group, and
    running a command in the review app of a branch. */
module Review {
  import opened Wrappers
  import opened Operation
  import opened ApiTypes
  import opened Effects
  import opened SshSession
  import opened Oneoff
  import Strings

  function ReviewAppsPath(groupName: string): string {
    "/review_groups/" + groupName + "/apps"
  }

  /** Where DeployReviewApp.Execute POSTs: the group's apps, or with a review-group token the
      group's CI path for that token. */
  function DeployPath(groupName: string, token: string): string {
    if token == "" then ReviewAppsPath(groupName)
    else "/review_groups/" + groupName + "/ci/apps/" + token
  }

  /** Where `review delete` sends its DELETE, by the same rule. */
  function DeletePath(groupName: string, token: string, name: string): string {
    if token == "" then "/review_groups/" + groupName + "/apps/" + name
    else "/review_groups/" + groupName + "/ci/apps/" + token + "/" + name
  }

  /** With and without a token the paths differ, and both start in the group's namespace. */
  lemma PathsByToken(groupName: string, token: string, name: string)
    requires token != ""
    ensures DeployPath(groupName, token) != DeployPath(groupName, "")
    ensures DeletePath(groupName, token, name) != DeletePath(groupName, "", name)
    ensures var prefix := "/review_groups/" + groupName + "/";
            && prefix <= DeployPath(groupName, token) && prefix <= DeployPath(groupName, "")
            && prefix <= DeletePath(groupName, token, name) && prefix <= DeletePath(groupName, "", name)
  {
    var n := |"/review_groups/" + groupName + "/"|;
    assert DeployPath(groupName, token)[n] == 'c' && DeployPath(groupName, "")[n] == 'a';
    assert DeletePath(groupName, token, name)[n] == 'c' && DeletePath(groupName, "", name)[n] == 'a';
  }

  /** The index of the first app whose subject is the branch, or |apps| when there is none. */
  function FirstSubject(apps: seq<ReviewApp>, branchName: string): (k: nat)
    ensures k <= |apps|
    ensures forall i :: 0 <= i < k ==> apps[i].subject != branchName
    ensures k < |apps| ==> apps[k].subject == branchName
  {
    if |apps| == 0 || apps[0].subject == branchName then 0 else 1 + FirstSubject(apps[1..], branchName)
  }

  /** getHeritageName (review.go): the heritage of the first app for the branch, or "" when no app
      is for the branch. */
  method GetHeritageName(branchName: string, apps: seq<ReviewApp>) returns (heritageName: string)
    ensures FirstSubject(apps, branchName) < |apps| ==> heritageName == apps[FirstSubject(apps, branchName)].heritageName
    ensures (forall i :: 0 <= i < |apps| ==> apps[i].subject != branchName) ==> heritageName == ""
  {
    heritageName := "";
    var i := 0;
    while i < |apps|
      invariant 0 <= i <= |apps|
      invariant forall j :: 0 <= j < i ==> apps[j].subject != branchName
      invariant heritageName == ""
    {
      if apps[i].subject == branchName {
        heritageName := apps[i].heritageName;
        assert FirstSubject(apps, branchName) == i;
        break;
      }
      i := i + 1;
    }
  }

  /** getGroupName: the group of the review definition, or the error loading it. */
  function GetGroupName(definition: Result<ReviewAppDefinition>): (r: Result<string>)
    ensures definition.Ok? ==> r == Ok(definition.value.groupName)
    ensures definition.Err? ==> r == Err(definition.error)
  {
    match definition
    case Ok(d) => Ok(d.groupName)
    case Err(e) => Err(e)
  }

  /** getReviewApps: the apps the group's GET returns, or its error. */
  function GetReviewApps(reply: Reply<seq<ReviewApp>>): (r: Result<seq<ReviewApp>>)
    ensures reply.Decoded? ==> r == Ok(reply.value)
    ensures !reply.Decoded? ==> r == Err(ReplyError(reply).value)
  {
    match reply
    case Decoded(apps) => Ok(apps)
    case Failed(e) => Err(e)
    case Undecodable(e) => Err(e)
  }

  /** The retention a deployment asks for, in seconds: a day when the flag is empty, otherwise
      the parsed duration. `parseSeconds` stands for time.ParseDuration followed by truncation
      of its seconds. */
  function Retention(retention: string, parseSeconds: string -> Result<int>): (r: Result<int>)
    ensures retention == "" ==> r == Ok(86400)
    ensures retention != "" ==> r == parseSeconds(retention)
  {
    if retention == "" then Ok(24 * 3600) else parseSeconds(retention)
  }

  /** DeployReviewApp.Execute, after the command built the request: one POST, then the domain of
      the deployed app is printed. */
  function DeployExecute(request: ReviewAppRequest, token: string, reply: Reply<ReviewApp>): (t: Trace<CliError>)
    ensures t.calls == [Call("POST", DeployPath(request.definition.groupName, token), ReviewAppBody(request))]
    ensures !reply.Decoded? ==> t.result == ExitError(ReplyError(reply).value, 1) && t.out == []
    ensures reply.Decoded? ==> t.result == NoError && t.out == ["Domain: " + reply.value.domain + "\n"]
  {
    var calls := [Call("POST", DeployPath(request.definition.groupName, token), ReviewAppBody(request))];
    match reply
    case Failed(e) => Trace(ExitError(e, 1), calls, [])
    case Undecodable(e) => Trace(ExitError(e, 1), calls, [])
    case Decoded(app) => Trace(NoError, calls, ["Domain: " + app.domain + "\n"])
  }

  /** `review deploy`: the retention, then the review definition, then the request that carries
      the definition, the subject, the retention and the image tag. */
  function Deploy(subject: string, tag: string, token: string, retention: string,
                  parseSeconds: string -> Result<int>, definition: Result<ReviewAppDefinition>,
                  reply: Reply<ReviewApp>): (t: Trace<CliError>)
    ensures Retention(retention, parseSeconds).Err? ==>
              t == Trace(ExitError(Retention(retention, parseSeconds).error, 1), [], [])
    ensures Retention(retention, parseSeconds).Ok? && definition.Err? ==>
              t == Trace(ExitError(definition.error, 1), [], [])
    ensures Retention(retention, parseSeconds).Ok? && definition.Ok? ==>
              t == DeployExecute(ReviewAppRequest(definition.value, subject, Retention(retention, parseSeconds).value, tag),
                                 token, reply)
  {
    match Retention(retention, parseSeconds)
    case Err(e) => Trace(ExitError(e, 1), [], [])
    case Ok(seconds) =>
      match definition
      case Err(e) => Trace(ExitError(e, 1), [], [])
      case Ok(d) => DeployExecute(ReviewAppRequest(d, subject, seconds, tag), token, reply)
  }

  /** A deployment without a retention flag keeps the app for a day. */
  lemma DeployDefaultRetention(subject: string, tag: string, token: string, parseSeconds: string -> Result<int>,
                               d: ReviewAppDefinition, reply: Reply<ReviewApp>)
    ensures Deploy(subject, tag, token, "", parseSeconds, Ok(d), reply).calls ==
            [Call("POST", DeployPath(d.groupName, token), ReviewAppBody(ReviewAppRequest(d, subject, 86400, tag)))]
  {
  }

  /** `review delete`: one DELETE, whose error is the command's. */
  function Delete(name: string, token: string, groupName: string, reply: Outcome): (t: Trace<CliError>)
    ensures t.calls == [Call("DELETE", DeletePath(groupName, token, name), NoBody)] && t.out == []
    ensures t.result == if reply.Fail? then ExitError(reply.error, 1) else NoError
  {
    var call := Call("DELETE", DeletePath(groupName, token, name), NoBody);
    if reply.Fail? then Trace(ExitError(reply.error, 1), [call], []) else Trace(NoError, [call], [])
  }

  /** `review list`: the group from the flag or else from the review definition, then its apps.
      Rendering the table is not modelled. */
  function List(groupName: string, definition: Result<ReviewAppDefinition>, reply: Reply<seq<ReviewApp>>): (t: Trace<CliError>)
    ensures groupName == "" && definition.Err? ==> t == Trace(ExitError(definition.error, 1), [], [])
    ensures groupName != "" || definition.Ok? ==>
              var g := if groupName != "" then groupName else definition.value.groupName;
              && t.calls == [Call("GET", ReviewAppsPath(g), NoBody)]
              && t.result == if reply.Decoded? then NoError else ExitError(ReplyError(reply).value, 1)
  {
    if groupName == "" && definition.Err? then Trace(ExitError(definition.error, 1), [], [])
    else
      var g := if groupName != "" then groupName else definition.value.groupName;
      var call := Call("GET", ReviewAppsPath(g), NoBody);
      match GetReviewApps(reply)
      case Err(e) => Trace(ExitError(e, 1), [call], [])
      case Ok(_) => Trace(NoError, [call], [])
  }

  /** The parameters `review run` creates its task with: interactive, no environment variables,
      the arguments joined by spaces, neither memory nor user. */
  function RunParams(args: seq<string>): (p: OneoffParams)
    ensures p.interactive && p.envVars == map[] && p.command == Strings.Join(args, " ")
    ensures p.memory.None? && p.user.None?
  {
    OneoffParams(true, Strings.Join(args, " "), map[], None, None)
  }

  /** How `review run` ends: with the command's error value, or still polling. */
  datatype Finish = Done(error: CliError) | Polling

  /** The command's end once connecting ends: a connection error exits with code 1. */
  function FinishOf(c: Connection): Finish {
    match c
    case StillPolling => Polling
    case Returned(Pass) => Done(NoError)
    case Returned(Fail(e)) => Done(ExitError(e, 1))
  }

  /** `review run`: the branch's heritage, found among the group's apps, is connected to without
      detaching; no app for the branch, or one without a heritage name, stops before any POST. */
  method Run(branchName: string, args: seq<string>, definition: Result<ReviewAppDefinition>,
             appsReply: Reply<seq<ReviewApp>>, postReply: Reply<OneoffResponse>, polls: seq<Reply<OneoffResponse>>,
             config: SshConfig, runner: CommandRunner, store: FileStore, console: Console)
    returns (f: Finish, calls: seq<Call>, sleeps: nat, c: Option<Connection>)
    modifies store`files, runner`invocations, console`out
    ensures definition.Err? ==> f == Done(ExitError(definition.error, 1)) && calls == []
    ensures definition.Ok? ==> |calls| >= 1 && calls[0] == Call("GET", ReviewAppsPath(definition.value.groupName), NoBody)
    ensures definition.Ok? && !appsReply.Decoded? ==> f == Done(ExitError(ReplyError(appsReply).value, 1)) && |calls| == 1
    ensures definition.Ok? && appsReply.Decoded? ==>
              var apps := appsReply.value;
              var k := FirstSubject(apps, branchName);
              var heritageName := if k < |apps| then apps[k].heritageName else "";
              && (heritageName == "" ==> f == Done(ExitError("heritage is not found", 1)) && |calls| == 1)
              && (heritageName != "" ==>
                    && c.Some?
                    && Connected(RunParams(args), heritageName, false, postReply, polls, config,
                                 runner, store, console, c.value, calls[1..], sleeps)
                    && f == FinishOf(c.value))
    ensures c.None? ==> OnlyPrinted(runner, store, console, [])
    ensures (definition.Err? || !appsReply.Decoded? || |calls| == 1) ==> c.None?
  {
    sleeps, calls, c := 0, [], None;
    var group := GetGroupName(definition);
    if group.Err? {
      return Done(ExitError(group.error, 1)), calls, sleeps, c;
    }
    calls := [Call("GET", ReviewAppsPath(group.value), NoBody)];
    var apps := GetReviewApps(appsReply);
    if apps.Err? {
      return Done(ExitError(apps.error, 1)), calls, sleeps, c;
    }
    var heritageName := GetHeritageName(branchName, apps.value);
    if heritageName == "" {
      return Done(ExitError("heritage is not found", 1)), calls, sleeps, c;
    }
    var connection, connectCalls;
    connection, connectCalls, sleeps := ConnectToHeritage(RunParams(args), heritageName, false, postReply, polls,
                                                          config, runner, store, console);
    calls := calls + connectCalls;
    assert calls[1..] == connectCalls;
    f, c := FinishOf(connection), Some(connection);
  }
}
