/** `PRCreator`: opening a pull request with the GitHub CLI, falling back to
    the REST API when a token is given. The commands `exec` runs and the
    request `https` sends are answered by an `Environment`, which records
    every call; the `logger` is a sequence of lines the methods append to.
    Each method is specified by a function of what the environment
    answers, and the lemmas below are about those functions. */
module PrCreation {
  import opened Wrappers
  import opened Text
  import opened RemoteUrl

  /** What `exec` reports for a command: its standard output, or the
      message of the error it rejects with. */
  datatype ExecResult = ExecOk(stdout: string) | ExecErr(message: string)

  /** The parsed JSON body of an API response: its `html_url` and its
      `message`, each `None` when the body lacks it. */
  datatype ApiJson = ApiJson(htmlUrl: Option<string>, message: Option<string>)

  /** What an HTTPS request comes to: a request error, or a response with
      its status code and its body as `JSON.parse` reads it — or the error
      `JSON.parse` throws. */
  datatype ApiReply =
    | RequestError(message: string)
    | Response(statusCode: int, body: Result<ApiJson>)

  /** The pull request fields the request body carries. */
  datatype PrFields = PrFields(title: string, body: string, head: string, base: string)

  /** The request `createPRWithAPI` sends. */
  datatype ApiRequest = ApiRequest(hostname: string, path: string, httpMethod: string,
                                   contentType: string, userAgent: string,
                                   authorization: string, fields: PrFields)

  /** A call to the outside: a shell command with its working directory
      (`None`: the current one), or an API request. */
  datatype Call = ExecCall(command: string, cwd: Option<string>) | ApiCall(request: ApiRequest)

  /** The object an attempt resolves with; `Success()` is its `success`
      field. */
  datatype PrResult =
    | CliCreated(url: string, output: string)
    | CliFailed(error: string)
    | ManualInstructions(error: string)
    | ApiCreated(htmlUrl: Option<string>, data: ApiJson)
    | ApiFailed(message: Option<string>, statusCode: int, data: ApiJson)
  {
    predicate Success()
    {
      CliCreated? || ApiCreated?
    }
  }

  /** How an attempt's promise settles. */
  datatype Outcome = Resolved(result: PrResult) | Rejected(error: string)

  /** What a step returns, the lines it logs and the calls it makes. */
  datatype Effect<T> = Effect(value: T, lines: seq<Message>, calls: seq<Call>)

  /** The options of `createPR`. A field that is `None` is absent. */
  datatype PrRequest = PrRequest(repoDir: string, head: string, base: string, title: string,
                                 body: string, token: Option<string>, owner: Option<string>,
                                 repo: Option<string>)

  /** What `createPR` settles with, the owner and repository its options
      hold afterwards, the lines it logs and the calls it makes. */
  datatype CreateRun = CreateRun(outcome: Outcome, owner: Option<string>, repo: Option<string>,
                                 lines: seq<Message>, calls: seq<Call>)

  const GhVersion: string := "gh --version"
  const GetRemoteUrl: string := "git remote get-url origin"
  const NotAvailableError: string := "GitHub CLI not available in PATH. See instructions above."
  const ApiHost: string := "api.github.com"
  const UserAgent: string := "Dev-Productivity-Git-Tool"

  /** The JavaScript truth value of an optional string: present and
      non-empty. */
  predicate Truthy(o: Option<string>)
  {
    o.Some? && o.value != ""
  }

  /** A value as a template literal shows it. */
  function Show(o: Option<string>): string
  {
    if o.Some? then o.value else "undefined"
  }

  /** The command that creates the pull request. */
  function CreateCommand(base: string, head: string, title: string, body: string): string
  {
    "gh pr create --base " + base + " --head " + head + " --title \"" + title + "\" --body \"" + body + "\""
  }

  /** What the methods pass to the logger, one value per call; `LogLine`
      gives the line the logger receives. */
  datatype Message =
    | UsingCli(head: string, base: string)
    | CliNotInPath | CliOptions | CliInstall | CliRestart | CliLogin | CliManualForNow
    | CliCreatedPr(url: string)
    | CliFailedWith(error: string)
    | CliNotAuthenticated | CliRunAuthLogin
    | UsingApi(head: string, base: string)
    | ApiCreatedPr(htmlUrl: Option<string>)
    | ApiFailedWith(apiMessage: Option<string>)
    | ApiParseError(error: string)
    | ApiRequestError(error: string)
    | DetailsFailed(error: string)
    | WebAlternative | VisitRepository | ClickPullRequests | ClickNewPullRequest
    | SelectBase(base: string) | SelectCompare(head: string) | FillInAndCreate
    | FallingBack
    | NoRepoDetails

  /** The line logged for each message. */
  function LogLine(m: Message): string
  {
    match m
    case UsingCli(head, base) => "Creating PR from " + head + " to " + base + " using GitHub CLI"
    case CliNotInPath => "GitHub CLI (gh) is not available in the current PATH."
    case CliOptions => "You have the following options:"
    case CliInstall => "1. Install GitHub CLI: winget install --id GitHub.cli"
    case CliRestart => "2. Restart your computer after installation to update PATH"
    case CliLogin => "3. After restarting, run \"gh auth login\" to authenticate"
    case CliManualForNow => "For now, you can create a PR manually on GitHub."
    case CliCreatedPr(url) => "Successfully created PR: " + url
    case CliFailedWith(e) => "Failed to create PR with GitHub CLI: " + e
    case CliNotAuthenticated => "GitHub CLI is installed but not authenticated."
    case CliRunAuthLogin => "Please run \"gh auth login\" in a terminal and follow the prompts."
    case UsingApi(head, base) => "Creating PR from " + head + " to " + base + " using GitHub API"
    case ApiCreatedPr(u) => "Successfully created PR: " + Show(u)
    case ApiFailedWith(e) => "Failed to create PR: " + Show(e)
    case ApiParseError(e) => "Error parsing API response: " + e
    case ApiRequestError(e) => "Error creating PR with API: " + e
    case DetailsFailed(e) => "Failed to get repository details: " + e
    case WebAlternative => "\nAlternative: Use GitHub web interface to create PR manually"
    case VisitRepository => "1. Visit GitHub repository in your browser"
    case ClickPullRequests => "2. Click \"Pull requests\" tab"
    case ClickNewPullRequest => "3. Click \"New pull request\" button"
    case SelectBase(base) => "4. Select base branch: " + base
    case SelectCompare(head) => "5. Select compare branch: " + head
    case FillInAndCreate => "6. Fill in the title and description and create the PR"
    case FallingBack => "Falling back to GitHub API for PR creation"
    case NoRepoDetails => "Cannot determine repository owner/name for API fallback."
  }

  /** The lines logged when `gh` is missing. */
  const UnavailableHelp: seq<Message> :=
    [CliNotInPath, CliOptions, CliInstall, CliRestart, CliLogin, CliManualForNow]

  /** The lines logged after a failure that looks like missing
      authentication. */
  const AuthHelp: seq<Message> := [CliNotAuthenticated, CliRunAuthLogin]

  /** The error message looks like missing authentication. */
  predicate AuthError(message: string)
  {
    Contains(message, "auth") || Contains(message, "login")
  }

  /** The lines that tell how to open the pull request by hand. */
  function ManualLines(base: string, head: string): seq<Message>
  {
    [WebAlternative, VisitRepository, ClickPullRequests, ClickNewPullRequest,
     SelectBase(base), SelectCompare(head), FillInAndCreate]
  }

  /** `createPRWithCLI`: `gh --version` first; when it fails, the help
      lines and the fixed error, and no other command. Otherwise the
      create command in the repository, whose trimmed output is the URL;
      its failure is reported with its message, plus the authentication
      help when the message mentions "auth" or "login". */
  function CliAttempt(exec: (string, Option<string>) -> ExecResult, repoDir: string,
                      head: string, base: string, title: string, body: string): (r: Effect<PrResult>)
    ensures r.value.CliCreated? || r.value.CliFailed?
  {
    var start := [UsingCli(head, base)];
    var probe := [ExecCall(GhVersion, None)];
    if exec(GhVersion, None).ExecErr? then
      Effect(CliFailed(NotAvailableError), start + UnavailableHelp, probe)
    else
      var command := CreateCommand(base, head, title, body);
      var calls := probe + [ExecCall(command, Some(repoDir))];
      match exec(command, Some(repoDir))
      case ExecOk(out) =>
        Effect(CliCreated(Trim(out), out), start + [CliCreatedPr(Trim(out))], calls)
      case ExecErr(m) =>
        var hint := if AuthError(m) then AuthHelp else [];
        Effect(CliFailed(m), start + [CliFailedWith(m)] + hint, calls)
  }

  /** The request for owner `owner`, repository `repo` and token `token`. */
  function PullRequest(token: string, owner: string, repo: string, head: string, base: string,
                       title: string, body: string): ApiRequest
  {
    ApiRequest(ApiHost, "/repos/" + owner + "/" + repo + "/pulls", "POST", "application/json",
               UserAgent, "token " + token, PrFields(title, body, head, base))
  }

  /** How `createPRWithAPI` settles on a reply: a request error or a body
      that does not parse rejects; a parsed body resolves, as a success
      exactly for a status in [200, 300). */
  function Classify(reply: ApiReply): (r: Outcome)
    ensures r.Resolved? ==> r.result.ApiCreated? || r.result.ApiFailed?
    ensures r.Resolved? <==> reply.Response? && reply.body.Ok?
  {
    match reply
    case RequestError(m) => Rejected(m)
    case Response(code, Err(m)) => Rejected(m)
    case Response(code, Ok(json)) =>
      if 200 <= code < 300 then Resolved(ApiCreated(json.htmlUrl, json))
      else Resolved(ApiFailed(json.message, code, json))
  }

  /** The line `createPRWithAPI` logs on a reply. */
  function ReplyLine(reply: ApiReply): (m: Message)
    ensures m.ApiCreatedPr? <==> Classify(reply).Resolved? && Classify(reply).result.ApiCreated?
    ensures m.ApiFailedWith? <==> Classify(reply).Resolved? && Classify(reply).result.ApiFailed?
  {
    match reply
    case RequestError(m) => ApiRequestError(m)
    case Response(code, Err(m)) => ApiParseError(m)
    case Response(code, Ok(json)) =>
      if 200 <= code < 300 then ApiCreatedPr(json.htmlUrl) else ApiFailedWith(json.message)
  }

  /** `createPRWithAPI`: one POST to the pulls endpoint of the repository. */
  function ApiAttempt(https: ApiRequest -> ApiReply, token: string, owner: string, repo: string,
                      head: string, base: string, title: string, body: string): (r: Effect<Outcome>)
    ensures |r.calls| == 1 && r.calls[0].ApiCall?
    ensures r.calls[0].request.fields == PrFields(title, body, head, base)
    ensures r.value == Classify(https(r.calls[0].request))
    ensures r.lines == [UsingApi(head, base), ReplyLine(https(r.calls[0].request))]
  {
    var request := PullRequest(token, owner, repo, head, base, title, body);
    Effect(Classify(https(request)),
           [UsingApi(head, base), ReplyLine(https(request))],
           [ApiCall(request)])
  }

  /** `getRepoDetails`: the remote URL of `origin`, trimmed and parsed; a
      failing command is logged and yields nothing. */
  function DetailsLookup(exec: (string, Option<string>) -> ExecResult, repoDir: string): (r: Effect<Option<RepoDetails>>)
    ensures r.calls == [ExecCall(GetRemoteUrl, Some(repoDir))]
    ensures r.value.Some? ==> exec(GetRemoteUrl, Some(repoDir)).ExecOk?
    ensures r.lines != [] <==> exec(GetRemoteUrl, Some(repoDir)).ExecErr?
    ensures exec(GetRemoteUrl, Some(repoDir)).ExecOk? ==>
              r.value == ParseRemoteUrl(Trim(exec(GetRemoteUrl, Some(repoDir)).stdout))
  {
    var call := [ExecCall(GetRemoteUrl, Some(repoDir))];
    match exec(GetRemoteUrl, Some(repoDir))
    case ExecOk(out) => Effect(ParseRemoteUrl(Trim(out)), [], call)
    case ExecErr(m) => Effect(None, [DetailsFailed(m)], call)
  }

  /** `createPR` after a failed CLI attempt with error `cliError` and a
      token: owner and repository are looked up when either is missing —
      the CLI result is returned when the lookup fails, and both options are
      overwritten when it succeeds — and the API is tried. */
  function ApiFallback(exec: (string, Option<string>) -> ExecResult, https: ApiRequest -> ApiReply,
                       o: PrRequest, cliError: string): (r: CreateRun)
    requires Truthy(o.token)
    ensures r.lines != [] && r.lines[0] == FallingBack
    ensures Truthy(o.owner) && Truthy(o.repo) ==> r.owner == o.owner && r.repo == o.repo
    ensures (!Truthy(o.owner) || !Truthy(o.repo)) && DetailsLookup(exec, o.repoDir).value.Some? ==>
              var d := DetailsLookup(exec, o.repoDir).value.value;
              r.owner == Some(d.owner) && r.repo == Some(d.repo)
    ensures (!Truthy(o.owner) || !Truthy(o.repo)) && DetailsLookup(exec, o.repoDir).value.None? ==>
              r.owner == o.owner && r.repo == o.repo && r.outcome == Resolved(CliFailed(cliError))
    ensures r.outcome == Resolved(CliFailed(cliError)) || (r.calls != [] && r.calls[|r.calls| - 1].ApiCall?)
  {
    var lines := [FallingBack];
    if !Truthy(o.owner) || !Truthy(o.repo) then
      var details := DetailsLookup(exec, o.repoDir);
      if details.value.None? then
        CreateRun(Resolved(CliFailed(cliError)), o.owner, o.repo,
                  lines + details.lines + [NoRepoDetails],
                  details.calls)
      else
        var d := details.value.value;
        var api := ApiAttempt(https, o.token.value, d.owner, d.repo, o.head, o.base, o.title, o.body);
        CreateRun(api.value, Some(d.owner), Some(d.repo), lines + details.lines + api.lines,
                  details.calls + api.calls)
    else
      var api := ApiAttempt(https, o.token.value, o.owner.value, o.repo.value, o.head, o.base, o.title, o.body);
      CreateRun(api.value, o.owner, o.repo, lines + api.lines, api.calls)
  }

  /** `createPR`: the CLI first; its success is returned as it is, its
      failure leads to manual instructions without a token, and to
      `ApiFallback` with one. */
  function CreatePrSpec(exec: (string, Option<string>) -> ExecResult, https: ApiRequest -> ApiReply,
                        o: PrRequest): (r: CreateRun)
    ensures r.outcome.Rejected? ==> Truthy(o.token)
    ensures !Truthy(o.token) ==> r.owner == o.owner && r.repo == o.repo
  {
    var cli := CliAttempt(exec, o.repoDir, o.head, o.base, o.title, o.body);
    if cli.value.Success() then
      CreateRun(Resolved(cli.value), o.owner, o.repo, cli.lines, cli.calls)
    else if !Truthy(o.token) then
      CreateRun(Resolved(ManualInstructions(cli.value.error)), o.owner, o.repo,
                cli.lines + ManualLines(o.base, o.head), cli.calls)
    else
      var rest := ApiFallback(exec, https, o, cli.value.error);
      CreateRun(rest.outcome, rest.owner, rest.repo, cli.lines + rest.lines, cli.calls + rest.calls)
  }

  /** Appending is associative. */
  lemma AppendAssoc<T>(a: seq<T>, b: seq<T>, c: seq<T>)
    ensures (a + b) + c == a + (b + c)
  {
  }

  /** The outside world: the answer to each command and each request, and
      the calls made so far, in order. */
  class Environment {
    const exec: (string, Option<string>) -> ExecResult
    const https: ApiRequest -> ApiReply
    var calls: seq<Call>

    constructor (exec: (string, Option<string>) -> ExecResult, https: ApiRequest -> ApiReply)
      ensures this.exec == exec && this.https == https && calls == []
    {
      this.exec := exec;
      this.https := https;
      calls := [];
    }

    /** `execPromise(command, { cwd })`. */
    method Exec(command: string, cwd: Option<string>) returns (r: ExecResult)
      modifies this
      ensures r == exec(command, cwd)
      ensures calls == old(calls) + [ExecCall(command, cwd)]
    {
      r := exec(command, cwd);
      calls := calls + [ExecCall(command, cwd)];
    }

    /** `https.request(options)` with the body written and ended. */
    method Request(request: ApiRequest) returns (r: ApiReply)
      modifies this
      ensures r == https(request)
      ensures calls == old(calls) + [ApiCall(request)]
    {
      r := https(request);
      calls := calls + [ApiCall(request)];
    }
  }

  /** The options object `createPR` receives; it writes the owner and the
      repository it looks up into it. */
  class PrOptions {
    const repoDir: string
    const head: string
    const base: string
    const title: string
    const body: string
    const token: Option<string>
    var owner: Option<string>
    var repo: Option<string>

    constructor (r: PrRequest)
      ensures Value() == r
    {
      repoDir, head, base, title, body, token := r.repoDir, r.head, r.base, r.title, r.body, r.token;
      owner, repo := r.owner, r.repo;
    }

    function Value(): PrRequest
      reads this
    {
      PrRequest(repoDir, head, base, title, body, token, owner, repo)
    }
  }

  class PRCreator {
    /** Every message passed to the logger so far. */
    var log: seq<Message>

    constructor ()
      ensures log == []
    {
      log := [];
    }

    /** `isGitHubCLIAvailable`: whether `gh --version` succeeds. */
    method IsGitHubCLIAvailable(env: Environment) returns (available: bool)
      modifies env
      ensures available == env.exec(GhVersion, None).ExecOk?
      ensures env.calls == old(env.calls) + [ExecCall(GhVersion, None)]
    {
      var r := env.Exec(GhVersion, None);
      available := r.ExecOk?;
    }

    method CreatePRWithCLI(env: Environment, repoDir: string, head: string, base: string,
                           title: string, body: string) returns (result: PrResult)
      modifies this, env
      ensures var r := CliAttempt(env.exec, repoDir, head, base, title, body);
        result == r.value && log == old(log) + r.lines && env.calls == old(env.calls) + r.calls
    {
      log := log + [UsingCli(head, base)];
      var isGHAvailable := IsGitHubCLIAvailable(env);
      if !isGHAvailable {
        log := log + UnavailableHelp;
        return CliFailed(NotAvailableError);
      }
      var command := CreateCommand(base, head, title, body);
      var r := env.Exec(command, Some(repoDir));
      if r.ExecOk? {
        var prUrl := Trim(r.stdout);
        log := log + [CliCreatedPr(prUrl)];
        result := CliCreated(prUrl, r.stdout);
      } else {
        log := log + [CliFailedWith(r.message)];
        if AuthError(r.message) {
          log := log + AuthHelp;
        }
        result := CliFailed(r.message);
      }
    }

    method CreatePRWithAPI(env: Environment, token: string, owner: string, repo: string,
                           head: string, base: string, title: string, body: string)
      returns (outcome: Outcome)
      modifies this, env
      ensures var r := ApiAttempt(env.https, token, owner, repo, head, base, title, body);
        outcome == r.value && log == old(log) + r.lines && env.calls == old(env.calls) + r.calls
    {
      log := log + [UsingApi(head, base)];
      var reply := env.Request(PullRequest(token, owner, repo, head, base, title, body));
      match reply
      case RequestError(m) =>
        log := log + [ApiRequestError(m)];
        outcome := Rejected(m);
      case Response(code, Err(m)) =>
        log := log + [ApiParseError(m)];
        outcome := Rejected(m);
      case Response(code, Ok(json)) =>
        if 200 <= code < 300 {
          log := log + [ApiCreatedPr(json.htmlUrl)];
          outcome := Resolved(ApiCreated(json.htmlUrl, json));
        } else {
          log := log + [ApiFailedWith(json.message)];
          outcome := Resolved(ApiFailed(json.message, code, json));
        }
    }

    method GetRepoDetails(env: Environment, repoDir: string) returns (details: Option<RepoDetails>)
      modifies this, env
      ensures var r := DetailsLookup(env.exec, repoDir);
        details == r.value && log == old(log) + r.lines && env.calls == old(env.calls) + r.calls
    {
      var r := env.Exec(GetRemoteUrl, Some(repoDir));
      if r.ExecErr? {
        log := log + [DetailsFailed(r.message)];
        return None;
      }
      var remoteUrl := Trim(r.stdout);
      var found := None;
      if Contains(remoteUrl, Host) {
        found := FirstMatchFrom(remoteUrl, 0);
      }
      if found.Some? {
        details := Some(RepoDetails(found.value.owner, found.value.repo));
      } else {
        details := None;
      }
    }

    /** The part of `createPR` after a failed CLI attempt, when a token is
        given. */
    method FallBackToAPI(env: Environment, options: PrOptions, cliError: string)
      returns (outcome: Outcome)
      requires Truthy(options.token)
      modifies this, env, options
      ensures var r := ApiFallback(env.exec, env.https, old(options.Value()), cliError);
        && outcome == r.outcome && log == old(log) + r.lines && env.calls == old(env.calls) + r.calls
        && options.Value() == old(options.Value()).(owner := r.owner, repo := r.repo)
    {
      ghost var o, log0, calls0 := options.Value(), log, env.calls;
      log := log + [FallingBack];
      if !Truthy(options.owner) || !Truthy(options.repo) {
        var repoDetails := GetRepoDetails(env, options.repoDir);
        ghost var details := DetailsLookup(env.exec, o.repoDir);
        AppendAssoc(log0, [FallingBack], details.lines);
        if repoDetails.None? {
          log := log + [NoRepoDetails];
          AppendAssoc(log0, [FallingBack] + details.lines,
                      [NoRepoDetails]);
          return Resolved(CliFailed(cliError));
        }
        options.owner := Some(repoDetails.value.owner);
        options.repo := Some(repoDetails.value.repo);
        ghost var api := ApiAttempt(env.https, o.token.value, repoDetails.value.owner, repoDetails.value.repo,
                                    o.head, o.base, o.title, o.body);
        outcome := CreatePRWithAPI(env, options.token.value, options.owner.value, options.repo.value,
                                   options.head, options.base, options.title, options.body);
        AppendAssoc(log0, [FallingBack] + details.lines, api.lines);
        AppendAssoc(calls0, details.calls, api.calls);
      } else {
        outcome := CreatePRWithAPI(env, options.token.value, options.owner.value, options.repo.value,
                                   options.head, options.base, options.title, options.body);
        ghost var api := ApiAttempt(env.https, o.token.value, o.owner.value, o.repo.value,
                                    o.head, o.base, o.title, o.body);
        AppendAssoc(log0, [FallingBack], api.lines);
      }
    }

    method CreatePR(env: Environment, options: PrOptions) returns (outcome: Outcome)
      modifies this, env, options
      ensures var r := CreatePrSpec(env.exec, env.https, old(options.Value()));
        && outcome == r.outcome && log == old(log) + r.lines && env.calls == old(env.calls) + r.calls
        && options.Value() == old(options.Value()).(owner := r.owner, repo := r.repo)
    {
      ghost var o, log0, calls0 := options.Value(), log, env.calls;
      ghost var cli := CliAttempt(env.exec, o.repoDir, o.head, o.base, o.title, o.body);
      var cliResult := CreatePRWithCLI(env, options.repoDir, options.head, options.base,
                                       options.title, options.body);
      if cliResult.Success() {
        outcome := Resolved(cliResult);
      } else if !Truthy(options.token) {
        log := log + ManualLines(options.base, options.head);
        outcome := Resolved(ManualInstructions(cliResult.error));
      } else {
        outcome := FallBackToAPI(env, options, cliResult.error);
        ghost var rest := ApiFallback(env.exec, env.https, o, cli.value.error);
        AppendAssoc(log0, cli.lines, rest.lines);
        AppendAssoc(calls0, cli.calls, rest.calls);
      }
    }
  }
}
