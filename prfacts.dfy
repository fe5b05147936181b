/** What `createPR` promises, stated over its specification `CreatePrSpec`:
    the order of the attempts, which calls each path makes, when the
    options are overwritten, and how the outcome follows from the answers
    of `gh` and of the API. */
module PrFacts {
  import opened Wrappers
  import opened Text
  import opened RemoteUrl
  import opened PrCreation

  /** A reply `createPRWithAPI` counts as a created pull request. */
  predicate Accepted(reply: ApiReply)
  {
    reply.Response? && reply.body.Ok? && 200 <= reply.statusCode < 300
  }

  /** The promise resolves with `success: true`. */
  predicate Succeeded(outcome: Outcome)
  {
    outcome.Resolved? && outcome.result.Success()
  }

  /** The CLI attempt `createPR` starts with. */
  function Cli(exec: (string, Option<string>) -> ExecResult, o: PrRequest): Effect<PrResult>
  {
    CliAttempt(exec, o.repoDir, o.head, o.base, o.title, o.body)
  }

  /** The call that looks up the remote URL. */
  function Lookup(o: PrRequest): Call
  {
    ExecCall(GetRemoteUrl, Some(o.repoDir))
  }

  /** The last call is the single API call, if there is one. */
  predicate ApiCallLast(calls: seq<Call>)
  {
    forall i :: 0 <= i < |calls| && calls[i].ApiCall? ==> i == |calls| - 1
  }

  /** How a reply settles: a success exactly for a 2xx status with a body
      that parses, carrying its `html_url`; a failure carrying the status
      code and the body's `message` for any other status; a rejection
      exactly for a request error or a body that does not parse. */
  lemma ClassifyFacts(reply: ApiReply)
    ensures Succeeded(Classify(reply)) <==> Accepted(reply)
    ensures Classify(reply).Rejected? <==> reply.RequestError? || reply.body.Err?
    ensures Accepted(reply) ==> Classify(reply).result.htmlUrl == reply.body.value.htmlUrl
    ensures Classify(reply).Resolved? && !Accepted(reply) ==>
              Classify(reply).result == ApiFailed(reply.body.value.message, reply.statusCode, reply.body.value)
  {
  }

  /** The three commands `createPR` may run are distinct. */
  lemma CommandsDiffer(base: string, head: string, title: string, body: string)
    ensures GhVersion != GetRemoteUrl
    ensures CreateCommand(base, head, title, body) != GetRemoteUrl
    ensures CreateCommand(base, head, title, body) != GhVersion
  {
    assert GhVersion[1] != GetRemoteUrl[1];
    assert CreateCommand(base, head, title, body)[1] == 'h';
    assert CreateCommand(base, head, title, body)[3] != GhVersion[3];
  }

  /** The CLI attempt runs `gh --version` first, then at most the create
      command; it never looks up the remote and never calls the API. */
  lemma CliCalls(exec: (string, Option<string>) -> ExecResult, o: PrRequest)
    ensures var c := Cli(exec, o).calls;
      && 1 <= |c| <= 2 && c[0] == ExecCall(GhVersion, None)
      && (forall i :: 0 <= i < |c| ==> c[i].ExecCall? && c[i] != Lookup(o))
      && (|c| == 2 <==> exec(GhVersion, None).ExecOk?)
  {
    CommandsDiffer(o.base, o.head, o.title, o.body);
  }

  /** `createPR` always probes for `gh` first, and logs the CLI attempt
      first. */
  lemma ProbeFirst(exec: (string, Option<string>) -> ExecResult, https: ApiRequest -> ApiReply, o: PrRequest)
    ensures var r := CreatePrSpec(exec, https, o);
      && r.calls != [] && r.calls[0] == ExecCall(GhVersion, None)
      && r.lines != [] && r.lines[0] == UsingCli(o.head, o.base)
  {
  }

  /** A pull request the CLI created is the result: its URL is the trimmed
      output, no further call follows, and the options stay as they were. */
  lemma CliSuccessReturned(exec: (string, Option<string>) -> ExecResult, https: ApiRequest -> ApiReply,
                           o: PrRequest)
    requires Cli(exec, o).value.CliCreated?
    ensures var r := CreatePrSpec(exec, https, o);
      && r.outcome == Resolved(Cli(exec, o).value)
      && Cli(exec, o).value.url == Trim(Cli(exec, o).value.output)
      && |r.calls| == 2 && (forall i :: 0 <= i < |r.calls| ==> r.calls[i].ExecCall?)
      && r.owner == o.owner && r.repo == o.repo
  {
    CliCalls(exec, o);
  }

  /** Without `gh` the CLI attempt fails with the fixed message, and the
      create command never runs. */
  lemma CliUnavailable(exec: (string, Option<string>) -> ExecResult, https: ApiRequest -> ApiReply,
                       o: PrRequest)
    requires exec(GhVersion, None).ExecErr?
    ensures Cli(exec, o).value == CliFailed(NotAvailableError)
    ensures ExecCall(CreateCommand(o.base, o.head, o.title, o.body), Some(o.repoDir))
              !in CreatePrSpec(exec, https, o).calls
  {
    var r := CreatePrSpec(exec, https, o);
    var cli := Cli(exec, o);
    var create := ExecCall(CreateCommand(o.base, o.head, o.title, o.body), Some(o.repoDir));
    CliCalls(exec, o);
    CommandsDiffer(o.base, o.head, o.title, o.body);
    if Truthy(o.token) {
      var rest := ApiFallback(exec, https, o, cli.value.error);
      FallbackCalls(exec, https, o, cli.value.error);
      assert r.calls == cli.calls + rest.calls;
    }
  }

  /** After a failed CLI attempt `createPR` runs nothing but the remote
      lookup and the API request. */
  lemma FallbackCalls(exec: (string, Option<string>) -> ExecResult, https: ApiRequest -> ApiReply,
                      o: PrRequest, cliError: string)
    requires Truthy(o.token)
    ensures forall c :: c in ApiFallback(exec, https, o, cliError).calls ==> c == Lookup(o) || c.ApiCall?
  {
  }

  /** Without a token a failed CLI attempt ends in manual instructions:
      the CLI error is kept, the web-interface steps are logged last, and
      neither the lookup nor the API is called. */
  lemma NoTokenManual(exec: (string, Option<string>) -> ExecResult, https: ApiRequest -> ApiReply,
                      o: PrRequest)
    requires !Cli(exec, o).value.Success() && !Truthy(o.token)
    ensures var r := CreatePrSpec(exec, https, o);
      && r.outcome == Resolved(ManualInstructions(Cli(exec, o).value.error))
      && r.calls == Cli(exec, o).calls && Lookup(o) !in r.calls
      && |r.lines| >= 7 && r.lines[|r.lines| - 7..] == ManualLines(o.base, o.head)
      && r.owner == o.owner && r.repo == o.repo
  {
    CliCalls(exec, o);
  }

  /** The API is called at most once, as the last call, only after the CLI
      failed and only with a token; the request goes to the pulls endpoint
      of the owner and repository the options end up holding, both known. */
  lemma ApiCallShape(exec: (string, Option<string>) -> ExecResult, https: ApiRequest -> ApiReply,
                     o: PrRequest)
    ensures var r := CreatePrSpec(exec, https, o);
      && ApiCallLast(r.calls)
      && (r.calls[|r.calls| - 1].ApiCall? ==>
            && !Cli(exec, o).value.Success() && Truthy(o.token)
            && Truthy(r.owner) && Truthy(r.repo)
            && r.calls[|r.calls| - 1].request
               == PullRequest(o.token.value, r.owner.value, r.repo.value, o.head, o.base, o.title, o.body))
  {
    var r := CreatePrSpec(exec, https, o);
    var cli := Cli(exec, o);
    CliCalls(exec, o);
    if !cli.value.Success() && Truthy(o.token) && (!Truthy(o.owner) || !Truthy(o.repo)) {
      var details := DetailsLookup(exec, o.repoDir);
      if details.value.Some? {
        var d := details.value.value;
        var s := ParsedShape(Trim(exec(GetRemoteUrl, Some(o.repoDir)).stdout), d);
      }
    }
  }

  /** A rejection comes only from the API call, and when the API is called
      its reply alone decides the outcome. */
  lemma OutcomeFromApi(exec: (string, Option<string>) -> ExecResult, https: ApiRequest -> ApiReply,
                       o: PrRequest)
    ensures var r := CreatePrSpec(exec, https, o);
      && r.calls != []
      && (r.outcome.Rejected? ==> r.calls[|r.calls| - 1].ApiCall?)
      && (r.calls[|r.calls| - 1].ApiCall? ==>
            r.outcome == Classify(https(r.calls[|r.calls| - 1].request)))
  {
    CliCalls(exec, o);
  }

  /** `createPR` succeeds exactly when the CLI created the pull request or
      the API accepted the request it was sent. */
  lemma SuccessIff(exec: (string, Option<string>) -> ExecResult, https: ApiRequest -> ApiReply,
                   o: PrRequest)
    ensures var r := CreatePrSpec(exec, https, o);
      && r.calls != []
      && (Succeeded(r.outcome) <==>
            || Cli(exec, o).value.CliCreated?
            || (r.calls[|r.calls| - 1].ApiCall? && Accepted(https(r.calls[|r.calls| - 1].request))))
  {
    var r := CreatePrSpec(exec, https, o);
    OutcomeFromApi(exec, https, o);
    CliCalls(exec, o);
    if r.calls[|r.calls| - 1].ApiCall? {
      ClassifyFacts(https(r.calls[|r.calls| - 1].request));
    }
  }

  /** The remote is looked up exactly when the CLI failed, a token is given
      and the owner or the repository is missing; otherwise the options
      keep their owner and repository. */
  lemma LookupOnlyWhenNeeded(exec: (string, Option<string>) -> ExecResult, https: ApiRequest -> ApiReply,
                             o: PrRequest)
    ensures var r := CreatePrSpec(exec, https, o);
      && (Lookup(o) in r.calls <==>
            !Cli(exec, o).value.Success() && Truthy(o.token) && (!Truthy(o.owner) || !Truthy(o.repo)))
      && (Lookup(o) !in r.calls ==> r.owner == o.owner && r.repo == o.repo)
  {
    var r := CreatePrSpec(exec, https, o);
    CliCalls(exec, o);
    if !Cli(exec, o).value.Success() && Truthy(o.token) && (!Truthy(o.owner) || !Truthy(o.repo)) {
      assert r.calls[|Cli(exec, o).calls|] == Lookup(o);
    }
  }

  /** A failed lookup ends `createPR` with the failed CLI result: no API
      call, the options unchanged, and the reason logged last. */
  lemma LookupFailureKeepsCliResult(exec: (string, Option<string>) -> ExecResult, https: ApiRequest -> ApiReply,
                                    o: PrRequest)
    requires !Cli(exec, o).value.Success() && Truthy(o.token) && (!Truthy(o.owner) || !Truthy(o.repo))
    requires DetailsLookup(exec, o.repoDir).value.None?
    ensures var r := CreatePrSpec(exec, https, o);
      && r.outcome == Resolved(Cli(exec, o).value)
      && (forall i :: 0 <= i < |r.calls| ==> r.calls[i].ExecCall?)
      && r.owner == o.owner && r.repo == o.repo
      && r.lines[|r.lines| - 1] == NoRepoDetails
  {
    CliCalls(exec, o);
  }

  /** When owner or repository is missing and the lookup finds details
      `d`, both options are overwritten with `d` before the API call, and
      the request goes to that repository with the given token and fields. */
  lemma LookupOverwrites(exec: (string, Option<string>) -> ExecResult, https: ApiRequest -> ApiReply,
                         o: PrRequest, d: RepoDetails)
    requires !Cli(exec, o).value.Success() && Truthy(o.token) && (!Truthy(o.owner) || !Truthy(o.repo))
    requires DetailsLookup(exec, o.repoDir).value == Some(d)
    ensures var r := CreatePrSpec(exec, https, o);
      && r.owner == Some(d.owner) && r.repo == Some(d.repo)
      && r.calls[|r.calls| - 1].ApiCall?
      && r.calls[|r.calls| - 1].request == PullRequest(o.token.value, d.owner, d.repo, o.head, o.base, o.title, o.body)
  {
    ApiCallShape(exec, https, o);
  }

  /** With only one of owner and repository missing, a lookup that reads
      `https://github.com/<owner>/<repo>.git` (as `git` prints it, with a
      line break) overwrites both, and the request goes to that
      repository. */
  lemma LookupReplacesBoth(exec: (string, Option<string>) -> ExecResult, https: ApiRequest -> ApiReply,
                           o: PrRequest, owner: string, repo: string)
    requires !Cli(exec, o).value.Success() && Truthy(o.token) && !Truthy(o.owner)
    requires owner != "" && '/' !in owner
    requires repo != "" && '/' !in repo && '.' !in repo
    requires exec(GetRemoteUrl, Some(o.repoDir))
             == ExecOk("https://github.com/" + owner + "/" + repo + ".git" + "\n")
    ensures var r := CreatePrSpec(exec, https, o);
      && r.owner == Some(owner) && r.repo == Some(repo)
      && r.calls[|r.calls| - 1].ApiCall?
      && r.calls[|r.calls| - 1].request.path == "/repos/" + owner + "/" + repo + "/pulls"
  {
    HttpsLineTrimmed(owner, repo);
    HttpsRemote(owner, repo);
    LookupOverwrites(exec, https, o, RepoDetails(owner, repo));
  }

  /** Trimming drops the line break `git` prints after an HTTPS remote. */
  lemma HttpsLineTrimmed(owner: string, repo: string)
    ensures var u := "https://github.com/" + owner + "/" + repo + ".git";
      Trim(u + "\n") == u
  {
    var u := "https://github.com/" + owner + "/" + repo + ".git";
    TrimIgnoresSurroundingSpace("", u, "\n");
    assert "" + u + "\n" == u + "\n";
    assert u[0] == 'h' && u[|u| - 1] == 't';
  }

  /** `createPRWithCLI` logs the authentication help exactly when `gh` is
      there, the create command fails, and its message mentions "auth" or
      "login". */
  lemma AuthHintIff(exec: (string, Option<string>) -> ExecResult, repoDir: string,
                    head: string, base: string, title: string, body: string)
    ensures var r := CliAttempt(exec, repoDir, head, base, title, body);
      var create := exec(CreateCommand(base, head, title, body), Some(repoDir));
      AuthHelp[0] in r.lines <==>
        exec(GhVersion, None).ExecOk? && create.ExecErr? && AuthError(create.message)
  {
  }
}
