/** The decision procedure behind the "enable pull request" endpoint of the
    preview-environment API: which external calls the handler makes, in which
    order, what it answers, and which deployment record it stores.

    Every external result (the environment lookup, the GitHub client
    construction, the pull-request fetch, the workflow dispatch and the
    deployment insert) is an input, gathered in `World`; the handler's
    effect on the outside world is the list of `Call`s it issues. */
module PreviewEnvironment {
  import Decimal

  datatype Option<T> = None | Some(value: T)

  const TwoTo64: int := 0x1_0000_0000_0000_0000
  const TwoTo63: int := 0x8000_0000_0000_0000

  /** Go's `uint` on a 64-bit platform. */
  type Uint = n: int | 0 <= n < TwoTo64

  /** HTTP status codes used by the handler. */
  const StatusBadRequest: int := 400
  const StatusNotFound: int := 404
  const StatusConflict: int := 409
  const StatusUnprocessableEntity: int := 422
  const StatusInternalServerError: int := 500

  /** Project and cluster resolved from the request context. */
  datatype Scope = Scope(projectID: nat, clusterID: nat)

  /** The decoded request body. */
  datatype PullRequest = PullRequest(
    number: Uint,
    title: string,
    repoOwner: string,
    repoName: string,
    branchFrom: string,
    branchInto: string)

  /** The stored preview environment, with its branch lists already split
      as the environment's API type holds them. */
  datatype Environment = Environment(
    id: nat,
    name: string,
    gitRepoOwner: string,
    gitRepoName: string,
    gitRepoBranches: seq<string>,    // base branches that accept pull requests
    gitDeployBranches: seq<string>)  // head branches deployed on push

  datatype DeploymentStatus = Creating | Created | Failed

  datatype Deployment = Deployment(
    environmentID: nat,
    namespace: string,
    status: DeploymentStatus,
    pullRequestID: Uint,
    repoOwner: string,
    repoName: string,
    prName: string,
    prBranchFrom: string,
    prBranchInto: string)

  /** The inputs to the workflow-dispatch call. */
  datatype DispatchRequest = DispatchRequest(ref: string, inputs: map<string, string>)

  // ---------------------------------------------------------------- results of external calls

  datatype LookupResult = Found(env: Environment) | RecordNotFound | LookupFailed

  datatype FetchResult = FetchFailed | Fetched(state: string, title: string)

  /** What the dispatch call returned: a response (with its status code) if the
      transport produced one, and whether it also returned an error. */
  datatype DispatchResult = DispatchResult(response: Option<int>, failed: bool)

  datatype World = World(
    lookup: LookupResult,
    clientOk: bool,
    fetch: FetchResult,
    dispatch: DispatchResult,
    insertOk: bool)

  /** The external calls the handler issues, in order. */
  datatype Call =
    | ReadEnvironment(projectID: nat, clusterID: nat, owner: string, name: string)
    | GetGithubClient(environmentID: nat)
    | GetPullRequest(owner: string, repo: string, number: int)
    | CreateWorkflowDispatch(owner: string, repo: string, workflowFile: string, request: DispatchRequest)
    | CreateDeployment(deployment: Deployment)

  // ---------------------------------------------------------------- API errors

  datatype ErrorKind = NotFound | Internal | PassThrough

  /** The messages the handler writes; `Opaque` is an internal error whose
      text is not shown to the client. */
  datatype Message =
    | EnvironmentNotFound
    | Opaque
    | BaseBranchNotEnabled(baseBranch: string)
    | HeadBranchDeployEnabled(headBranch: string)
    | GithubAPI
    | ClosedPR
    | WorkflowFilesMissing(prBranch: string)
    | WorkflowFilesOutdated(prBranch: string)

  datatype APIError = APIError(kind: ErrorKind, status: int, message: Message)

  function ErrNotFound(m: Message): APIError { APIError(NotFound, StatusNotFound, m) }
  function ErrInternal(): APIError { APIError(Internal, StatusInternalServerError, Opaque) }
  function ErrPassThrough(m: Message, status: int): APIError { APIError(PassThrough, status, m) }

  datatype Outcome = Failure(error: APIError) | Success(deployment: Deployment)

  /** What one request produces: the answer and the calls made to get it. */
  datatype Response = Response(outcome: Outcome, calls: seq<Call>)

  /** The deployments a request leaves in the repository. */
  function Inserted(o: Outcome): (ds: seq<Deployment>)
    ensures |ds| <= 1
    ensures |ds| == 1 <==> o.Success?
  {
    if o.Success? then [o.deployment] else []
  }

  // ---------------------------------------------------------------- the steps

  /** Go's `int(n)` for a `uint` n on a 64-bit platform: two's-complement
      reinterpretation of the same 64 bits. */
  function GoInt(n: Uint): (i: int)
    ensures -TwoTo63 <= i < TwoTo63
    ensures (i - n) % TwoTo64 == 0
  {
    if n < TwoTo63 then n else n - TwoTo64
  }

  /** The branch policy: a non-empty base-branch list admits only pull
      requests into a listed branch; otherwise a non-empty deploy-branch list
      refuses pull requests FROM a listed branch. The refusal message of the
      second mode names the base branch. */
  function BranchPolicyError(env: Environment, req: PullRequest): (r: Option<APIError>)
    ensures |env.gitRepoBranches| > 0 ==>
              (r.None? <==> req.branchInto in env.gitRepoBranches) &&
              (r.Some? ==> r.value == ErrPassThrough(BaseBranchNotEnabled(req.branchInto), StatusBadRequest))
    ensures |env.gitRepoBranches| == 0 ==>
              (r.Some? <==> req.branchFrom in env.gitDeployBranches) &&
              (r.Some? ==> r.value == ErrPassThrough(HeadBranchDeployEnabled(req.branchInto), StatusBadRequest))
  {
    if |env.gitRepoBranches| > 0 then
      if req.branchInto in env.gitRepoBranches then None
      else Some(ErrPassThrough(BaseBranchNotEnabled(req.branchInto), StatusBadRequest))
    else if |env.gitDeployBranches| > 0 then
      if req.branchFrom in env.gitDeployBranches
      then Some(ErrPassThrough(HeadBranchDeployEnabled(req.branchInto), StatusBadRequest))
      else None
    else None
  }

  /** The workflow file dispatched for an environment. */
  function WorkflowFileName(envName: string): (f: string)
    ensures |f| == |envName| + 15
    ensures f[..7] == "porter_" && f[|f| - 8..] == "_env.yml"
    ensures f[7..|f| - 8] == envName
  {
    "porter_" + envName + "_env.yml"
  }

  /** Distinct environments dispatch distinct workflow files. */
  lemma WorkflowFileNameInjective(a: string, b: string)
    ensures WorkflowFileName(a) == WorkflowFileName(b) ==> a == b
  {
  }

  /** The dispatch request: the PR's head branch as ref; its number in
      decimal, the fetched PR's title and both branches as inputs. */
  function NewDispatchRequest(req: PullRequest, fetchedTitle: string): (d: DispatchRequest)
    ensures d.ref == req.branchFrom
    ensures d.inputs.Keys == {"pr_number", "pr_title", "pr_branch_from", "pr_branch_into"}
    ensures Decimal.Canonical(d.inputs["pr_number"])
    ensures Decimal.ParseUint(d.inputs["pr_number"]) == req.number
    ensures d.inputs["pr_title"] == fetchedTitle
    ensures d.inputs["pr_branch_from"] == req.branchFrom && d.inputs["pr_branch_into"] == req.branchInto
  {
    Decimal.ParseFormat(req.number);
    DispatchRequest(req.branchFrom, map[
      "pr_number" := Decimal.FormatUint(req.number),
      "pr_title" := fetchedTitle,
      "pr_branch_from" := req.branchFrom,
      "pr_branch_into" := req.branchInto])
  }

  /** Reading the dispatch result: a response with status 404 or 422 is
      reported as a workflow-file conflict whatever the error was; any other
      error is internal; otherwise the dispatch succeeded. */
  function DispatchError(d: DispatchResult, branchFrom: string): (r: Option<APIError>)
    ensures d.response == Some(StatusNotFound) ==>
              r == Some(ErrPassThrough(WorkflowFilesMissing(branchFrom), StatusConflict))
    ensures d.response == Some(StatusUnprocessableEntity) ==>
              r == Some(ErrPassThrough(WorkflowFilesOutdated(branchFrom), StatusConflict))
    ensures r.None? <==> !d.failed && d.response != Some(StatusNotFound) && d.response != Some(StatusUnprocessableEntity)
    ensures d.failed && d.response != Some(StatusNotFound) && d.response != Some(StatusUnprocessableEntity) ==>
              r == Some(ErrInternal())
  {
    if d.response.Some? && d.response.value == StatusNotFound then
      Some(ErrPassThrough(WorkflowFilesMissing(branchFrom), StatusConflict))
    else if d.response.Some? && d.response.value == StatusUnprocessableEntity then
      Some(ErrPassThrough(WorkflowFilesOutdated(branchFrom), StatusConflict))
    else if d.failed then
      Some(ErrInternal())
    else
      None
  }

  /** The record stored on success: identity and branches from the request,
      the environment's id, no namespace yet, status Creating. */
  function NewDeployment(env: Environment, req: PullRequest): (d: Deployment)
    ensures d.status == Creating && d.namespace == "" && d.environmentID == env.id
    ensures d.pullRequestID == req.number && d.prName == req.title
    ensures d.repoOwner == req.repoOwner && d.repoName == req.repoName
    ensures d.prBranchFrom == req.branchFrom && d.prBranchInto == req.branchInto
  {
    Deployment(
      environmentID := env.id,
      namespace := "",
      status := Creating,
      pullRequestID := req.number,
      repoOwner := req.repoOwner,
      repoName := req.repoName,
      prName := req.title,
      prBranchFrom := req.branchFrom,
      prBranchInto := req.branchInto)
  }

  // ---------------------------------------------------------------- the handler

  /** The whole request, step by step, each failure ending it. */
  function Handle(scope: Scope, req: PullRequest, world: World): (r: Response)
    ensures 1 <= |r.calls| <= 5
    ensures r.calls[0] == ReadEnvironment(scope.projectID, scope.clusterID, req.repoOwner, req.repoName)
    ensures r.outcome.Success? ==> |r.calls| == 5 && r.calls[4] == CreateDeployment(r.outcome.deployment)
    ensures r.outcome.Success? ==> world.lookup.Found? && r.outcome.deployment == NewDeployment(world.lookup.env, req)
    ensures !world.lookup.Found? ==> |r.calls| == 1 && r.outcome.Failure?
  {
    var c0 := [ReadEnvironment(scope.projectID, scope.clusterID, req.repoOwner, req.repoName)];
    match world.lookup
    case RecordNotFound => Response(Failure(ErrNotFound(EnvironmentNotFound)), c0)
    case LookupFailed => Response(Failure(ErrInternal()), c0)
    case Found(env) =>
      var policy := BranchPolicyError(env, req);
      if policy.Some? then Response(Failure(policy.value), c0)
      else
        var c1 := c0 + [GetGithubClient(env.id)];
        if !world.clientOk then Response(Failure(ErrInternal()), c1)
        else
          var c2 := c1 + [GetPullRequest(env.gitRepoOwner, env.gitRepoName, GoInt(req.number))];
          match world.fetch
          case FetchFailed => Response(Failure(ErrPassThrough(GithubAPI, StatusConflict)), c2)
          case Fetched(state, title) =>
            if state == "closed" then Response(Failure(ErrPassThrough(ClosedPR, StatusConflict)), c2)
            else
              var dispatch := CreateWorkflowDispatch(env.gitRepoOwner, env.gitRepoName,
                WorkflowFileName(env.name), NewDispatchRequest(req, title));
              var c3 := c2 + [dispatch];
              var dispatchError := DispatchError(world.dispatch, req.branchFrom);
              if dispatchError.Some? then Response(Failure(dispatchError.value), c3)
              else
                var depl := NewDeployment(env, req);
                var c4 := c3 + [CreateDeployment(depl)];
                if !world.insertOk then Response(Failure(ErrInternal()), c4)
                else Response(Success(depl), c4)
  }

  /** The number of deployment inserts in a list of calls. */
  function InsertCount(calls: seq<Call>): nat {
    if calls == [] then 0
    else InsertCount(calls[..|calls| - 1]) + (if calls[|calls| - 1].CreateDeployment? then 1 else 0)
  }

  /** Whether a list of calls contacts GitHub. */
  predicate CallsGithub(calls: seq<Call>) {
    exists i :: 0 <= i < |calls| && (calls[i].GetPullRequest? || calls[i].CreateWorkflowDispatch?)
  }
}
