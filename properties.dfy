/** What the enable-pull-request handler guarantees, stated over the
    specification `PreviewEnvironment.Handle` for every request and every
    combination of external results. */
module PreviewEnvironmentProperties {
  import Decimal
  import opened PreviewEnvironment

  // ---------------------------------------------------------------- helpers about call lists

  lemma InsertCountSnoc(calls: seq<Call>, c: Call)
    ensures InsertCount(calls + [c]) == InsertCount(calls) + (if c.CreateDeployment? then 1 else 0)
  {
  }

  /** Call lists without an insert count no inserts. */
  lemma {:induction false} InsertCountNone(calls: seq<Call>)
    requires forall i :: 0 <= i < |calls| ==> !calls[i].CreateDeployment?
    ensures InsertCount(calls) == 0
    decreases |calls|
  {
    if calls != [] {
      var init := calls[..|calls| - 1];
      InsertCountNone(init);
      InsertCountSnoc(init, calls[|calls| - 1]);
      assert calls == init + [calls[|calls| - 1]];
    }
  }

  /** Every response's calls start with the environment lookup, are at most
      five, and only the last can be the deployment insert. */
  lemma CallsShape(scope: Scope, req: PullRequest, world: World)
    ensures var calls := Handle(scope, req, world).calls;
      1 <= |calls| <= 5 &&
      calls[0] == ReadEnvironment(scope.projectID, scope.clusterID, req.repoOwner, req.repoName) &&
      forall i :: 0 <= i < |calls| - 1 ==> !calls[i].CreateDeployment?
  {
  }

  // ---------------------------------------------------------------- per step

  /** A missing environment is a 404 and a failed lookup an internal error;
      either ends the request before any other call. */
  lemma LookupFailure(scope: Scope, req: PullRequest, world: World)
    requires !world.lookup.Found?
    ensures var r := Handle(scope, req, world);
      r.outcome == Failure(if world.lookup.RecordNotFound?
                           then APIError(NotFound, StatusNotFound, EnvironmentNotFound)
                           else APIError(Internal, StatusInternalServerError, Opaque)) &&
      r.calls == [ReadEnvironment(scope.projectID, scope.clusterID, req.repoOwner, req.repoName)] &&
      !CallsGithub(r.calls) && InsertCount(r.calls) == 0
  {
  }

  /** With a base-branch list, a pull request into an unlisted branch is a
      400 naming that branch, and neither GitHub nor the repository is
      touched. */
  lemma BaseBranchNotListed(scope: Scope, req: PullRequest, world: World)
    requires world.lookup.Found?
    requires |world.lookup.env.gitRepoBranches| > 0
    requires req.branchInto !in world.lookup.env.gitRepoBranches
    ensures var r := Handle(scope, req, world);
      r.outcome == Failure(APIError(PassThrough, StatusBadRequest, BaseBranchNotEnabled(req.branchInto))) &&
      |r.calls| == 1 && !CallsGithub(r.calls) && InsertCount(r.calls) == 0
  {
  }

  /** With a base-branch list, the deploy-branch list is never consulted:
      replacing it by any other list changes nothing. */
  lemma BaseBranchListShadowsDeployList(scope: Scope, req: PullRequest, world: World, deploys: seq<string>)
    requires world.lookup.Found?
    requires |world.lookup.env.gitRepoBranches| > 0
    ensures var env := world.lookup.env;
      Handle(scope, req, world.(lookup := Found(env.(gitDeployBranches := deploys)))) == Handle(scope, req, world)
  {
  }

  /** With a base-branch list, a pull request into a listed branch passes
      the policy and the handler goes on to the GitHub client; together with
      `BaseBranchNotListed` the refusal happens exactly when the branch is
      unlisted. */
  lemma BaseBranchListed(scope: Scope, req: PullRequest, world: World)
    requires world.lookup.Found?
    requires |world.lookup.env.gitRepoBranches| > 0
    ensures req.branchInto in world.lookup.env.gitRepoBranches <==>
              BranchPolicyError(world.lookup.env, req).None?
    ensures req.branchInto in world.lookup.env.gitRepoBranches ==>
              var r := Handle(scope, req, world);
              |r.calls| >= 2 && r.calls[1] == GetGithubClient(world.lookup.env.id)
  {
  }

  /** Without a base-branch list, a non-empty deploy-branch list refuses the
      request with a 400 exactly when the HEAD branch is listed; the message
      names the BASE branch. */
  lemma DeployBranchPolarity(scope: Scope, req: PullRequest, world: World)
    requires world.lookup.Found?
    requires |world.lookup.env.gitRepoBranches| == 0
    requires |world.lookup.env.gitDeployBranches| > 0
    ensures var r := Handle(scope, req, world);
      (req.branchFrom in world.lookup.env.gitDeployBranches <==>
         r.outcome == Failure(APIError(PassThrough, StatusBadRequest, HeadBranchDeployEnabled(req.branchInto)))) &&
      (req.branchFrom in world.lookup.env.gitDeployBranches ==> |r.calls| == 1 && !CallsGithub(r.calls))
  {
  }

  /** With both lists empty no branch is refused: the request goes on to the
      GitHub client. */
  lemma NoBranchLists(scope: Scope, req: PullRequest, world: World)
    requires world.lookup.Found?
    requires |world.lookup.env.gitRepoBranches| == 0 && |world.lookup.env.gitDeployBranches| == 0
    ensures BranchPolicyError(world.lookup.env, req).None?
    ensures |Handle(scope, req, world).calls| >= 2
  {
  }

  /** Every branch-policy refusal is a 400, happens only when an environment
      was found, and precedes every GitHub call. */
  lemma BranchRefusalPrecedesGithub(scope: Scope, req: PullRequest, world: World)
    ensures var r := Handle(scope, req, world);
      r.outcome.Failure? && r.outcome.error.status == StatusBadRequest <==>
        world.lookup.Found? && BranchPolicyError(world.lookup.env, req).Some?
    ensures var r := Handle(scope, req, world);
      world.lookup.Found? && BranchPolicyError(world.lookup.env, req).Some? ==>
        r.calls == [ReadEnvironment(scope.projectID, scope.clusterID, req.repoOwner, req.repoName)]
  {
  }

  /** A GitHub client that cannot be built is an internal error; the run
      ends after asking for it, with no call to GitHub and no insert. */
  lemma ClientFailure(scope: Scope, req: PullRequest, world: World)
    requires world.lookup.Found? && BranchPolicyError(world.lookup.env, req).None?
    requires !world.clientOk
    ensures var r := Handle(scope, req, world);
      r.outcome == Failure(APIError(Internal, StatusInternalServerError, Opaque)) &&
      r.calls == [ReadEnvironment(scope.projectID, scope.clusterID, req.repoOwner, req.repoName),
                  GetGithubClient(world.lookup.env.id)] &&
      !CallsGithub(r.calls) && InsertCount(r.calls) == 0
  {
    InsertCountNone(Handle(scope, req, world).calls);
  }

  /** A failed PR fetch and a closed PR are both 409s; neither dispatches
      nor stores anything. */
  lemma FetchRejections(scope: Scope, req: PullRequest, world: World)
    requires world.lookup.Found? && BranchPolicyError(world.lookup.env, req).None? && world.clientOk
    requires world.fetch.FetchFailed? || world.fetch.state == "closed"
    ensures var r := Handle(scope, req, world);
      r.outcome == Failure(APIError(PassThrough, StatusConflict,
                                    if world.fetch.FetchFailed? then GithubAPI else ClosedPR)) &&
      |r.calls| == 3 && r.calls[2].GetPullRequest? &&
      (forall i :: 0 <= i < |r.calls| ==> !r.calls[i].CreateWorkflowDispatch?) &&
      InsertCount(r.calls) == 0
  {
    CallsShape(scope, req, world);
    InsertCountNone(Handle(scope, req, world).calls);
  }

  /** A closed PR never yields a deployment, whatever the branch policy and
      the other external results. */
  lemma ClosedPRNeverDeploys(scope: Scope, req: PullRequest, world: World, title: string)
    requires world.fetch == Fetched("closed", title)
    ensures var r := Handle(scope, req, world);
      r.outcome.Failure? && InsertCount(r.calls) == 0 &&
      forall i :: 0 <= i < |r.calls| ==> !r.calls[i].CreateWorkflowDispatch?
  {
    CallsShape(scope, req, world);
    InsertCountNone(Handle(scope, req, world).calls);
  }

  /** The dispatch call, once reached: addressed to the ENVIRONMENT's
      repository and to workflow file porter_<environment name>_env.yml, on
      the head branch, carrying the PR number in decimal, the FETCHED title
      and both branches. */
  lemma DispatchCall(scope: Scope, req: PullRequest, world: World)
    requires world.lookup.Found? && BranchPolicyError(world.lookup.env, req).None? && world.clientOk
    requires world.fetch.Fetched? && world.fetch.state != "closed"
    ensures var env := world.lookup.env;
      var calls := Handle(scope, req, world).calls;
      |calls| >= 4 &&
      calls[1] == GetGithubClient(env.id) &&
      calls[2] == GetPullRequest(env.gitRepoOwner, env.gitRepoName, GoInt(req.number)) &&
      calls[3].CreateWorkflowDispatch? &&
      calls[3].owner == env.gitRepoOwner && calls[3].repo == env.gitRepoName &&
      calls[3].workflowFile == "porter_" + env.name + "_env.yml" &&
      calls[3].request.ref == req.branchFrom &&
      calls[3].request.inputs.Keys == {"pr_number", "pr_title", "pr_branch_from", "pr_branch_into"} &&
      calls[3].request.inputs["pr_number"] == Decimal.FormatUint(req.number) &&
      calls[3].request.inputs["pr_title"] == world.fetch.title &&
      calls[3].request.inputs["pr_branch_from"] == req.branchFrom &&
      calls[3].request.inputs["pr_branch_into"] == req.branchInto
  {
  }

  /** A 404 or 422 dispatch response is a 409 naming the head branch, even
      when the call also returned an error; any other dispatch error is
      internal. None of them stores a deployment. */
  lemma DispatchRejections(scope: Scope, req: PullRequest, world: World)
    requires world.lookup.Found? && BranchPolicyError(world.lookup.env, req).None? && world.clientOk
    requires world.fetch.Fetched? && world.fetch.state != "closed"
    ensures var r := Handle(scope, req, world);
      (world.dispatch.response == Some(StatusNotFound) ==>
        r.outcome == Failure(APIError(PassThrough, StatusConflict, WorkflowFilesMissing(req.branchFrom)))) &&
      (world.dispatch.response == Some(StatusUnprocessableEntity) ==>
        r.outcome == Failure(APIError(PassThrough, StatusConflict, WorkflowFilesOutdated(req.branchFrom)))) &&
      (world.dispatch.failed && world.dispatch.response != Some(StatusNotFound) &&
       world.dispatch.response != Some(StatusUnprocessableEntity) ==>
        r.outcome == Failure(APIError(Internal, StatusInternalServerError, Opaque))) &&
      (DispatchError(world.dispatch, req.branchFrom).Some? ==> |r.calls| == 4 && InsertCount(r.calls) == 0)
  {
    if DispatchError(world.dispatch, req.branchFrom).Some? {
      CallsShape(scope, req, world);
      InsertCountNone(Handle(scope, req, world).calls);
    }
  }

  /** A request succeeds exactly when every external step succeeds and
      neither the branch policy, a closed PR nor the dispatch response
      refuses it. */
  lemma SuccessIff(scope: Scope, req: PullRequest, world: World)
    ensures Handle(scope, req, world).outcome.Success? <==>
      world.lookup.Found? && BranchPolicyError(world.lookup.env, req).None? && world.clientOk &&
      world.fetch.Fetched? && world.fetch.state != "closed" &&
      !world.dispatch.failed &&
      world.dispatch.response != Some(StatusNotFound) && world.dispatch.response != Some(StatusUnprocessableEntity) &&
      world.insertOk
  {
  }

  /** On success exactly one deployment is inserted, it is the one returned,
      and its fields come from the request (repository identity and title
      included), the environment's id and status Creating. */
  lemma SuccessDeployment(scope: Scope, req: PullRequest, world: World)
    requires Handle(scope, req, world).outcome.Success?
    ensures var r := Handle(scope, req, world);
      var d := r.outcome.deployment;
      |r.calls| == 5 && r.calls[4] == CreateDeployment(d) && InsertCount(r.calls) == 1 &&
      d.environmentID == world.lookup.env.id && d.namespace == "" && d.status == Creating &&
      d.pullRequestID == req.number && d.repoOwner == req.repoOwner && d.repoName == req.repoName &&
      d.prName == req.title && d.prBranchFrom == req.branchFrom && d.prBranchInto == req.branchInto
  {
    var calls := Handle(scope, req, world).calls;
    CallsShape(scope, req, world);
    InsertCountNone(calls[..4]);
    InsertCountSnoc(calls[..4], calls[4]);
    assert calls == calls[..4] + [calls[4]];
  }

  /** A failed insert is an internal error after the insert was attempted;
      nothing is returned. */
  lemma InsertFailure(scope: Scope, req: PullRequest, world: World)
    requires world.lookup.Found? && BranchPolicyError(world.lookup.env, req).None? && world.clientOk
    requires world.fetch.Fetched? && world.fetch.state != "closed"
    requires DispatchError(world.dispatch, req.branchFrom).None?
    requires !world.insertOk
    ensures var r := Handle(scope, req, world);
      r.outcome == Failure(APIError(Internal, StatusInternalServerError, Opaque)) &&
      |r.calls| == 5 && r.calls[4] == CreateDeployment(NewDeployment(world.lookup.env, req)) &&
      Inserted(r.outcome) == []
  {
  }

  /** No request ever inserts more than one deployment, and the repository
      gains a deployment exactly when the request succeeds. */
  lemma AtMostOneInsert(scope: Scope, req: PullRequest, world: World)
    ensures var r := Handle(scope, req, world);
      InsertCount(r.calls) <= 1 && |Inserted(r.outcome)| <= 1 &&
      (r.outcome.Success? ==> InsertCount(r.calls) == 1 && Inserted(r.outcome) == [r.outcome.deployment])
  {
    var calls := Handle(scope, req, world).calls;
    CallsShape(scope, req, world);
    var init := calls[..|calls| - 1];
    InsertCountNone(init);
    InsertCountSnoc(init, calls[|calls| - 1]);
    assert calls == init + [calls[|calls| - 1]];
  }

  /** Every error answer is one of the handler's four statuses, and its kind
      agrees with its status. */
  lemma ErrorStatuses(scope: Scope, req: PullRequest, world: World)
    ensures var o := Handle(scope, req, world).outcome;
      o.Failure? ==>
        o.error.status in {StatusBadRequest, StatusNotFound, StatusConflict, StatusInternalServerError} &&
        (o.error.kind == NotFound <==> o.error.status == StatusNotFound) &&
        (o.error.kind == Internal <==> o.error.status == StatusInternalServerError) &&
        (o.error.kind == Internal ==> o.error.message == Opaque)
  {
  }

  /** The repository identity used for GitHub comes from the stored
      environment, while the stored deployment copies the request's; the
      dispatched title is the fetched PR's, the stored one the request's. */
  lemma IdentitySources(scope: Scope, req: PullRequest, world: World)
    requires Handle(scope, req, world).outcome.Success?
    ensures var r := Handle(scope, req, world);
      var env := world.lookup.env;
      r.calls[2].owner == env.gitRepoOwner && r.calls[2].repo == env.gitRepoName &&
      r.calls[3].owner == env.gitRepoOwner && r.calls[3].repo == env.gitRepoName &&
      r.calls[3].request.inputs["pr_title"] == world.fetch.title &&
      r.outcome.deployment.repoOwner == req.repoOwner && r.outcome.deployment.repoName == req.repoName &&
      r.outcome.deployment.prName == req.title
  {
  }
}
