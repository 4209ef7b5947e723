/** The handler as the source runs it: a sequence of steps with an early
    return at each failure, the branch lists scanned by loops that stop at
    the first match, and one insert into the deployments repository. Each
    method is proved against the specification in `PreviewEnvironment`. */
module EnablePullRequest {
  import opened PreviewEnvironment

  /** Scans a branch list for a branch, stopping at the first match. */
  method ContainsBranch(branches: seq<string>, branch: string) returns (found: bool)
    ensures found <==> branch in branches
  {
    found := false;
    for i := 0 to |branches|
      invariant forall j :: 0 <= j < i ==> branches[j] != branch
    {
      if branches[i] == branch {
        found := true;
        break;
      }
    }
  }

  /** The two mutually exclusive branch-policy modes: the base-branch list
      when it is non-empty, otherwise the deploy-branch list. */
  method CheckBranchPolicy(env: Environment, req: PullRequest) returns (err: Option<APIError>)
    ensures err == BranchPolicyError(env, req)
  {
    err := None;
    if |env.gitRepoBranches| > 0 {
      var found := ContainsBranch(env.gitRepoBranches, req.branchInto);
      if !found {
        err := Some(ErrPassThrough(BaseBranchNotEnabled(req.branchInto), StatusBadRequest));
      }
    } else if |env.gitDeployBranches| > 0 {
      var found := ContainsBranch(env.gitDeployBranches, req.branchFrom);
      if found {
        err := Some(ErrPassThrough(HeadBranchDeployEnabled(req.branchInto), StatusBadRequest));
      }
    }
  }

  /** The deployments table of the repository. */
  class DeploymentRepository {
    var deployments: seq<Deployment>

    constructor (initial: seq<Deployment>)
      ensures deployments == initial
    {
      deployments := initial;
    }

    /** Stores a deployment unless the database reports an error (`ok` is
        false), and returns the stored record. */
    method CreateDeployment(d: Deployment, ok: bool) returns (stored: Option<Deployment>)
      modifies this
      ensures ok ==> stored == Some(d) && deployments == old(deployments) + [d]
      ensures !ok ==> stored == None && deployments == old(deployments)
    {
      if ok {
        deployments := deployments + [d];
        stored := Some(d);
      } else {
        stored := None;
      }
    }
  }

  class EnablePullRequestHandler {
    const repo: DeploymentRepository

    constructor (repo: DeploymentRepository)
      ensures this.repo == repo
    {
      this.repo := repo;
    }

    /** Serves one request. The answer and the calls made are those of the
        specification, and the repository gains exactly the deployments the
        answer reports. */
    method ServeHTTP(scope: Scope, req: PullRequest, world: World) returns (outcome: Outcome, calls: seq<Call>)
      modifies repo
      ensures Response(outcome, calls) == Handle(scope, req, world)
      ensures repo.deployments == old(repo.deployments) + Inserted(outcome)
    {
      calls := [ReadEnvironment(scope.projectID, scope.clusterID, req.repoOwner, req.repoName)];
      if world.lookup.RecordNotFound? {
        outcome := Failure(ErrNotFound(EnvironmentNotFound));
        return;
      } else if world.lookup.LookupFailed? {
        outcome := Failure(ErrInternal());
        return;
      }
      var env := world.lookup.env;

      var policyError := CheckBranchPolicy(env, req);
      if policyError.Some? {
        outcome := Failure(policyError.value);
        return;
      }

      calls := calls + [GetGithubClient(env.id)];
      if !world.clientOk {
        outcome := Failure(ErrInternal());
        return;
      }

      calls := calls + [GetPullRequest(env.gitRepoOwner, env.gitRepoName, GoInt(req.number))];
      if world.fetch.FetchFailed? {
        outcome := Failure(ErrPassThrough(GithubAPI, StatusConflict));
        return;
      }
      if world.fetch.state == "closed" {
        outcome := Failure(ErrPassThrough(ClosedPR, StatusConflict));
        return;
      }

      calls := calls + [CreateWorkflowDispatch(env.gitRepoOwner, env.gitRepoName,
        WorkflowFileName(env.name), NewDispatchRequest(req, world.fetch.title))];
      var dispatchError := DispatchError(world.dispatch, req.branchFrom);
      if dispatchError.Some? {
        outcome := Failure(dispatchError.value);
        return;
      }

      var depl := NewDeployment(env, req);
      calls := calls + [CreateDeployment(depl)];
      var stored := repo.CreateDeployment(depl, world.insertOk);
      if stored.None? {
        outcome := Failure(ErrInternal());
        return;
      }
      outcome := Success(stored.value);
    }
  }
}
