# Enable-pull-request decision pipeline of the preview-environment API

This project models the handler behind the preview-environment endpoint that
enables a deployment for a GitHub pull request
(`EnablePullRequestHandler.ServeHTTP`). Given the project and cluster scope
and a decoded pull-request descriptor, the handler does the following, stopping at the first failure:

1. looks up the environment by project, cluster, and the request's repository owner and name;
2. applies the environment's branch policy. A non-empty base-branch list admits only
   pull requests into a listed branch. Otherwise a non-empty deploy-branch list
   refuses pull requests whose head branch is listed;
3. builds a GitHub client and fetches the pull request from the environment's repository.
   A fetch error or a closed pull request is refused;
4. dispatches the workflow `porter_<environment name>_env.yml` on the head
   branch, and maps a 404 or 422 response to a workflow-file conflict;
5. stores one deployment in status `Creating` and returns it.

The model has four parts:

- `Decimal` (decimal.dfy) renders the pull-request number the way Go's
  `strconv.FormatUint(n, 10)` does. It also holds the parser that inverts it, with both round trips proved.
- `PreviewEnvironment` (preview_environment.dfy) is the specification.
  Every external result is an input, collected in `World`: the lookup, the client construction,
  the fetch, the dispatch and the insert. `Handle` returns the
  answer (`Outcome`: an `APIError` with kind, status and message, or
  `Success(Deployment)`) together with the list of external calls made, in order.
  The steps are pure functions: the branch policy, the workflow file name,
  the dispatch request, the dispatch-result mapping and the new deployment.
- `PreviewEnvironmentProperties` (properties.dfy) states what the handler
  guarantees for all inputs.
- `EnablePullRequest` (handler.dfy) is the handler as the source runs it.
  The branch lists are scanned by loops that stop at the first match.
  `ServeHTTP` is a step-by-step method with early returns. It inserts into a
  `DeploymentRepository` object whose `deployments` sequence is the stored table.
  `ServeHTTP` is proved to produce exactly the answer and calls of `Handle`.
  It is also proved to leave the repository grown by exactly `Inserted(outcome)`: the new deployment on success, nothing otherwise.

Quirks of the source are kept as written:

- The refusal for a listed head branch reports the BASE branch in its message (`HeadBranchDeployEnabled(req.branchInto)`).
- GitHub is addressed with the environment's repository owner and name, while the
  stored deployment copies the request's.
- The dispatched `pr_title` is the fetched pull request's title, while the stored `PRName` is the request's title.
- A 404 or 422 dispatch response takes precedence over the dispatch error.

The code refuses a request exactly when the head branch IS
listed, and its message asks the user to disable branch deploys for that
branch. The model does the same (`DeployBranchPolarity`).

## Model

| member | source | states |
|---|---|---|
| `Decimal.FormatUint` | api/server/handlers/environment/enable_pull_request.go:120 | the decimal rendering of the PR number is non-empty, all digits, with no leading zero, and has one digit exactly for numbers below 10 |
| `Decimal.ParseFormat` | api/server/handlers/environment/enable_pull_request.go:120 | parsing the rendered number gives back the number |
| `Decimal.FormatParse` | api/server/handlers/environment/enable_pull_request.go:120 | every canonical digit string is the rendering of the number it denotes (the rendering is onto canonical strings) |
| `Decimal.FormatInjective` | api/server/handlers/environment/enable_pull_request.go:120 | distinct PR numbers render to distinct `pr_number` inputs |
| `PreviewEnvironment.GoInt` | api/server/handlers/environment/enable_pull_request.go:102 | `int(request.Number)` is the signed 64-bit value congruent to the number modulo 2^64 |
| `PreviewEnvironment.WorkflowFileName` | api/server/handlers/environment/enable_pull_request.go:116 | the dispatched file is `porter_` + environment name + `_env.yml`, and the name can be read back from it |
| `PreviewEnvironment.WorkflowFileNameInjective` | api/server/handlers/environment/enable_pull_request.go:116 | distinct environment names dispatch distinct workflow files |
| `PreviewEnvironment.NewDispatchRequest` | api/server/handlers/environment/enable_pull_request.go:117-125 | ref is the head branch, and the inputs are exactly the four keys. `pr_number` is canonical decimal that parses back to the request's number. `pr_title` is the fetched title. The branches come from the request |
| `PreviewEnvironment.DispatchError` | api/server/handlers/environment/enable_pull_request.go:128-151 | a 404 or 422 response gives a 409 naming the head branch, whatever the error. The dispatch passes exactly when there is no error and neither status. Any other dispatch error is the internal error |
| `PreviewEnvironment.BranchPolicyError` | api/server/handlers/environment/enable_pull_request.go:57-93 | with a non-empty base list the request passes exactly when its target branch is listed, else a 400 naming the target branch. With an empty base list it is refused exactly when its head branch is in the deploy list, with a 400 whose message carries the target branch |
| `PreviewEnvironment.NewDeployment` | api/server/handlers/environment/enable_pull_request.go:154-164 | the record to store has the environment's id, an empty namespace and status Creating. Its number, title, repository owner and name, and both branches come from the request |
| `PreviewEnvironment.Handle` | api/server/handlers/environment/enable_pull_request.go:36-171 | the whole step sequence: at most five calls, starting with the lookup. A failed lookup ends after it. A success ends with the insert of the returned deployment, which is the new deployment for the found environment |
| `PreviewEnvironment.Inserted` | api/server/handlers/environment/enable_pull_request.go:153-168 | a request leaves at most one deployment, and exactly one when it succeeds |
| `PreviewEnvironmentProperties.CallsShape` | api/server/handlers/environment/enable_pull_request.go:46-168 | every run starts with the environment lookup and makes at most five calls. Only the last call can be the deployment insert |
| `PreviewEnvironmentProperties.LookupFailure` | api/server/handlers/environment/enable_pull_request.go:46-55 | not-found gives 404 and any other lookup error gives an internal 500. Either ends the request after the lookup: no GitHub call and no insert |
| `PreviewEnvironmentProperties.BaseBranchNotListed` | api/server/handlers/environment/enable_pull_request.go:59-75 | with a non-empty base list and an unlisted target branch, the answer is a 400 naming that branch. No GitHub call and no insert follow |
| `PreviewEnvironmentProperties.BaseBranchListShadowsDeployList` | api/server/handlers/environment/enable_pull_request.go:59-93 | with a non-empty base list, replacing the deploy-branch list by any list leaves the whole response unchanged |
| `PreviewEnvironmentProperties.BaseBranchListed` | api/server/handlers/environment/enable_pull_request.go:59-69 | with a non-empty base list the policy passes if and only if the target branch is listed, and then the handler goes on to the GitHub client |
| `PreviewEnvironmentProperties.DeployBranchPolarity` | api/server/handlers/environment/enable_pull_request.go:76-93 | with an empty base list and a non-empty deploy list, the request gets the 400 exactly when the head branch is listed. The message carries the base branch, and no GitHub call is made |
| `PreviewEnvironmentProperties.NoBranchLists` | api/server/handlers/environment/enable_pull_request.go:59-95 | with both lists empty no branch is refused, and the handler goes on to the GitHub client |
| `PreviewEnvironmentProperties.BranchRefusalPrecedesGithub` | api/server/handlers/environment/enable_pull_request.go:59-99 | the answer is a 400 exactly when an environment was found and its branch policy refuses. The only call made then is the lookup |
| `PreviewEnvironmentProperties.ClientFailure` | api/server/handlers/environment/enable_pull_request.go:95-99 | a GitHub client that cannot be built gives an internal 500. The calls are the lookup and the client request only: no GitHub call and no insert |
| `PreviewEnvironmentProperties.FetchRejections` | api/server/handlers/environment/enable_pull_request.go:102-113 | a fetch error or a closed PR gives a 409 with the matching message. The run ends at the fetch, with no dispatch and no insert |
| `PreviewEnvironmentProperties.ClosedPRNeverDeploys` | api/server/handlers/environment/enable_pull_request.go:109-113 | a closed PR never dispatches or inserts, whatever the branch policy and the other results |
| `PreviewEnvironmentProperties.DispatchCall` | api/server/handlers/environment/enable_pull_request.go:95-126 | past the fetch, the calls are: the client for the environment, then the fetch from the environment's repository, then a dispatch to the environment's repository. The dispatch uses file `porter_<name>_env.yml`, ref = head branch, the decimal number, the fetched title and both branches |
| `PreviewEnvironmentProperties.DispatchRejections` | api/server/handlers/environment/enable_pull_request.go:128-151 | 404 gives a 409 "missing" and 422 a 409 "outdated", both naming the head branch, even when the dispatch also returned an error. Another error gives an internal 500. None of these inserts |
| `PreviewEnvironmentProperties.SuccessIff` | api/server/handlers/environment/enable_pull_request.go:46-170 | a request succeeds if and only if every step succeeds: environment found, policy passes, client built, PR fetched and not closed, no dispatch error or 404/422, insert succeeds |
| `PreviewEnvironmentProperties.SuccessDeployment` | api/server/handlers/environment/enable_pull_request.go:153-170 | on success exactly one insert is made, as the last call, of the returned deployment. That deployment has the environment's id, an empty namespace and status Creating. Number, owner, repo, title and branches come from the request |
| `PreviewEnvironmentProperties.InsertFailure` | api/server/handlers/environment/enable_pull_request.go:153-168 | a failed insert gives an internal 500 after the insert was attempted, and no deployment is stored |
| `PreviewEnvironmentProperties.AtMostOneInsert` | api/server/handlers/environment/enable_pull_request.go:153-168 | no run inserts more than once, and a successful run inserts exactly the deployment it returns |
| `PreviewEnvironmentProperties.ErrorStatuses` | api/server/handlers/environment/enable_pull_request.go:46-168 | every error answer has status 400, 404, 409 or 500. Kind NotFound goes with 404 and kind Internal with 500, and internal errors carry no message |
| `PreviewEnvironmentProperties.IdentitySources` | api/server/handlers/environment/enable_pull_request.go:102-161 | GitHub calls use the environment's owner and repository, and the dispatched title is the fetched one. The stored deployment takes owner, repository and title from the request |
| `EnablePullRequest.ContainsBranch` | api/server/handlers/environment/enable_pull_request.go:60-67 | the scan that stops at the first match finds the branch exactly when it is in the list; the same scan is used at lines 77-84 |
| `EnablePullRequest.CheckBranchPolicy` | api/server/handlers/environment/enable_pull_request.go:57-93 | the two scans together give exactly the specification's branch-policy decision |
| `EnablePullRequest.DeploymentRepository.CreateDeployment` | api/server/handlers/environment/enable_pull_request.go:154-168 | a successful insert appends the record and returns it; a failed one leaves the table unchanged |
| `EnablePullRequest.EnablePullRequestHandler.ServeHTTP` | api/server/handlers/environment/enable_pull_request.go:36-171 | the step-by-step handler gives exactly the specified answer and calls. The table grows by exactly the deployment it reports, or not at all |

## Left out

- HTTP plumbing is not modelled: request decoding and validation, reading the project and cluster from the request context, and writing the result (lines 37-44 and 170). The decoded request and the scope ids are inputs.
- The environment lookup, the construction of the GitHub client (`getGithubClientFromEnvironment`, line 95), the pull-request fetch, the workflow dispatch and the database insert are calls into libraries that are not part of this model. Their results are inputs (`World`), and the model records each call with its arguments (`Call`).
- The conversion of the stored environment to its API type (`ToEnvironmentType`) is not part of this model. The environment is given with its branch lists already as sequences.
- Error message text is abstract. `Message` keeps which message it is and the branch each one interpolates. The wrapped GitHub or database error inside an internal error or inside the GitHub-API message is not kept.
- Fields the database assigns on insert (id, timestamps) and the conversion of the stored record to its response type are not modelled. The returned deployment is the inserted record.
- `PullRequest.number` is modelled as Go's 64-bit `uint`. The type declaration of the request is not part of this model.
- The status codes of the API error constructors for not-found (404) and internal (500) errors are taken from their names. The error package is not part of this model.
- The namespace-creation handler, the Kubernetes agent, the migration bootstrap and the dashboard template selector are not modelled. The first three are thin wrappers over Kubernetes or ORM library calls. The selector is a UI component whose version ordering belongs to an external library.
