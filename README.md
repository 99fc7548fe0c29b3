# Repository clone orchestration, modelled in Dafny

This project models the core of a service that clones git repositories on
request. It covers:

- an HTTP controller (`POST /repos/clone`, `GET /repos/clone/:id`), in both its
  live variant (libs/repos) and the older variant (apps/api);
- the Temporal client factory and its lazy, connection-caching wrapper, whose
  handles are proxies that bind on first use;
- the `cloneRepoWorkflow` with its retry policy and its two activities;
- the git provider underneath: ref resolution over three `git ls-remote` tiers
  and a four-command shallow fetch into a fresh work directory.

The Temporal service, the network and the process runner are oracles given as
parameters. Examples are a `Shell` answering each `Command`, a `Dial` answering
each connection attempt, and an `Engine` answering `result`/`describe` for a
workflow id.

Modules, one per source file:

| module | file | form |
|---|---|---|
| `Common` | common.dfy | `Option`, `Result` |
| `Text` | text.dfy | the JavaScript string operations the source relies on: `split` on one character, `find(Boolean)`, `trim`, `toLowerCase`, `includes` |
| `Process` | process.dfy | the `sh` runner as a logging class over an oracle |
| `Workdir` | workdir.dfy | `WorkdirService.make` as a class that remembers the directories it handed out |
| `GitProvider` | git_provider.dfy | `resolveCommit` as a function with its lookup trace; `fetchSnapshot` as a method of `GitCliRepoProvider` |
| `CloneTypes` | clone_types.dfy | `CloneInput`, `CloneResult` |
| `TemporalClient` | temporal_client.dfy | the `temporalClient()` factory |
| `TemporalModule` | temporal_module.dfy | `lazyTemporalClient` and `createHandleProxy` as classes whose fields are the cached promises |
| `CloneWorkflow` | clone_workflow.dfy | `cloneRepoWorkflow` and the retry policy |
| `CloneActivities` | clone_activities.dfy | the two activities and their module-level singletons |
| `HttpApi` | http_api.dfy | what both controllers share: bodies, `HttpException`, the running / 422 / 500 tail |
| `ReposController` | repos_controller.dfy | the live controller |
| `ApiReposController` | api_repos_controller.dfy | the older controller, and how the two compare |

Behaviour of the code worth knowing, each stated by a lemma:

- No error type is exempt from retrying. The resolve activity for a ref that
  cannot be found is attempted three times (`CloneWorkflow.RefNotFoundIsRetried`),
  and each attempt makes the three `ls-remote` lookups
  (`GitProvider.NotFoundAfterThreeLookups`), so up to nine lookups in all.
- A failure of the first `ls-remote` tier propagates
  (`GitProvider.Tier1FailurePropagates`). Only tiers 2 and 3 read a failure as
  empty output (`GitProvider.ForgivenFallbacksChangeNothing`).
- Errors are told apart by their message text. The 503 case needs the exact
  message `temporal-unavailable` (`ReposController.RaiseTemporalUnavailable`).
  The 422 case needs the lower-cased message to contain `ref not found`
  (`HttpApi.AfterFailure`, `HttpApi.RefNotFoundIgnoresCase`).
- The commit is the part of the first line before its first tab, trimmed.
  Nothing checks that it is 40 hexadecimal digits
  (`GitProvider.ResolveDoesNotValidateSha`).
- A handle proxy that failed to bind keeps that failure for good. The lazy
  client, by contrast, forgets a failed connection and connects again on next
  use (`TemporalModule.FailedBindingIsKept`).

## Model

| member | source | states |
|---|---|---|
| Process.ShellLog.Sh | libs/platform-infra/src/git/git.exec.ts:21-35 | every command is recorded, in the order run, and answered by the environment with its stdout or its error |
| Workdir.WorkdirService.Make | libs/codebase/src/infra/storage/workdir.service.ts:6-8 | the new directory is named `<tmp>/<prefix>-…`, was never handed out before, and is recorded |
| Text.Split | libs/platform-infra/src/git/git.provider.ts:12 | splitting gives at least one piece and no piece contains the separator |
| Text.JoinSplit | libs/platform-infra/src/git/git.provider.ts:12 | joining the pieces of a split with the separator gives back the input |
| Text.SplitJoin | libs/platform-infra/src/git/git.provider.ts:12 | splitting a join of separator-free pieces gives back the pieces |
| Text.FirstPiece | libs/platform-infra/src/git/git.provider.ts:13 | the first piece is the prefix before the first separator, or the whole string when there is none |
| Text.FirstNonEmpty | libs/platform-infra/src/git/git.provider.ts:12 | `find(Boolean)`: the first non-empty element; nothing exactly when every element is empty |
| Text.TrimStart | libs/platform-infra/src/git/git.provider.ts:13 | only leading whitespace is removed, and the result does not start with whitespace |
| Text.TrimEnd | libs/platform-infra/src/git/git.provider.ts:13 | only trailing whitespace is removed, and the result does not end with whitespace |
| Text.Trim | libs/platform-infra/src/git/git.provider.ts:13 | the result is an infix of the input with no whitespace at either end; only whitespace is cut |
| Text.TrimUnchanged | libs/platform-infra/src/git/git.provider.ts:13 | a string with no whitespace at its ends is its own trim |
| Text.ToLowerAt | libs/repos/src/interface/http/repos.controller.ts:47 | lower-casing keeps the length and lowers each character on its own |
| Text.ToLowerAppend | libs/repos/src/interface/http/repos.controller.ts:47 | lower-casing distributes over concatenation |
| Text.Contains | libs/repos/src/interface/http/repos.controller.ts:48 | `includes` holds exactly when the substring occurs at some position |
| GitProvider.ResolveCommit | libs/platform-infra/src/git/git.provider.ts:9-28 | the lookups issued are the first one, two or three tiers, in tier order |
| GitProvider.ResolveIsTierSearch | libs/platform-infra/src/git/git.provider.ts:9-28 | the resolver equals a search over the three tiers in which only the first lookup may fail |
| GitProvider.SearchTiersInOrder | libs/platform-infra/src/git/git.provider.ts:15-25 | tiers are looked up in order, none is skipped, and the next is tried only after one that gave no line |
| GitProvider.Tier1FailurePropagates | libs/platform-infra/src/git/git.provider.ts:10 | a failing first lookup (the literal ref, no cwd, 60 s) is the resolver's error, after one lookup |
| GitProvider.ResolveTierOrder | libs/platform-infra/src/git/git.provider.ts:10-27 | the full case table: which tier's first line gives the commit, how many lookups ran, and when not-found is raised |
| GitProvider.NotFoundAfterThreeLookups | libs/platform-infra/src/git/git.provider.ts:21-27 | once tier 1 succeeds, the resolver fails exactly when no tier has a line, and then with `ref not found: <ref>` after three lookups |
| GitProvider.ForgivenFallbacksChangeNothing | libs/platform-infra/src/git/git.provider.ts:15-22 | a failure of the branch or tag lookup behaves exactly like empty output |
| GitProvider.FirstLineSpec | libs/platform-infra/src/git/git.provider.ts:12 | a first line exists exactly when the output has a non-newline character; it is the first maximal newline-free run |
| GitProvider.CommitOfLine | libs/platform-infra/src/git/git.provider.ts:13 | the commit is the trimmed text before the line's first tab, or the whole trimmed line |
| GitProvider.ResolveDoesNotValidateSha | libs/platform-infra/src/git/git.provider.ts:12-13 | a listing whose line starts with a tab resolves to the empty string; no sha format is enforced |
| GitProvider.MissingRef | libs/platform-infra/src/git/git.provider.ts:27 | scenario: with no output from any tier the error is `ref not found: y`, after the three tier lookups |
| GitProvider.Executed | libs/platform-infra/src/git/git.provider.ts:33-36 | awaited steps run in order, each only after the earlier ones succeeded, and stop at the first failure |
| GitProvider.FirstFailure | libs/platform-infra/src/git/git.provider.ts:33-36 | no failure is reported exactly when every step succeeds |
| GitProvider.StopsAtFirstFailure | libs/platform-infra/src/git/git.provider.ts:33-36 | when step i fails first, steps 0..i ran and nothing after, and its error is the fetch's error |
| GitProvider.RunsWholePlan | libs/platform-infra/src/git/git.provider.ts:33-36 | when every step succeeds, all of them run in order |
| GitProvider.RunFetch | libs/platform-infra/src/git/git.provider.ts:33-38 | the commands run are the plan up to its first failure; the result is that failure or the snapshot of the directory |
| GitProvider.GitCliRepoProvider.constructor | libs/platform-infra/src/git/git.provider.ts:7 | the provider keeps the work-directory service it is given |
| GitProvider.GitCliRepoProvider.FetchSnapshot | libs/platform-infra/src/git/git.provider.ts:30-39 | the directory is `dstDir` or one new `repo-` directory; the four commands run there until one fails; success returns that directory |
| GitProvider.FetchPlanShape | libs/platform-infra/src/git/git.provider.ts:33-36 | init, remote add, depth-1 fetch of the sha, then checkout, all as `git` in the directory with the 60 s timeout |
| TemporalClient.ConfigDefaults | libs/orchestrator/src/temporal.client.ts:23-24 | address and task queue come from the environment when set, otherwise `localhost:7233` and `context-task-queue` |
| TemporalClient.Connect | libs/orchestrator/src/temporal.client.ts:22-33 | a client exists exactly when dialling the configured address connects; every failure becomes `temporal-unavailable` |
| TemporalClient.FailureCauseIsHidden | libs/orchestrator/src/temporal.client.ts:27-31 | two refusals with different causes give the same outcome |
| TemporalClient.CloneStartRequest | libs/orchestrator/src/temporal.client.ts:37-41 | the workflow type is `CloneRepoWorkflow`, the queue is the configured one, the id is `clone-<uuid>`, and the input is the only argument |
| TemporalClient.WorkflowIdsDiffer | libs/orchestrator/src/temporal.client.ts:39 | distinct uuids give distinct workflow ids |
| TemporalClient.StartClone | libs/orchestrator/src/temporal.client.ts:36-50 | the handle reports the id the engine started; an engine error is passed on |
| TemporalClient.GetHandleForwards | libs/orchestrator/src/temporal.client.ts:52-61 | a handle for an id reports that id and forwards `result(opts)` and `describe()` for that id, options unchanged |
| TemporalModule.LazyTemporalClient.constructor | libs/orchestrator/src/temporal.module.ts:29-30 | a new lazy client holds no client and has made no attempt |
| TemporalModule.LazyTemporalClient.GetClient | libs/orchestrator/src/temporal.module.ts:32-40 | reuses the cached client; otherwise makes one attempt, caches a success, and forgets a failure while passing it on |
| TemporalModule.LazyTemporalClient.StartClone | libs/orchestrator/src/temporal.module.ts:43-46 | starts through the shared client, or fails with the connection error |
| TemporalModule.LazyTemporalClient.GetHandle | libs/orchestrator/src/temporal.module.ts:47-49 | returns a new unbound proxy for the id and connects nothing |
| TemporalModule.AtMostOneConnection | libs/orchestrator/src/temporal.module.ts:32-40 | at most one connection attempt ever succeeds |
| TemporalModule.HandleProxy.constructor | libs/orchestrator/src/temporal.module.ts:6-7 | a new proxy has the id and no binding |
| TemporalModule.HandleProxy.Bind | libs/orchestrator/src/temporal.module.ts:9-14 | binds on the first call only and keeps the outcome, failure included; later calls touch no connection |
| TemporalModule.HandleProxy.AwaitResult | libs/orchestrator/src/temporal.module.ts:18-21 | binds, then forwards the options unchanged to the engine for the id, or fails with the binding error |
| TemporalModule.HandleProxy.Describe | libs/orchestrator/src/temporal.module.ts:22-25 | binds, then forwards to the engine for the id, or fails with the binding error |
| TemporalModule.FailedBindingIsKept | libs/orchestrator/src/temporal.module.ts:9-14 | after a refused first connection the proxy fails twice with `temporal-unavailable`, though the client then connects |
| TemporalModule.BoundProxyForwards | libs/orchestrator/src/temporal.module.ts:9-25 | describe then result on one proxy reach the engine for its id after a single connection |
| CloneWorkflow.RetryFrom | libs/orchestrator/src/workflows/clone/clone.workflow.ts:5-11 | attempts continue until one succeeds or the maximum is reached; the outcome is the last attempt's |
| CloneWorkflow.WithRetry | libs/orchestrator/src/workflows/clone/clone.workflow.ts:5-11 | one to three attempts; success exactly when one of the first three succeeds, and then after failures only; a failure only after all three |
| CloneWorkflow.RefNotFoundIsRetried | libs/orchestrator/src/workflows/clone/clone.workflow.ts:7-10 | a resolver that always reports ref-not-found is attempted three times |
| CloneWorkflow.CloneRepoWorkflow | libs/orchestrator/src/workflows/clone/clone.workflow.ts:14-29 | the outcome is the resolve failure after three attempts, else the fetch failure, else the resolved sha paired with the path returned by the fetch of that sha, with the fetch called for exactly that sha |
| CloneWorkflow.WorkflowOrder | libs/orchestrator/src/workflows/clone/clone.workflow.ts:14-29 | resolve runs first with the input; fetch runs only after resolution succeeded, with the resolved sha; a failed resolution is the workflow's failure |
| CloneWorkflow.WorkflowResult | libs/orchestrator/src/workflows/clone/clone.workflow.ts:20-28 | a completed run's sha is the first successful resolve attempt's value and its path that of the first successful fetch of that sha, all earlier attempts having failed; every activity took one to three attempts |
| CloneWorkflow.FetchFailureFailsWorkflow | libs/orchestrator/src/workflows/clone/clone.workflow.ts:24 | after a successful resolution, a fetch failing all three attempts fails the workflow with the last attempt's error |
| CloneActivities.Activities.constructor | libs/orchestrator/src/workflows/clone/clone.activities.ts:4-6 | one work-directory service and one provider that uses it |
| CloneActivities.Activities.ResolveCommit | libs/orchestrator/src/workflows/clone/clone.activities.ts:9-11 | the activity returns the provider's outcome, errors included |
| CloneActivities.Activities.FetchSnapshot | libs/orchestrator/src/workflows/clone/clone.activities.ts:14-16 | every call fetches into a new `repo-` directory and returns the provider's outcome |
| CloneActivities.RetriedFetchUsesNewDirectory | libs/orchestrator/src/workflows/clone/clone.activities.ts:14-16 | two fetches of one commit, as a retry makes them, use different directories |
| HttpApi.AfterFailure | libs/repos/src/interface/http/repos.controller.ts:44-51 | running wins; otherwise a ref-not-found message is a 422 carrying the message; anything else is a 500 |
| HttpApi.CapitalisedPhrase | libs/repos/src/interface/http/repos.controller.ts:47 | scenario: `Ref not found` lower-cases to `ref not found` |
| HttpApi.MentionsWhenLowerStartsWith | libs/repos/src/interface/http/repos.controller.ts:47-48 | a message whose head lower-cases to the phrase is classified as ref-not-found, whatever follows |
| HttpApi.RefNotFoundIgnoresCase | libs/repos/src/interface/http/repos.controller.ts:47-48 | a message starting `Ref not found` is classified as ref-not-found |
| HttpApi.MentionHasSpace | libs/repos/src/interface/http/repos.controller.ts:47-48 | a message classified as ref-not-found contains a space |
| HttpApi.NoSpaceNoMention | libs/repos/src/interface/http/repos.controller.ts:47-48 | a message without a space is never classified as ref-not-found |
| HttpApi.SentinelIsNotRefNotFound | libs/repos/src/interface/http/repos.controller.ts:47-48 | scenario: `temporal-unavailable` is not classified as ref-not-found |
| HttpApi.OtherMessagesAreNotRefNotFound | libs/repos/src/interface/http/repos.controller.ts:47-48 | scenario: `boom` and an absent message are not ref-not-found |
| ReposController.RaiseTemporalUnavailable | libs/repos/src/interface/http/repos.controller.ts:10-15 | a 503 without detail exactly when the message is exactly `temporal-unavailable` |
| ReposController.StartClone | libs/repos/src/interface/http/repos.controller.ts:17-27 | started with the handle's id exactly when the start succeeds; otherwise 503 for the sentinel and a 500 with the message; nothing escapes |
| ReposController.DescribedStatus | libs/repos/src/interface/http/repos.controller.ts:38-43 | a describe failure is a 503 exactly for the sentinel; any other failure means no status |
| ReposController.GetCloneStatus | libs/repos/src/interface/http/repos.controller.ts:29-53 | the handle is taken, then the result awaited with `followRuns: false`; describe is called exactly when the result failed without the sentinel; completed exactly when the result succeeded |
| ReposController.StatusCases | libs/repos/src/interface/http/repos.controller.ts:36-51 | the poll's case table: the sentinel from either call is a 503, RUNNING wins, otherwise the running / 422 / 500 tail on the result's error and the described status, with 422 exactly for ref-not-found messages |
| ReposController.RefNotFoundIsInvalidRef | libs/repos/src/interface/http/repos.controller.ts:47-49 | a failed workflow with `Ref not found…` is a 422 `invalid ref` carrying the original message |
| ApiReposController.StartClone | apps/api/src/interface/http/repos.controller.ts:12-21 | started exactly when connecting and starting both succeed; every failure, of the connection or of the start, is a 500 `failed to start workflow` carrying that failure's message |
| ApiReposController.GetCloneStatus | apps/api/src/interface/http/repos.controller.ts:30-52 | a connection failure escapes before any handle is taken; a successful result is `completed` with the id and only the sha, after exactly the getHandle and result calls; describe is called exactly when the result failed; after a failed result the reply is the running / 422 / 500 tail, with any describe failure read as no status; only 422 or 500 is raised |
| ApiReposController.SameStatusWithoutSentinel | apps/api/src/interface/http/repos.controller.ts:30-52 | without the sentinel, both controllers answer a poll identically, calls included |
| ApiReposController.SentinelPollVariants | apps/api/src/interface/http/repos.controller.ts:38-51 | when result and describe both fail with the sentinel, the older controller answers 500 `workflow failed` carrying it, the live one 503 without describing |
| ApiReposController.StartCloneVariants | apps/api/src/interface/http/repos.controller.ts:12-21 | the two controllers start alike except on the sentinel: 503 in the live one, 500 with the sentinel as detail in the older |

## Left out

- The process runner's internals are left out: launching, exit codes, the `SIGTERM` timeout, and how a `ProcessError` message is built from stderr. `sh` is an oracle answering each command with stdout or an error message.
- Workdir.WorkdirService.Make: mkdtemp's random suffix and the filesystem are not modelled. The suffix is a run of `x` longer than every earlier path, which gives the same freshness.
- `WorkdirService` under libs/platform-infra, which the provider imports, is not part of this model. It is modelled after libs/codebase/src/infra/storage/workdir.service.ts.
- The Temporal runtime is left out: backoff between attempts, enforcement of the five-minute start-to-close timeout, durability, replay and scheduling. The policy constants are recorded in `CloneActivityOptions`; only the attempt bound shapes behaviour.
- Temporal's wrapping of failures is not modelled, and the workflow is not connected to the controllers. `CloneRepoWorkflow` fails with the failing activity's own message. The engine's `result` and `describe` answers, which the controllers read, are oracles unrelated to `CloneRepoWorkflow`, so no lemma carries a workflow failure's message (such as `ref not found: <ref>`) through to the controllers' 422. The SDK wraps an activity error in an `ActivityFailure` whose `cause` is the original error, and `result()` rejects with a `WorkflowFailedError`. Which message text the controllers then see is not captured.
- `HttpException.detail` stands for two response keys: the `detail` key of the start failure and the `error` key of the status failures.
- Concurrency is left out. Calls to the lazy client and to a proxy are taken one at a time, so the sharing of one in-flight promise between concurrent callers is not modelled.
- `console.log` in the workflow is not modelled.
- Text.ToLowerAt: lower-casing covers ASCII letters only. JavaScript's `toLowerCase` also folds the rest of Unicode.
- A thrown value whose `message` is not a string is not modelled. It is read as having no message, although `e?.message ?? "unknown"` would pass such a value through.
- A description without a status name is not modelled separately. It behaves like any status other than `RUNNING`.
- Success status codes (`@HttpCode(201)`, 200) and the `status` strings of response bodies are not carried. The body constructors `Started`, `Running` and `Completed` stand for them.
- The `temporalClient()` the apps/api controller imports from its own infra directory is not part of this model. Its outcome is the `connect` parameter.
- DTO validation, Nest module wiring, application bootstrap and the worker entry point are left out.
