# alaska, modelled in Dafny

alaska is a Kubernetes operator that keeps a Tekton pipeline in step with a
GitHub repository. A `Repo` object names:

- a repository URL;
- a branch;
- a target cluster.

The repository holds an `alaska.yaml`, which lists the manifests (or Helm
charts) to apply. The operator:

- translates that file into a Tekton `PipelineSpec`, with one task per manifest;
- starts a `PipelineRun` whenever the branch moves to a new commit;
- follows the run's `Succeeded` condition, polling every three seconds until the
  run succeeds.

This project models four parts of the operator, one module per source file:

| module | file | what it holds |
|---|---|---|
| `ApiConfig` | `api_config.dfy` | The current translator (`api/v1/config.go`). It handles executors, the `helm` release parameter and the `sequential` strategy. |
| `LegacyConfig` | `legacy_config.dfy` | The older translator (`pkg/alaska/config.go`). It takes bare paths and one fixed executor, and it is the one the controller uses. |
| `Trigger` | `trigger.dfy` | `TriggerPipeline` (`pkg/alaska/trigger.go`). It creates a run and records it at the front of a bounded history. |
| `Controller`, `ReconcileProperties` | `controller.dfy`, `reconcile_properties.dfy` | One pass of the `Repo` reconciler (`controllers/repo_controller.go`) and what a pass guarantees. |

Supporting modules:

- `Wrappers` holds `Option` and `Result`.
- `Text` covers what the source borrows from Go's libraries: `%d` formatting,
  `strings.Split`, `strings.TrimSuffix` and `path.Base`.
- `Tekton` holds the Tekton and knative records the core builds and reads.
- `RepoTypes` holds the `Repo` records of `api/v1/repo_types.go`. The in-memory
  `Repo` is a class, because the controller and `TriggerPipeline` update its
  status in place.
- `Store` models the Kubernetes API. The store is a value `World` with four
  maps: Repos, git `PipelineResource`s, `Pipeline`s and `PipelineRun`s. `Get`,
  `Create` and `Update` work on those maps:
  - "not found" and "already exists" follow from the maps' contents;
  - every other failure is a fault flag the caller passes in.

How the translators and the reconciler are modelled:

- **Translators.** Each translator is a specification function (`Plan`) and a
  method (`ToPipelineSpec`). The method appends tasks in a loop, as the source
  does, and is proved equal to `Plan`.
- **Reconcile.** `Reconcile` is a module-level method. It loads the Repo,
  allocates a `Repo` object for it, and lets `ReconcileBody` (and
  `CommitAndPoll`, the part after the pipeline step) update that object's
  status in place. The whole pass is proved equal to the function
  `ReconcileSpec`. `ReconcileSpec` is built from stages that follow
  the source's early returns:
  - `Prepare`: the git binding, then `Resolve` (URL, branch, config file), then
    the pipeline definition;
  - `CommitStage`;
  - `PollStage`;
  - the deferred status patch.
- **Collaborators.** GitHub, `url.Parse`, base64 decoding and the YAML parser
  are function-valued fields of `Env`. Their answers are inputs, and the
  properties hold for every answer.

## Model

| member | source | states |
|---|---|---|
| `Text.NatToString` | api/v1/config.go:66 | `%d` formatting: a non-empty string of decimal digits, with no leading zero except "0" itself |
| `Text.DecimalRoundTrip` | api/v1/config.go:66 | reading back the digits of `NatToString(n)` gives `n` |
| `Text.NatToStringInjective` | api/v1/config.go:66 | different numbers format differently, so task names by position never collide |
| `Text.Split` | controllers/repo_controller.go:87-88 | `strings.Split`: at least one piece, and no piece contains the separator |
| `Text.SplitJoin` | controllers/repo_controller.go:87-88 | splitting the join of separator-free pieces gives those pieces back |
| `Text.JoinSplit` | controllers/repo_controller.go:87-88 | joining the pieces of a split gives the original string back |
| `Text.SplitAfterPiece` | controllers/repo_controller.go:87-88 | a separator-free first piece followed by the separator splits off as the first element |
| `Text.SplitSeparatorFree` | controllers/repo_controller.go:87-88 | a string without the separator splits into itself alone |
| `Text.TrimSuffix` | controllers/repo_controller.go:88 | `strings.TrimSuffix`: with the suffix present, the result plus the suffix is the input; otherwise the input is unchanged |
| `Text.StripTrailingSlashes` | api/v1/config.go:109 | `path.Base` step: removes exactly the trailing '/' characters and keeps the rest as a prefix |
| `Text.LastSlash` | api/v1/config.go:109 | `path.Base` step: the index of the last '/', or -1; no '/' follows it |
| `Text.AfterLastSlash` | api/v1/config.go:109 | `path.Base` step: the longest '/'-free suffix, which follows a '/' when it is not the whole string |
| `Text.Base` | api/v1/config.go:109 | `path.Base`: never empty; "." for the empty path, "/" for a path of slashes only, otherwise a '/'-free element (which one is pinned by the lemmas below) |
| `Text.BaseIgnoresTrailingSlash` | api/v1/config.go:109 | a trailing '/' does not change the base: `Base(p + "/") == Base(p)` |
| `Text.BaseOfChild` | api/v1/config.go:109 | the base of `dir/name` is `name`, for a non-empty '/'-free name |
| `Text.AfterLastSlashOfChild` | api/v1/config.go:109 | the last element of `dir/name` is `name` |
| `Text.BaseOfName` | api/v1/config.go:109 | the base of a non-empty '/'-free name is the name itself |
| `Text.AfterLastSlashOfName` | api/v1/config.go:109 | the last element of a '/'-free name is the name itself |
| `ApiConfig.TaskNameInjective` | api/v1/config.go:66 | `task-i` and `task-j` are equal exactly when `i == j` |
| `ApiConfig.ToTaskName` | api/v1/config.go:117-119 | `alaska-<e>-executor`: the executor can be read back from the task name |
| `ApiConfig.KnownNames` | api/v1/config_test.go:16-57 | `task-0`, `task-1`, `alaska-kubectl-executor` and `alaska-helm-executor`, the names the scenario lemmas compare against |
| `ApiConfig.ToTaskNameInjective` | api/v1/config.go:117-119 | different executors give different ClusterTask names |
| `ApiConfig.EffectiveExecutor` | api/v1/config.go:58-63 | an empty type means `kubectl`; any other type, unknown ones included, is used verbatim |
| `ApiConfig.ToParams` | api/v1/config.go:95-115 | the first parameter is `path` = the manifest path; a second, `release` = `path.Base(path)`, is there exactly when the type is `helm` |
| `ApiConfig.Plan` | api/v1/config.go:42-93 | declares `repo` (git) then `cluster` (cluster); one task per manifest, in order, named `task-i`, with its parameters, the two inputs and a ClusterTask reference to its executor; `RunAfter` on task `i > 0` is `[task-(i-1)]` under `sequential` and empty otherwise |
| `ApiConfig.TaskName` | api/v1/config.go:66 | definition of `task-<i>`; its properties are in `TaskNameInjective` and `KnownNames` |
| `ApiConfig.TaskFor` | api/v1/config.go:65-88 | definition of the task built for the i-th manifest; its properties are stated by `Plan` |
| `ApiConfig.ToPipelineSpec` | api/v1/config.go:57-91 | the append loop builds exactly `Plan(c)` |
| `ApiConfig.TaskRefNamesExecutor` | api/v1/config.go:80-83 | every task references the ClusterTask of its manifest's effective executor |
| `ApiConfig.TaskNamesDistinct` | api/v1/config.go:66 | no two tasks of a plan share a name |
| `ApiConfig.SequentialChain` | api/v1/config.go:86-88 | under `sequential`, task 0 waits for nothing and task `i > 0` waits for exactly one task: the one at `i-1` |
| `ApiConfig.NonSequentialIsUnordered` | api/v1/config.go:86-88 | under any other strategy (empty, `parallel`, unknown) no task has `RunAfter` |
| `ApiConfig.RunAfterPointsBackward` | api/v1/config.go:86-88 | every `RunAfter` entry names an earlier task, so the order has no cycle |
| `ApiConfig.KubectlManifestScenario` | api/v1/config_test.go:60-71 | the single `test.yaml` manifest translates to the pinned spec |
| `ApiConfig.HelmChartScenario` | api/v1/config_test.go:73-107 | the `path/to/chart` helm entry gets the `alaska-helm-executor` task and `release` = `chart` |
| `ApiConfig.ChartRelease` | api/v1/config_test.go:86-102 | the helm entry `path/to/chart` gets the parameters `path` = `path/to/chart` and `release` = `chart` |
| `ApiConfig.SequentialScenario` | api/v1/config_test.go:109-120 | with two manifests under `sequential`, task 1 runs after `task-0` |
| `LegacyConfig.TaskFor` | pkg/alaska/config.go:37-64 | definition of the task built for the i-th path; its properties are stated by `LegacyConfig.Plan` |
| `LegacyConfig.Plan` | pkg/alaska/config.go:21-67 | declares `repo` then `cluster`; one task per path, named `task-i`, with the single parameter `path`, both inputs, the ClusterTask `alaska-kubectl-executor` and no `RunAfter` |
| `LegacyConfig.ToPipelineSpec` | pkg/alaska/config.go:36-65 | the append loop builds exactly `Plan(c)` |
| `LegacyConfig.AgreesWithCurrentTranslator` | pkg/alaska/config.go:21-67 | for any strategy other than `sequential`, the old translator equals the current one on the same paths with an empty type |
| `LegacyConfig.SinglePathScenario` | pkg/alaska/config_test.go:10-66 | `test.yaml` translates to the pinned spec |
| `Trigger.RunBindsDeclaredResources` | pkg/alaska/trigger.go:16-48 | the run binds `repo` to the Repo and `cluster` to `Spec.Cluster`, which are the resources the current translator declares |
| `Trigger.Push` | pkg/alaska/trigger.go:64-69 | the new entry comes first, followed by at most three old entries, newest first and in their original order; the length is `min(n+1, 4)` |
| `Trigger.NewPipelineRun` | pkg/alaska/trigger.go:16-48 | definition of the run object; its properties are in `RunBindsDeclaredResources` and `TriggerPipeline` |
| `Trigger.NewRunStatus` | pkg/alaska/trigger.go:54-62 | definition of the history entry for a new run; its use is stated by `TriggerPipeline` |
| `Trigger.TriggerPipeline` | pkg/alaska/trigger.go:15-71 | the run is created as `<repo>-<sha>-<suffix>` with the two bindings. If creation fails, the error is returned and nothing changes. If it succeeds, `Runs` becomes `Push(Runs, entry)`, where the entry is not completed and not succeeded, has an empty status and points to the run; every other status field stays as it was |
| `Trigger.Window` | pkg/alaska/trigger.go:64-69 | the newest four entries of a history: a prefix of length `min(n, 4)` |
| `Trigger.PushIsWindow` | pkg/alaska/trigger.go:64-69 | one insertion keeps the newest four of the new entry followed by the history |
| `Trigger.WindowOfWindow` | pkg/alaska/trigger.go:64-69 | truncating early or late keeps the same entries |
| `Trigger.PushAllKeepsNewest` | pkg/alaska/trigger.go:64-69 | after any number of insertions, the history is the four newest runs, newest first |
| `Trigger.FullHistoryEvictsOldest` | pkg/alaska/trigger.go:64-69 | with a full history, an insertion drops the oldest entry and keeps the length at four |
| `Controller.ParseRepoPath` | controllers/repo_controller.go:87-88 | owner and repository name are the 2nd and 3rd path segments, with `.git` trimmed; neither contains '/' |
| `Controller.ParseRepoPathRoundTrip` | controllers/repo_controller.go:87-88 | `/<owner>/<name>.git` parses back to `(owner, name)` |
| `Controller.ParseRepoPathRoundTripBare` | controllers/repo_controller.go:87-88 | `/<owner>/<name>` without `.git` parses back to `(owner, name)` |
| `Controller.ParseRepoPathLonger` | controllers/repo_controller.go:87-88 | further segments are ignored: `/<owner>/<name>/<rest>` (for example a trailing slash) gives `owner` and `name` with one `.git` trimmed |
| `Controller.ShortSHA` | controllers/repo_controller.go:96 | the first seven characters of the commit SHA |
| `Controller.EnsureGitResource` | controllers/repo_controller.go:163-202 | an existing binding is left as it is. A missing one is created with `url` = `Spec.URL` and `revision` = `Spec.Branch`. It succeeds exactly when the lookup works and either the binding exists or the creation works |
| `Controller.PatchGitResource` | controllers/repo_controller.go:212-236 | succeeds exactly when the binding exists and neither call fails; the binding's parameters then become `url` and `revision` = sha, and nothing else changes |
| `Controller.TriggerTaskRun` | controllers/repo_controller.go:238-272 | creates the run `<repo>-<sha>`, which binds only `repo` and runs the pipeline `<repo>`; if the name is already taken, the result is "already exists" and nothing changes |
| `Controller.EnsurePipeline` | controllers/repo_controller.go:304-332 | on success the stored pipeline is the legacy translation of the config, whether it was created or overwritten; success needs both calls to work |
| `Controller.LastSucceeded` | controllers/repo_controller.go:295-300 | the last condition of type `Succeeded`, or none exactly when no condition has that type |
| `Controller.LastSucceededIndexUnique` | controllers/repo_controller.go:295-300 | at most one condition is the last of type `Succeeded` |
| `Controller.TranslateConditions` | controllers/repo_controller.go:285-300 | the status is fresh (not completed, pointing to the run); the status text and success come from the last `Succeeded` condition, or are "" and false when there is none |
| `Controller.BindingParams` | controllers/repo_controller.go:183-192 | definition of the binding's `url` and `revision` parameters, also built at lines 220-229; used by `GitResourceFor` and `PatchGitResource` |
| `Controller.RunKey` | controllers/repo_controller.go:275-278 | definition of the run's key `<repo>-<sha>` in the repo's namespace, the name also given at line 241; used by `TriggerTaskRun` and `PollRun` |
| `Controller.RunStatus` | controllers/repo_controller.go:285-300 | definition of the status built from a fetched run; used by `PollRun`, its properties are in `TranslateConditions` |
| `Controller.PollRun` | controllers/repo_controller.go:274-283 | finds the run `<repo>-<sha>` and returns its translated status; fails exactly when the run is missing or the lookup fails |
| `Controller.Resolve` | controllers/repo_controller.go:82-113 | a failure is an error exactly when `url.Parse` failed, and then carries the parse failure. A failed branch lookup ends quietly. Otherwise it succeeds exactly when the config file fetched, decoded and parsed at the short SHA does, and yields that SHA (the first seven characters of the branch head) with that config |
| `Controller.FetchConfig` | controllers/repo_controller.go:97-113 | definition: `alaska.yaml` at the given ref, base64-decoded, then parsed; its use is stated by `Resolve` |
| `Controller.GitResourceFor` | controllers/repo_controller.go:168-194 | definition of the git binding a Repo gets: type git, `url` = `Spec.URL`, `revision` = `Spec.Branch`; its use is stated by `EnsureGitResource` |
| `Controller.RunFor` | controllers/repo_controller.go:239-265 | definition of the controller's run `<repo>-<sha>`; its properties are in `TriggerTaskRun` and `ReconcileProperties.ControllerRunLacksClusterBinding` |
| `Controller.PollStage` | controllers/repo_controller.go:140-152 | definition of the polling stage; its properties are in `ReconcileProperties.PollStageRequeue` and `PollStageKeepsWorldAndCommit` |
| `Controller.CommitStage` | controllers/repo_controller.go:122-154 | definition of the commit comparison followed by polling; its properties are in `ReconcileProperties.CommitStageRecordsSHA`, `CommitStageKeepsPipelines`, `CommitStageRequeue` and `CommitStageErrors` |
| `Controller.PassBody` | controllers/repo_controller.go:77-154 | definition of a pass after the load: `Prepare`, then `CommitStage`; its properties are in the `ReconcileProperties` lemmas |
| `Controller.PatchStatus` | controllers/repo_controller.go:71-75 | the deferred status patch: on success only the Repo's status changes, to the in-memory one, with its spec kept; on failure nothing changes |
| `Controller.ReconcileSpec` | controllers/repo_controller.go:56-155 | definition of a whole pass; its properties are in the `ReconcileProperties` lemmas |
| `Controller.Prepare` | controllers/repo_controller.go:77-118 | succeeds exactly when the git binding, the resolution and both pipeline calls succeed. On failure there is no requeue, no run, and CommitSHA, the run status and the run history are as loaded; only a URL error is returned. On success TektonRef is set and the stored pipeline is the translation |
| `Controller.EnsureTektonGitResource` | controllers/repo_controller.go:163-210 | store as in `EnsureGitResource`; TektonRef is set only when that succeeds |
| `Controller.UpdatePipelineRunStatus` | controllers/repo_controller.go:274-302 | on a failed lookup the error is returned and the status is unchanged. Otherwise the loop leaves the current-run status equal to the translation of all conditions, so the last `Succeeded` condition wins |
| `Controller.ReconcileBody` | controllers/repo_controller.go:77-154 | the step-by-step pass ends exactly as `PassBody` describes |
| `Controller.CommitAndPoll` | controllers/repo_controller.go:122-154 | the commit comparison and the polling end exactly as `CommitStage` describes |
| `Controller.Reconcile` | controllers/repo_controller.go:56-155 | the pass returns and stores exactly what `ReconcileSpec` gives, with the status patched back at every exit after the load |
| `ReconcileProperties.UnloadedRepoIsLeftAlone` | controllers/repo_controller.go:60-67 | a missing Repo gives an empty result and no error; a failed load gives the error; either way the store is untouched |
| `ReconcileProperties.EarlyExitKeepsCommit` | controllers/repo_controller.go:77-118 | a failure before the commit comparison means no requeue, no run and an unchanged CommitSHA; only a URL error is returned |
| `ReconcileProperties.PipelineMatchesConfig` | controllers/repo_controller.go:109-118 | after a pass that got past the pipeline step, the stored pipeline is the translation of the config fetched at the short SHA |
| `ReconcileProperties.CommitStageKeepsPipelines` | controllers/repo_controller.go:122-154 | nothing after the pipeline step changes the stored pipelines or Repos |
| `ReconcileProperties.NewCommitStartsRun` | controllers/repo_controller.go:122-133 | for a new SHA with a cooperative store: CommitSHA becomes the SHA, the binding's revision becomes the SHA, and exactly the run `<repo>-<sha>` is added |
| `ReconcileProperties.PollStageKeepsWorldAndCommit` | controllers/repo_controller.go:140-152 | polling changes neither the store nor the recorded commit |
| `ReconcileProperties.CommitRecordedBeforeTrigger` | controllers/repo_controller.go:71-75 | once the status patch works, the persisted CommitSHA is the branch's short SHA, whatever later step fails |
| `ReconcileProperties.CommitStageRecordsSHA` | controllers/repo_controller.go:122-124 | the commit stage always leaves CommitSHA at the resolved SHA |
| `ReconcileProperties.UnchangedCommitStartsNoRun` | controllers/repo_controller.go:122 | when CommitSHA already is the short SHA, no run is created and no existing binding changes |
| `ReconcileProperties.NoSecondRunForSameCommit` | controllers/repo_controller.go:71-75 | after a pass that reached the commit comparison and persisted its status, a later pass on the same branch head creates no run, even when the first pass's trigger failed |
| `ReconcileProperties.CommitStageErrors` | controllers/repo_controller.go:122-154 | the commit and polling stages return an error exactly when, on a new SHA, the binding patch or the run creation fails; that call's error is returned, with no requeue, and a failed read of the run is no error |
| `ReconcileProperties.PassErrors` | controllers/repo_controller.go:56-155 | a whole pass returns an error exactly for a failed load of the Repo, a URL that does not parse once the binding exists, or a failed binding patch or run creation; an error never comes with a requeue |
| `ReconcileProperties.PassKeepsRunHistory` | controllers/repo_controller.go:56-155 | after any pass on a loaded Repo, its persisted run history is exactly the one it had |
| `ReconcileProperties.PassNeverCompletes` | controllers/repo_controller.go:56-155 | a pass never marks the run status completed: a completed status after the pass is the one the Repo already had |
| `ReconcileProperties.StatusAfterPass` | controllers/repo_controller.go:56-155 | both facts above for one pass: the run history is kept, and the only completed run status possible is the loaded one |
| `ReconcileProperties.CommitStageKeepsHistory` | controllers/repo_controller.go:122-154 | the commit and polling stages keep the run history, and any completed status they leave is the one they were given |
| `ReconcileProperties.PollStageKeepsHistory` | controllers/repo_controller.go:140-152 | polling keeps the run history and records only statuses that are not completed |
| `ReconcileProperties.RequeueMeansNotSucceeded` | controllers/repo_controller.go:140-154 | every pass returns either no delay or 3 seconds; the 3-second requeue happens only without an error, after the run was found not succeeded, and the persisted status then says so |
| `ReconcileProperties.CommitStageRequeue` | controllers/repo_controller.go:122-154 | the same requeue decision, stated for the commit and polling stages |
| `ReconcileProperties.PollStageRequeue` | controllers/repo_controller.go:140-152 | a requeue from polling leaves the store as it was and records the run's not-succeeded status |
| `ReconcileProperties.SucceededRunNotPolledAgain` | controllers/repo_controller.go:140 | with the commit unchanged and the run already recorded as succeeded, the pass ends with no requeue and no error, and the recorded run status stays as it was |
| `ReconcileProperties.FailedRunKeepsRequeuing` | controllers/repo_controller.go:140-149 | with the commit unchanged and no true `Succeeded` condition on the run (a failed run, say), every pass that can read the run requeues after 3 seconds |
| `ReconcileProperties.NotTrueRunHasNotSucceeded` | controllers/repo_controller.go:295-300 | a run with no true `Succeeded` condition is translated as not succeeded |
| `ReconcileProperties.ControllerRunLacksClusterBinding` | controllers/repo_controller.go:253-260 | the controller's run binds only `repo`, while the pipeline it refers to declares `repo` and `cluster` |
| `ReconcileProperties.EnsureGitResourceIdempotent` | controllers/repo_controller.go:163-202 | ensuring the git binding a second time changes nothing |
| `ReconcileProperties.EnsurePipelineIdempotent` | controllers/repo_controller.go:304-332 | ensuring the pipeline a second time changes nothing |
| `ReconcileProperties.PatchGitResourceIdempotent` | controllers/repo_controller.go:212-236 | repointing the binding to the same revision a second time changes nothing |

## Where the code and its surroundings disagree

The model follows the code in each case below.

- **Pipeline status field.** The controller reads and writes
  `Status.Pipeline` (controllers/repo_controller.go:140, 146, 285), but
  `RepoStatus` in api/v1/repo_types.go:40-45 has no such field. The model's
  `RepoStatus` has an optional `pipeline` field next to `runs`.
- **History size.** The comment at pkg/alaska/trigger.go:64 says "limit to 5",
  but the code keeps at most four entries: the new one plus three old ones.
  `Trigger.HistoryBound` is 4. Which bound was meant is not known.
- **Which translator the controller uses.** The controller parses
  `alaska.yaml` into the legacy `Config` (controllers/repo_controller.go:109).
  Its pipelines therefore come from `LegacyConfig.Plan`. Nothing in the core
  calls the current translator; `TriggerPipeline` takes an api/v1 `Config`
  but ignores it.
- **Cluster binding.** The run the controller starts binds only `repo`, yet
  both translators declare `cluster` as well (see
  `ReconcileProperties.ControllerRunLacksClusterBinding`). `TriggerPipeline`'s
  run binds both.
- **History and completion.** The controller never adds to `Status.Runs` and
  never sets `Completed` (see `ReconcileProperties.PassKeepsRunHistory` and
  `ReconcileProperties.PassNeverCompletes`). The `config` argument of `triggerTaskRun` and of
  `TriggerPipeline` is unused.
- **Failed runs.** Only `Succeeded` is checked, so a failed run is requeued
  every three seconds for as long as the branch does not move (see
  `ReconcileProperties.FailedRunKeepsRequeuing`).

## Left out

- `Controller.Indexable`: the source indexes the URL path's segments 1 and 2
  and slices the SHA to seven characters without checking. A shorter path or
  SHA makes Go panic. The model requires both of every pass instead of
  modelling the panic.
- Owner references, `Kind`/`APIVersion`/`UID` in object references, labels and
  the other object metadata the source copies. They do not affect any
  decision.
- Merge-patch semantics (`client.MergeFrom`). Within one pass nothing else
  writes the Repo, so the deferred status patch is modelled as replacing the
  stored status with the in-memory one. The binding patch is modelled as
  replacing the binding's parameters.
- The Kubernetes API server, GitHub, `url.Parse`, base64 decoding and YAML
  unmarshalling. Their answers are inputs (`Env`, and the `Faults` flags for
  transient store failures), not implementations.
- The server-chosen suffix of `GenerateName` in `TriggerPipeline`; it is an
  input.
- A nil `content.Content` from GitHub, which would panic, is not modelled: the
  contents oracle always returns a string or an error.
- Logging, `SetupWithManager`, scheme registration, RBAC markers, and the
  framework's retry with backoff after a returned error.
- Concurrency between passes and the real three-second timer. The delay is
  only the value `RequeueAfter` = 3 in the result.
- The `cmd/akctl` command-line tool (cobra wiring, kubeconfig handling, secret
  reads, `time.Sleep`) is not part of this model. `retry.go` only wraps
  `TriggerPipeline` in store I/O.
- `ArrayOrString` parameter values are modelled as plain strings, because the
  translators only ever produce string values.
- Go strings are byte strings, and the model uses `char` sequences for the
  seven-character SHA slice and for `path.Base`; the two agree on ASCII SHAs
  and paths. A nil entry in `Config.Manifests` (a `~` in the YAML list) makes
  the translator panic; the model's manifest list has no nil entries.
