/**
 * One reconciliation pass of the Repo controller
 * (controllers/repo_controller.go): ensure the git binding, resolve the
 * branch's commit, fetch and translate the configuration file, ensure the
 * pipeline definition, start a run on a new commit, poll the current run and
 * decide whether to come back in three seconds. Every call to the resource
 * store, to GitHub and to the URL, base64 and YAML libraries is an input.
 */
module Controller {
  import opened Wrappers
  import opened Text
  import opened Tekton
  import opened RepoTypes
  import opened Store
  import LegacyConfig

  /** The configuration file read from the repository. */
  const ConfigFile := "alaska.yaml"

  /** Commit SHAs are shortened to this many characters. */
  const ShortSHALength: nat := 7

  /** The delay, in seconds, before a pass whose run has not succeeded is repeated. */
  const RequeueDelay: nat := 3

  /** `ctrl.Result`: how long to wait before the next pass, in seconds; 0 for no requeue. */
  datatype ReconcileResult = ReconcileResult(requeueAfter: nat)

  const Done := ReconcileResult(0)
  const RequeueSoon := ReconcileResult(RequeueDelay)

  /** The errors a pass returns to the framework (most failures are only logged). */
  datatype Error = ApiFailure(apiError: ApiError) | URLFailure(reason: string)

  /** Which store calls of a pass fail for reasons other than "not found" / "already exists". */
  datatype Faults = Faults(
    repoGet: bool,
    gitResourceGet: bool,
    gitResourceCreate: bool,
    pipelineGet: bool,
    pipelineWrite: bool,
    gitPatchGet: bool,
    gitPatch: bool,
    runCreate: bool,
    runGetAfterTrigger: bool,
    runGetPoll: bool,
    statusPatch: bool)

  /** The GitHub API: a branch's head commit SHA, and a file's base64 content at a ref. */
  datatype GitHub = GitHub(
    getBranch: (string, string, string) -> Result<string, string>,
    getContents: (string, string, string, string) -> Result<string, string>)

  /** Everything a pass consults besides the store's contents. */
  datatype Env = Env(
    urlPath: string -> Result<string, string>,
    github: GitHub,
    decodeBase64: string -> Result<string, string>,
    parseConfig: string -> Result<LegacyConfig.Config, string>,
    faults: Faults)

  // ---------------------------------------------------------------------------
  // Owner, repository name and short SHA
  // ---------------------------------------------------------------------------

  /**
   * Owner and repository name from a URL path `/<owner>/<name>[.git]...`: the
   * second and third '/'-separated segments, one trailing ".git" removed.
   */
  function ParseRepoPath(path: string): (r: (string, string))
    requires |Split(path, '/')| >= 3
    ensures '/' !in r.0 && '/' !in r.1
  {
    var segments := Split(path, '/');
    var name := TrimSuffix(segments[2], ".git");
    assert forall i :: 0 <= i < |name| ==> name[i] == segments[2][i];
    (segments[1], name)
  }

  /** The path `/<owner>/<name>.git` parses back into its owner and name. */
  lemma ParseRepoPathRoundTrip(owner: string, name: string)
    requires '/' !in owner && '/' !in name
    ensures |Split("/" + owner + "/" + name + ".git", '/')| >= 3
    ensures ParseRepoPath("/" + owner + "/" + name + ".git") == (owner, name)
  {
    var raw := name + ".git";
    assert '/' !in raw;
    assert Join([raw], '/') == raw;
    assert Join([owner, raw], '/') == owner + "/" + raw by { assert [owner, raw][1..] == [raw]; }
    assert Join(["", owner, raw], '/') == "/" + owner + "/" + raw by { assert ["", owner, raw][1..] == [owner, raw]; }
    SplitJoin(["", owner, raw], '/');
    assert "/" + owner + "/" + name + ".git" == "/" + owner + "/" + raw;
    assert HasSuffix(raw, ".git");
  }

  /**
   * Segments after the name are ignored: `/<owner>/<name>/<rest>` (a trailing
   * slash, or a deeper path) gives the same owner and name.
   */
  lemma ParseRepoPathLonger(owner: string, name: string, rest: string)
    requires '/' !in owner && '/' !in name
    ensures |Split("/" + owner + "/" + name + "/" + rest, '/')| >= 3
    ensures ParseRepoPath("/" + owner + "/" + name + "/" + rest) == (owner, TrimSuffix(name, ".git"))
  {
    var tail := name + "/" + rest;
    var mid := owner + "/" + tail;
    SplitAfterPiece(name, '/', rest);
    SplitAfterPiece(owner, '/', tail);
    SplitAfterPiece("", '/', mid);
    assert "" + "/" + mid == "/" + owner + "/" + name + "/" + rest;
    assert Split("/" + owner + "/" + name + "/" + rest, '/') == ["", owner, name] + Split(rest, '/');
  }

  /** The path `/<owner>/<name>` without the ".git" suffix parses the same way. */
  lemma ParseRepoPathRoundTripBare(owner: string, name: string)
    requires '/' !in owner && '/' !in name && !HasSuffix(name, ".git")
    ensures |Split("/" + owner + "/" + name, '/')| >= 3
    ensures ParseRepoPath("/" + owner + "/" + name) == (owner, name)
  {
    assert Join([name], '/') == name;
    assert Join([owner, name], '/') == owner + "/" + name by { assert [owner, name][1..] == [name]; }
    assert Join(["", owner, name], '/') == "/" + owner + "/" + name by { assert ["", owner, name][1..] == [owner, name]; }
    SplitJoin(["", owner, name], '/');
  }

  /** The first seven characters of a commit SHA. */
  function ShortSHA(sha: string): (r: string)
    requires |sha| >= ShortSHALength
    ensures |r| == ShortSHALength && r <= sha
  {
    sha[..ShortSHALength]
  }

  /**
   * What the source indexes without checking: the URL path has at least three
   * segments and the branch's commit SHA at least seven characters. A violation
   * makes the Go code panic, so it is required of every pass.
   */
  predicate Indexable(spec: RepoSpec, env: Env) {
    match env.urlPath(spec.url)
    case Failure(_) => true
    case Success(path) =>
      && |Split(path, '/')| >= 3
      && var (owner, name) := ParseRepoPath(path);
         var branch := env.github.getBranch(owner, name, spec.branch);
         branch.Success? ==> |branch.value| >= ShortSHALength
  }

  // ---------------------------------------------------------------------------
  // The store-side effects of the helpers
  // ---------------------------------------------------------------------------

  /** The parameters of the git binding: the repository URL and the revision to check out. */
  function BindingParams(url: string, revision: string): seq<ResourceParam> {
    [ResourceParam("url", url), ResourceParam("revision", revision)]
  }

  function GitResourceFor(spec: RepoSpec): PipelineResource {
    PipelineResource(Git, BindingParams(spec.url, spec.branch))
  }

  /**
   * `ensureTektonGitResource`, store side: nothing to do when the binding
   * exists; created on the branch when it is missing; any other failure of the
   * lookup or of the creation is returned.
   */
  function EnsureGitResource(w: World, key: Key, spec: RepoSpec, failGet: bool, failCreate: bool): (r: Result<World, ApiError>)
    ensures r.Success? <==> !failGet && (key in w.gitResources || !failCreate)
    ensures r.Success? && key in w.gitResources ==> r.value == w
    ensures r.Success? && key !in w.gitResources ==>
      r.value == w.(gitResources := w.gitResources[key := GitResourceFor(spec)])
  {
    match Get(w.gitResources, key, failGet)
    case Success(_) => Success(w)
    case Failure(e) =>
      if e == NotFound then
        match Create(w.gitResources, key, GitResourceFor(spec), failCreate)
        case Success(m) => Success(w.(gitResources := m))
        case Failure(e') => Failure(e')
      else Failure(e)
  }

  /** `patchGitResource`: point the existing git binding at the new revision. */
  function PatchGitResource(w: World, key: Key, url: string, sha: string, failGet: bool, failPatch: bool): (r: Result<World, ApiError>)
    ensures r.Success? <==> !failGet && key in w.gitResources && !failPatch
    ensures r.Success? ==>
      && key in r.value.gitResources
      && r.value.gitResources[key].params == BindingParams(url, sha)
      && r.value == w.(gitResources := w.gitResources[key := w.gitResources[key].(params := BindingParams(url, sha))])
  {
    match Get(w.gitResources, key, failGet)
    case Failure(e) => Failure(e)
    case Success(resource) =>
      match Update(w.gitResources, key, resource.(params := BindingParams(url, sha)), failPatch)
      case Success(m) => Success(w.(gitResources := m))
      case Failure(e) => Failure(e)
  }

  /** The run a new commit starts is named `<repo>-<sha>`. */
  function RunKey(key: Key, sha: string): Key {
    Key(key.namespace, key.name + "-" + sha)
  }

  /** The run `triggerTaskRun` creates: bound to the repo's git binding only, running the repo's pipeline. */
  function RunFor(key: Key, sha: string): PipelineRun {
    PipelineRun(key.name + "-" + sha, "", key.namespace, [ResourceBinding("repo", key.name)], key.name, [])
  }

  /** `triggerTaskRun`: create the run; a run of that name already existing is a failure. */
  function TriggerTaskRun(w: World, key: Key, sha: string, fail: bool): (r: Result<World, ApiError>)
    ensures r.Success? <==> !fail && RunKey(key, sha) !in w.runs
    ensures r.Success? ==> r.value == w.(runs := w.runs[RunKey(key, sha) := RunFor(key, sha)])
    ensures r.Failure? && !fail ==> r.error == AlreadyExists
  {
    match Create(w.runs, RunKey(key, sha), RunFor(key, sha), fail)
    case Success(m) => Success(w.(runs := m))
    case Failure(e) => Failure(e)
  }

  /**
   * `ensurePipelineForRepo`: the repo's pipeline definition becomes the
   * translation of the configuration, created when absent and overwritten
   * otherwise.
   */
  function EnsurePipeline(w: World, key: Key, cfg: LegacyConfig.Config, failGet: bool, failWrite: bool): (r: Result<World, ApiError>)
    ensures r.Success? <==> !failGet && !failWrite
    ensures r.Success? ==> r.value == w.(pipelines := w.pipelines[key := LegacyConfig.Plan(cfg)])
  {
    match Get(w.pipelines, key, failGet)
    case Failure(e) =>
      if e == NotFound then
        match Create(w.pipelines, key, LegacyConfig.Plan(cfg), failWrite)
        case Success(m) => Success(w.(pipelines := m))
        case Failure(e') => Failure(e')
      else Failure(e)
    case Success(_) =>
      match Update(w.pipelines, key, LegacyConfig.Plan(cfg), failWrite)
      case Success(m) => Success(w.(pipelines := m))
      case Failure(e) => Failure(e)
  }

  // ---------------------------------------------------------------------------
  // Translating a run's conditions into its status
  // ---------------------------------------------------------------------------

  /** The condition at index i is of type Succeeded and no later one is. */
  predicate IsLastSucceeded(conds: seq<Condition>, i: int) {
    && 0 <= i < |conds|
    && conds[i].ctype == ConditionSucceeded
    && forall j :: i < j < |conds| ==> conds[j].ctype != ConditionSucceeded
  }

  /** There is at most one last Succeeded condition. */
  lemma LastSucceededIndexUnique(conds: seq<Condition>, i: int, k: int)
    requires IsLastSucceeded(conds, i) && IsLastSucceeded(conds, k)
    ensures i == k
  {
  }

  /** The last condition of type Succeeded, if there is one. */
  function LastSucceeded(conds: seq<Condition>): (r: Option<Condition>)
    ensures r.None? <==> forall i :: 0 <= i < |conds| ==> conds[i].ctype != ConditionSucceeded
    ensures r.Some? ==> exists i :: IsLastSucceeded(conds, i) && conds[i] == r.value
    decreases |conds|
  {
    if |conds| == 0 then None
    else if conds[|conds| - 1].ctype == ConditionSucceeded then
      assert IsLastSucceeded(conds, |conds| - 1);
      Some(conds[|conds| - 1])
    else
      var init := conds[..|conds| - 1];
      var r := LastSucceeded(init);
      assert forall i :: 0 <= i < |conds| - 1 ==> init[i] == conds[i];
      assert r.Some? ==> exists i :: IsLastSucceeded(conds, i) && conds[i] == r.value by {
        if r.Some? {
          var i :| IsLastSucceeded(init, i) && init[i] == r.value;
          assert IsLastSucceeded(conds, i);
        }
      }
      r
  }

  /**
   * The status of the run `ref` with conditions `conds`: not completed; the
   * reason and truth of the last Succeeded condition, or "" and false when
   * there is none.
   */
  function TranslateConditions(ref: ObjectRef, conds: seq<Condition>): (ps: PipelineStatus)
    ensures ps.ref == Some(ref) && !ps.completed
    ensures (forall i :: 0 <= i < |conds| ==> conds[i].ctype != ConditionSucceeded) ==> ps.status == "" && !ps.succeeded
    ensures forall i :: IsLastSucceeded(conds, i) ==> ps.status == conds[i].reason && (ps.succeeded <==> IsTrue(conds[i]))
  {
    match LastSucceeded(conds)
    case None => PipelineStatus(false, Some(ref), "", false)
    case Some(c) =>
      assert forall i :: IsLastSucceeded(conds, i) ==> conds[i] == c by {
        var k :| IsLastSucceeded(conds, k) && conds[k] == c;
        forall i | IsLastSucceeded(conds, i) ensures conds[i] == c {
          LastSucceededIndexUnique(conds, i, k);
        }
      }
      PipelineStatus(false, Some(ref), c.reason, IsTrue(c))
  }

  function RunStatus(run: PipelineRun): PipelineStatus {
    TranslateConditions(ObjectRef(run.name, run.namespace), run.conditions)
  }

  /** The store side of `updatePipelineRunStatus`: look the run up and translate it. */
  function PollRun(w: World, key: Key, sha: string, fail: bool): (r: Result<PipelineStatus, ApiError>)
    ensures r.Success? <==> !fail && RunKey(key, sha) in w.runs
    ensures r.Success? ==> r.value == RunStatus(w.runs[RunKey(key, sha)])
  {
    match Get(w.runs, RunKey(key, sha), fail)
    case Failure(e) => Failure(e)
    case Success(run) => Success(RunStatus(run))
  }

  // ---------------------------------------------------------------------------
  // The pass as a function of its inputs
  // ---------------------------------------------------------------------------

  /** Where a pass stops: the store, the in-memory status, and what Reconcile returns. */
  datatype PassEnd = PassEnd(world: World, status: RepoStatus, result: ReconcileResult, err: Option<Error>)

  /** The state from which the commit comparison starts. */
  datatype Ready = Ready(world: World, status: RepoStatus, sha: string, config: LegacyConfig.Config)

  /** The configuration file at `ref`, base64-decoded and parsed. */
  function FetchConfig(env: Env, owner: string, repoName: string, ref: string): Result<LegacyConfig.Config, string> {
    match env.github.getContents(owner, repoName, ConfigFile, ref)
    case Failure(e) => Failure(e)
    case Success(content) =>
      match env.decodeBase64(content)
      case Failure(e) => Failure(e)
      case Success(text) => env.parseConfig(text)
  }

  /** The branch's short SHA and the configuration read at it. */
  datatype Resolved = Resolved(sha: string, config: LegacyConfig.Config)

  /**
   * The steps that consult only GitHub and the libraries: parse the URL, look
   * up the branch, fetch, decode and parse the configuration at the short SHA.
   * The store is not involved and its faults play no part. Only a bad URL is an
   * error; every other failure ends the pass quietly (`Failure(None)`).
   */
  function Resolve(spec: RepoSpec, env: Env): (r: Result<Resolved, Option<Error>>)
    requires Indexable(spec, env)
    ensures r.Success? ==> |r.value.sha| == ShortSHALength
    ensures (r.Failure? && r.error.Some?) <==> env.urlPath(spec.url).Failure?
    ensures r.Failure? && r.error.Some? ==> r.error.value == URLFailure(env.urlPath(spec.url).error)
    ensures env.urlPath(spec.url).Success? ==>
      var (owner, repoName) := ParseRepoPath(env.urlPath(spec.url).value);
      var branch := env.github.getBranch(owner, repoName, spec.branch);
      && (branch.Failure? ==> r == Failure(None))
      && (branch.Success? ==>
            var sha := ShortSHA(branch.value);
            var fetched := FetchConfig(env, owner, repoName, sha);
            && (r.Success? <==> fetched.Success?)
            && (r.Success? ==> r.value == Resolved(sha, fetched.value))
            && (r.Failure? ==> r == Failure(None)))
  {
    match env.urlPath(spec.url)
    case Failure(reason) => Failure(Some(URLFailure(reason)))
    case Success(path) =>
      var (owner, repoName) := ParseRepoPath(path);
      match env.github.getBranch(owner, repoName, spec.branch)
      case Failure(_) => Failure(None)
      case Success(commit) =>
        var sha := ShortSHA(commit);
        match FetchConfig(env, owner, repoName, sha)
        case Failure(_) => Failure(None)
        case Success(cfg) => Success(Resolved(sha, cfg))
  }

  /**
   * The stages before the commit comparison: the git binding, then the
   * resolution, then the pipeline definition. Each failure ends the pass with
   * no requeue, before any run exists and with CommitSHA and the run status as
   * loaded; only the git binding may have been created by then.
   */
  function Prepare(w: World, key: Key, obj: RepoObject, env: Env): (r: Result<Ready, PassEnd>)
    requires Indexable(obj.spec, env)
    ensures r.Success? <==>
      && EnsureGitResource(w, key, obj.spec, env.faults.gitResourceGet, env.faults.gitResourceCreate).Success?
      && Resolve(obj.spec, env).Success?
      && !env.faults.pipelineGet && !env.faults.pipelineWrite
    ensures r.Failure? ==>
      && r.error.result == Done
      && r.error.status.commitSHA == obj.status.commitSHA
      && r.error.status.pipeline == obj.status.pipeline
      && r.error.status.runs == obj.status.runs
      && r.error.world.runs == w.runs
      && r.error.world.repos == w.repos
      && r.error.world.pipelines == w.pipelines
      && (r.error.err.Some? ==> r.error.err.value.URLFailure?)
    ensures r.Success? ==>
      && r.value.sha == Resolve(obj.spec, env).value.sha
      && r.value.config == Resolve(obj.spec, env).value.config
      && r.value.status == obj.status.(tektonRef := Some(ObjectRef(key.name, key.namespace)))
      && r.value.world.runs == w.runs
      && r.value.world.repos == w.repos
      && key in r.value.world.gitResources
      && r.value.world.pipelines == w.pipelines[key := LegacyConfig.Plan(r.value.config)]
  {
    var f := env.faults;
    match EnsureGitResource(w, key, obj.spec, f.gitResourceGet, f.gitResourceCreate)
    case Failure(_) => Failure(PassEnd(w, obj.status, Done, None))
    case Success(w1) =>
      var st1 := obj.status.(tektonRef := Some(ObjectRef(key.name, key.namespace)));
      match Resolve(obj.spec, env)
      case Failure(err) => Failure(PassEnd(w1, st1, Done, err))
      case Success(res) =>
        match EnsurePipeline(w1, key, res.config, f.pipelineGet, f.pipelineWrite)
        case Failure(_) => Failure(PassEnd(w1, st1, Done, None))
        case Success(w2) => Success(Ready(w2, st1, res.sha, res.config))
  }

  /** Polling: skipped once the current run has succeeded; otherwise requeue until it does. */
  function PollStage(w: World, key: Key, st: RepoStatus, sha: string, fail: bool): PassEnd {
    if st.pipeline.None? || !st.pipeline.value.succeeded then
      match PollRun(w, key, sha, fail)
      case Failure(_) => PassEnd(w, st, Done, None)
      case Success(ps) =>
        var st' := st.(pipeline := Some(ps));
        if !ps.succeeded then PassEnd(w, st', RequeueSoon, None) else PassEnd(w, st', Done, None)
    else PassEnd(w, st, Done, None)
  }

  /**
   * The commit comparison: on a new SHA, record it first, then repoint the git
   * binding, start the run and read its status; then poll.
   */
  function CommitStage(w: World, st: RepoStatus, key: Key, url: string, sha: string, f: Faults): PassEnd {
    if st.commitSHA != sha then
      var st2 := st.(commitSHA := sha);
      match PatchGitResource(w, key, url, sha, f.gitPatchGet, f.gitPatch)
      case Failure(e) => PassEnd(w, st2, Done, Some(ApiFailure(e)))
      case Success(w3) =>
        match TriggerTaskRun(w3, key, sha, f.runCreate)
        case Failure(e) => PassEnd(w3, st2, Done, Some(ApiFailure(e)))
        case Success(w4) =>
          match PollRun(w4, key, sha, f.runGetAfterTrigger)
          case Failure(_) => PassEnd(w4, st2, Done, None)
          case Success(ps) => PollStage(w4, key, st2.(pipeline := Some(ps)), sha, f.runGetPoll)
    else PollStage(w, key, st, sha, f.runGetPoll)
  }

  /** A pass after the Repo was loaded, up to (not including) the deferred status patch. */
  function PassBody(w: World, key: Key, obj: RepoObject, env: Env): PassEnd
    requires Indexable(obj.spec, env)
  {
    match Prepare(w, key, obj, env)
    case Failure(end) => end
    case Success(r) => CommitStage(r.world, r.status, key, obj.spec.url, r.sha, env.faults)
  }

  /** The deferred status patch; its failure (also "not found") is only logged. */
  function PatchStatus(w: World, key: Key, status: RepoStatus, fail: bool): (w': World)
    ensures w'.gitResources == w.gitResources && w'.pipelines == w.pipelines && w'.runs == w.runs
    ensures w'.repos.Keys == w.repos.Keys
    ensures !fail && key in w.repos ==> w'.repos[key] == RepoObject(w.repos[key].spec, status)
    ensures forall k :: k in w.repos && (fail || k != key) ==> w'.repos[k] == w.repos[k]
  {
    if !fail && key in w.repos then w.(repos := w.repos[key := w.repos[key].(status := status)]) else w
  }

  /** What a pass leaves behind: the store and the value Reconcile returns. */
  datatype Outcome = Outcome(world: World, result: ReconcileResult, err: Option<Error>)

  /** A whole pass: load the Repo, run the stages, persist the status at every exit. */
  function ReconcileSpec(w: World, key: Key, env: Env): Outcome
    requires key in w.repos ==> Indexable(w.repos[key].spec, env)
  {
    match Get(w.repos, key, env.faults.repoGet)
    case Failure(e) => if e == NotFound then Outcome(w, Done, None) else Outcome(w, Done, Some(ApiFailure(e)))
    case Success(obj) =>
      var end := PassBody(w, key, obj, env);
      Outcome(PatchStatus(end.world, key, end.status, env.faults.statusPatch), end.result, end.err)
  }

  // ---------------------------------------------------------------------------
  // The pass as the source runs it: step by step on the loaded Repo
  // ---------------------------------------------------------------------------

  /** `ensureTektonGitResource`: on success the Repo's TektonRef names the binding. */
  method EnsureTektonGitResource(w: World, repo: Repo, failGet: bool, failCreate: bool)
    returns (w': World, err: Option<ApiError>)
    modifies repo`status
    ensures match EnsureGitResource(w, Key(repo.namespace, repo.name), repo.spec, failGet, failCreate)
      case Failure(e) => w' == w && err == Some(e) && repo.status == old(repo.status)
      case Success(w1) =>
        w' == w1 && err == None && repo.status == old(repo.status).(tektonRef := Some(ObjectRef(repo.name, repo.namespace)))
  {
    var key := Key(repo.namespace, repo.name);
    w' := w;
    var found := Get(w.gitResources, key, failGet);
    if found.Failure? {
      if found.error == NotFound {
        var created := Create(w.gitResources, key, GitResourceFor(repo.spec), failCreate);
        if created.Failure? {
          return w, Some(created.error);
        }
        w' := w.(gitResources := created.value);
      } else {
        return w, Some(found.error);
      }
    }
    repo.status := repo.status.(tektonRef := Some(ObjectRef(repo.name, repo.namespace)));
    err := None;
  }

  /**
   * `updatePipelineRunStatus`: look up the run `<repo>-<sha>`, reset the
   * current-run status, then let every Succeeded condition overwrite its
   * status and outcome in turn.
   */
  method UpdatePipelineRunStatus(w: World, repo: Repo, sha: string, fail: bool) returns (err: Option<ApiError>)
    modifies repo`status
    ensures match PollRun(w, Key(repo.namespace, repo.name), sha, fail)
      case Failure(e) => err == Some(e) && repo.status == old(repo.status)
      case Success(ps) => err == None && repo.status == old(repo.status).(pipeline := Some(ps))
  {
    var found := Get(w.runs, RunKey(Key(repo.namespace, repo.name), sha), fail);
    if found.Failure? {
      return Some(found.error);
    }
    var pipelineRun := found.value;
    var ref := ObjectRef(pipelineRun.name, pipelineRun.namespace);
    var conds := pipelineRun.conditions;
    repo.status := repo.status.(pipeline := Some(PipelineStatus(false, Some(ref), "", false)));
    for i := 0 to |conds|
      invariant repo.status == old(repo.status).(pipeline := Some(TranslateConditions(ref, conds[..i])))
    {
      var condition := conds[i];
      assert conds[..i + 1][..i] == conds[..i];
      if condition.ctype == ConditionSucceeded {
        var current := repo.status.pipeline.value;
        repo.status := repo.status.(pipeline := Some(current.(status := condition.reason, succeeded := IsTrue(condition))));
      }
    }
    assert conds[..|conds|] == conds;
    err := None;
  }

  /** The body of `Reconcile` after the Repo was loaded, with its early returns. */
  method ReconcileBody(w: World, repo: Repo, env: Env) returns (w': World, result: ReconcileResult, err: Option<Error>)
    requires Indexable(repo.spec, env)
    modifies repo`status
    ensures PassEnd(w', repo.status, result, err)
         == PassBody(w, Key(repo.namespace, repo.name), RepoObject(repo.spec, old(repo.status)), env)
  {
    var key := Key(repo.namespace, repo.name);
    var f := env.faults;
    var apiErr;
    w', apiErr := EnsureTektonGitResource(w, repo, f.gitResourceGet, f.gitResourceCreate);
    if apiErr.Some? {
      return w', Done, None;
    }

    var url := env.urlPath(repo.spec.url);
    if url.Failure? {
      return w', Done, Some(URLFailure(url.error));
    }
    var segments := Split(url.value, '/');
    var owner := segments[1];
    var repoName := TrimSuffix(segments[2], ".git");

    var branch := env.github.getBranch(owner, repoName, repo.spec.branch);
    if branch.Failure? {
      return w', Done, None;
    }
    var sha := branch.value[..ShortSHALength];
    var content := env.github.getContents(owner, repoName, ConfigFile, sha);
    if content.Failure? {
      return w', Done, None;
    }
    var decoded := env.decodeBase64(content.value);
    if decoded.Failure? {
      return w', Done, None;
    }
    var config := env.parseConfig(decoded.value);
    if config.Failure? {
      return w', Done, None;
    }
    var ensured := EnsurePipeline(w', key, config.value, f.pipelineGet, f.pipelineWrite);
    if ensured.Failure? {
      return w', Done, None;
    }
    w' := ensured.value;

    w', result, err := CommitAndPoll(w', repo, sha, f);
  }

  /**
   * The rest of `Reconcile` once the pipeline definition is in place: the
   * commit comparison (record the SHA, repoint the git binding, start the run,
   * read its status) and the polling that decides the requeue.
   */
  method CommitAndPoll(w: World, repo: Repo, sha: string, f: Faults) returns (w': World, result: ReconcileResult, err: Option<Error>)
    modifies repo`status
    ensures PassEnd(w', repo.status, result, err)
         == CommitStage(w, old(repo.status), Key(repo.namespace, repo.name), repo.spec.url, sha, f)
  {
    var key := Key(repo.namespace, repo.name);
    w' := w;
    if repo.status.commitSHA != sha {
      repo.status := repo.status.(commitSHA := sha);
      var patched := PatchGitResource(w', key, repo.spec.url, sha, f.gitPatchGet, f.gitPatch);
      if patched.Failure? {
        return w', Done, Some(ApiFailure(patched.error));
      }
      w' := patched.value;
      var triggered := TriggerTaskRun(w', key, sha, f.runCreate);
      if triggered.Failure? {
        return w', Done, Some(ApiFailure(triggered.error));
      }
      w' := triggered.value;
      var initErr := UpdatePipelineRunStatus(w', repo, sha, f.runGetAfterTrigger);
      if initErr.Some? {
        return w', Done, None;
      }
    }

    if repo.status.pipeline.None? || !repo.status.pipeline.value.succeeded {
      var pollErr := UpdatePipelineRunStatus(w', repo, sha, f.runGetPoll);
      if pollErr.Some? {
        return w', Done, None;
      }
      if !repo.status.pipeline.value.succeeded {
        return w', RequeueSoon, None;
      }
    }
    return w', Done, None;
  }

  /**
   * `Reconcile`: load the Repo (a missing one ends the pass quietly), run the
   * stages on an in-memory copy, and patch its status back at every exit.
   */
  method Reconcile(w: World, key: Key, env: Env) returns (w': World, result: ReconcileResult, err: Option<Error>)
    requires key in w.repos ==> Indexable(w.repos[key].spec, env)
    ensures Outcome(w', result, err) == ReconcileSpec(w, key, env)
  {
    var loaded := Get(w.repos, key, env.faults.repoGet);
    if loaded.Failure? {
      if loaded.error == NotFound {
        return w, Done, None;
      }
      return w, Done, Some(ApiFailure(loaded.error));
    }
    var repo := new Repo(key.name, key.namespace, loaded.value.spec, loaded.value.status);
    w', result, err := ReconcileBody(w, repo, env);
    w' := PatchStatus(w', key, repo.status, env.faults.statusPatch);
  }
}
