/**
 * What a reconciliation pass guarantees, stated over `Controller.ReconcileSpec`
 * for every store, every collaborator answer and every combination of faults.
 */
module ReconcileProperties {
  import opened Wrappers
  import opened Tekton
  import opened RepoTypes
  import opened Store
  import LegacyConfig
  import opened Controller

  /** A Repo that is missing or cannot be loaded is left alone; only a failed load is an error. */
  lemma UnloadedRepoIsLeftAlone(w: World, key: Key, env: Env)
    requires key !in w.repos || env.faults.repoGet
    requires key in w.repos ==> Indexable(w.repos[key].spec, env)
    ensures ReconcileSpec(w, key, env).world == w
    ensures ReconcileSpec(w, key, env).result == Done
    ensures ReconcileSpec(w, key, env).err.None? <==> !env.faults.repoGet
  {
  }

  /**
   * A failure before the commit comparison (git binding, URL, branch, config
   * fetch, decode or parse, pipeline definition) ends the pass without a requeue
   * and without a run, and the persisted CommitSHA stays as it was; only a bad
   * URL is returned as an error.
   */
  lemma EarlyExitKeepsCommit(w: World, key: Key, env: Env)
    requires key in w.repos && !env.faults.repoGet && Indexable(w.repos[key].spec, env)
    requires Prepare(w, key, w.repos[key], env).Failure?
    ensures ReconcileSpec(w, key, env).result == Done
    ensures ReconcileSpec(w, key, env).world.runs == w.runs
    ensures key in ReconcileSpec(w, key, env).world.repos
    ensures ReconcileSpec(w, key, env).world.repos[key].status.commitSHA == w.repos[key].status.commitSHA
    ensures ReconcileSpec(w, key, env).err.Some? ==> ReconcileSpec(w, key, env).err.value.URLFailure?
  {
  }

  /** Once the resolution and the stores cooperate, the stored pipeline is the translation of the fetched configuration. */
  lemma PipelineMatchesConfig(w: World, key: Key, env: Env)
    requires key in w.repos && !env.faults.repoGet && Indexable(w.repos[key].spec, env)
    requires Prepare(w, key, w.repos[key], env).Success?
    ensures key in ReconcileSpec(w, key, env).world.pipelines
    ensures ReconcileSpec(w, key, env).world.pipelines[key] == LegacyConfig.Plan(Resolve(w.repos[key].spec, env).value.config)
  {
    var r := Prepare(w, key, w.repos[key], env).value;
    CommitStageKeepsPipelines(r.world, r.status, key, w.repos[key].spec.url, r.sha, env.faults);
  }

  /** Nothing after the pipeline definition touches the stored pipelines or Repos. */
  lemma CommitStageKeepsPipelines(w: World, st: RepoStatus, key: Key, url: string, sha: string, f: Faults)
    ensures CommitStage(w, st, key, url, sha, f).world.pipelines == w.pipelines
    ensures CommitStage(w, st, key, url, sha, f).world.repos == w.repos
  {
  }

  /**
   * On a new commit with a cooperative store: the SHA is recorded, the git
   * binding is repointed at it and the run `<repo>-<sha>` is started.
   */
  lemma NewCommitStartsRun(w: World, key: Key, env: Env)
    requires key in w.repos && !env.faults.repoGet && Indexable(w.repos[key].spec, env)
    requires Prepare(w, key, w.repos[key], env).Success?
    requires w.repos[key].status.commitSHA != Resolve(w.repos[key].spec, env).value.sha
    requires !env.faults.gitPatchGet && !env.faults.gitPatch && !env.faults.runCreate && !env.faults.statusPatch
    requires RunKey(key, Resolve(w.repos[key].spec, env).value.sha) !in w.runs
    ensures var sha := Resolve(w.repos[key].spec, env).value.sha;
      var o := ReconcileSpec(w, key, env);
      && o.world.runs == w.runs[RunKey(key, sha) := RunFor(key, sha)]
      && key in o.world.gitResources
      && o.world.gitResources[key].params == BindingParams(w.repos[key].spec.url, sha)
      && key in o.world.repos
      && o.world.repos[key].status.commitSHA == sha
  {
    var obj := w.repos[key];
    var r := Prepare(w, key, obj, env).value;
    var sha := r.sha;
    var w3 := PatchGitResource(r.world, key, obj.spec.url, sha, false, false).value;
    var w4 := TriggerTaskRun(w3, key, sha, false).value;
    var st2 := r.status.(commitSHA := sha);
    var end := CommitStage(r.world, r.status, key, obj.spec.url, sha, env.faults);
    assert end.world == w4 && end.status.commitSHA == sha by {
      PollStageKeepsWorldAndCommit(w4, key, st2, sha, env.faults.runGetPoll);
    }
  }

  /** Polling changes neither the store nor the recorded commit. */
  lemma PollStageKeepsWorldAndCommit(w: World, key: Key, st: RepoStatus, sha: string, fail: bool)
    ensures PollStage(w, key, st, sha, fail).world == w
    ensures PollStage(w, key, st, sha, fail).status.commitSHA == st.commitSHA
  {
  }

  /**
   * The new SHA is recorded before anything can fail: whatever happens to the
   * binding patch, the run creation or the poll, the persisted CommitSHA is
   * the branch's short SHA once the status patch goes through.
   */
  lemma CommitRecordedBeforeTrigger(w: World, key: Key, env: Env)
    requires key in w.repos && !env.faults.repoGet && !env.faults.statusPatch && Indexable(w.repos[key].spec, env)
    requires Prepare(w, key, w.repos[key], env).Success?
    ensures key in ReconcileSpec(w, key, env).world.repos
    ensures ReconcileSpec(w, key, env).world.repos[key].status.commitSHA == Resolve(w.repos[key].spec, env).value.sha
    ensures ReconcileSpec(w, key, env).world.repos[key].spec == w.repos[key].spec
  {
    var obj := w.repos[key];
    var r := Prepare(w, key, obj, env).value;
    CommitStageRecordsSHA(r.world, r.status, key, obj.spec.url, r.sha, env.faults);
  }

  /** The commit stage always leaves the in-memory CommitSHA at the resolved SHA. */
  lemma CommitStageRecordsSHA(w: World, st: RepoStatus, key: Key, url: string, sha: string, f: Faults)
    ensures CommitStage(w, st, key, url, sha, f).status.commitSHA == sha
  {
    if st.commitSHA != sha {
      var st2 := st.(commitSHA := sha);
      var patched := PatchGitResource(w, key, url, sha, f.gitPatchGet, f.gitPatch);
      if patched.Success? {
        var triggered := TriggerTaskRun(patched.value, key, sha, f.runCreate);
        if triggered.Success? {
          var polled := PollRun(triggered.value, key, sha, f.runGetAfterTrigger);
          if polled.Success? {
            PollStageKeepsWorldAndCommit(triggered.value, key, st2.(pipeline := Some(polled.value)), sha, f.runGetPoll);
          }
        }
      }
    } else {
      PollStageKeepsWorldAndCommit(w, key, st, sha, f.runGetPoll);
    }
  }

  /** When the recorded CommitSHA already is the branch's short SHA, no run is started and the binding is not repointed. */
  lemma UnchangedCommitStartsNoRun(w: World, key: Key, env: Env)
    requires key in w.repos && !env.faults.repoGet && Indexable(w.repos[key].spec, env)
    requires Resolve(w.repos[key].spec, env).Success?
    requires w.repos[key].status.commitSHA == Resolve(w.repos[key].spec, env).value.sha
    ensures ReconcileSpec(w, key, env).world.runs == w.runs
    ensures ReconcileSpec(w, key, env).world.gitResources.Keys == w.gitResources.Keys + {key}
            || ReconcileSpec(w, key, env).world.gitResources == w.gitResources
    ensures forall k :: k in w.gitResources ==>
      k in ReconcileSpec(w, key, env).world.gitResources && ReconcileSpec(w, key, env).world.gitResources[k] == w.gitResources[k]
  {
    var obj := w.repos[key];
    var prepared := Prepare(w, key, obj, env);
    if prepared.Success? {
      var r := prepared.value;
      PollStageKeepsWorldAndCommit(r.world, key, r.status, r.sha, env.faults.runGetPoll);
    }
  }

  /**
   * A failed trigger is never retried: after a pass that got as far as the
   * commit comparison and persisted its status, a later pass that sees the same
   * branch head creates no run, whichever store calls fail in it.
   */
  lemma NoSecondRunForSameCommit(w: World, key: Key, env: Env, later: Faults)
    requires key in w.repos && !env.faults.repoGet && !env.faults.statusPatch && Indexable(w.repos[key].spec, env)
    requires Prepare(w, key, w.repos[key], env).Success?
    ensures key in ReconcileSpec(w, key, env).world.repos
    ensures Indexable(ReconcileSpec(w, key, env).world.repos[key].spec, env.(faults := later))
    ensures var w1 := ReconcileSpec(w, key, env).world;
      ReconcileSpec(w1, key, env.(faults := later)).world.runs == w1.runs
  {
    var spec := w.repos[key].spec;
    CommitRecordedBeforeTrigger(w, key, env);
    var w1 := ReconcileSpec(w, key, env).world;
    var env2 := env.(faults := later);
    assert Resolve(spec, env2) == Resolve(spec, env);
    if !later.repoGet {
      var prepared := Prepare(w1, key, w1.repos[key], env2);
      if prepared.Success? {
        UnchangedCommitStartsNoRun(w1, key, env2);
      }
    }
  }

  /**
   * A pass requeues only after it found the current run and saw that it has not
   * succeeded; the persisted run status then says so. A requeue is never an
   * error, and no pass returns another delay.
   */
  lemma RequeueMeansNotSucceeded(w: World, key: Key, env: Env)
    requires key in w.repos ==> Indexable(w.repos[key].spec, env)
    ensures var o := ReconcileSpec(w, key, env);
      o.result == Done || o.result == RequeueSoon
    ensures var o := ReconcileSpec(w, key, env);
      o.result == RequeueSoon ==>
        && o.err.None?
        && key in w.repos
        && Resolve(w.repos[key].spec, env).Success?
        && var sha := Resolve(w.repos[key].spec, env).value.sha;
           && RunKey(key, sha) in o.world.runs
           && !RunStatus(o.world.runs[RunKey(key, sha)]).succeeded
           && (!env.faults.statusPatch ==>
                 key in o.world.repos && o.world.repos[key].status.pipeline == Some(RunStatus(o.world.runs[RunKey(key, sha)])))
  {
    var o := ReconcileSpec(w, key, env);
    if key in w.repos && !env.faults.repoGet {
      var obj := w.repos[key];
      var prepared := Prepare(w, key, obj, env);
      if prepared.Success? {
        var r := prepared.value;
        CommitStageRequeue(r.world, r.status, key, obj.spec.url, r.sha, env.faults);
        CommitStageKeepsPipelines(r.world, r.status, key, obj.spec.url, r.sha, env.faults);
      }
    }
  }

  /** On a new SHA, the patch of the git binding or the creation of the run fails. */
  predicate TriggerStepFails(w: World, st: RepoStatus, key: Key, url: string, sha: string, f: Faults) {
    && st.commitSHA != sha
    && match PatchGitResource(w, key, url, sha, f.gitPatchGet, f.gitPatch)
       case Failure(_) => true
       case Success(w3) => TriggerTaskRun(w3, key, sha, f.runCreate).Failure?
  }

  /**
   * The only errors of the commit and polling stages are a failed patch of the
   * git binding and a failed creation of the run; each is returned as it came,
   * with no requeue. A failed read of the run ends the stage quietly.
   */
  lemma CommitStageErrors(w: World, st: RepoStatus, key: Key, url: string, sha: string, f: Faults)
    ensures var end := CommitStage(w, st, key, url, sha, f);
      && (end.err.Some? <==> TriggerStepFails(w, st, key, url, sha, f))
      && (end.err.Some? ==> end.result == Done)
    ensures var end := CommitStage(w, st, key, url, sha, f);
      var patched := PatchGitResource(w, key, url, sha, f.gitPatchGet, f.gitPatch);
      && (st.commitSHA != sha && patched.Failure? ==> end.err == Some(ApiFailure(patched.error)))
      && (st.commitSHA != sha && patched.Success? && TriggerTaskRun(patched.value, key, sha, f.runCreate).Failure? ==>
            end.err == Some(ApiFailure(TriggerTaskRun(patched.value, key, sha, f.runCreate).error)))
  {
  }

  /**
   * Which failures of a whole pass are returned as errors: a failed load of the
   * Repo, a URL that does not parse (once the git binding exists), and a failed
   * patch of the binding or creation of the run. None of them requeues. Every
   * other failure ends the pass quietly.
   */
  lemma PassErrors(w: World, key: Key, env: Env)
    requires key in w.repos ==> Indexable(w.repos[key].spec, env)
    ensures var o := ReconcileSpec(w, key, env);
      o.err.Some? ==> o.result == Done
    ensures env.faults.repoGet ==> ReconcileSpec(w, key, env).err == Some(ApiFailure(Unavailable))
    ensures key !in w.repos ==> (ReconcileSpec(w, key, env).err.None? <==> !env.faults.repoGet)
    ensures key in w.repos && !env.faults.repoGet ==>
      var o := ReconcileSpec(w, key, env);
      var obj := w.repos[key];
      var f := env.faults;
      var p := Prepare(w, key, obj, env);
      (o.err.Some? <==>
        || (EnsureGitResource(w, key, obj.spec, f.gitResourceGet, f.gitResourceCreate).Success?
            && env.urlPath(obj.spec.url).Failure?)
        || (p.Success? && TriggerStepFails(p.value.world, p.value.status, key, obj.spec.url, p.value.sha, f)))
  {
    if key in w.repos && !env.faults.repoGet {
      var obj := w.repos[key];
      var p := Prepare(w, key, obj, env);
      if p.Success? {
        CommitStageErrors(p.value.world, p.value.status, key, obj.spec.url, p.value.sha, env.faults);
      }
    }
  }

  /** A pass never lengthens or rewrites the Repo's run history. */
  lemma PassKeepsRunHistory(w: World, key: Key, env: Env)
    requires key in w.repos && Indexable(w.repos[key].spec, env)
    ensures key in ReconcileSpec(w, key, env).world.repos
    ensures ReconcileSpec(w, key, env).world.repos[key].status.runs == w.repos[key].status.runs
  {
    StatusAfterPass(w, key, env);
  }

  /**
   * A pass never marks the run status completed: a completed status after the
   * pass is the one the Repo already had.
   */
  lemma PassNeverCompletes(w: World, key: Key, env: Env)
    requires key in w.repos && Indexable(w.repos[key].spec, env)
    ensures key in ReconcileSpec(w, key, env).world.repos
    ensures var p := ReconcileSpec(w, key, env).world.repos[key].status.pipeline;
      p.Some? && p.value.completed ==> p == w.repos[key].status.pipeline
  {
    StatusAfterPass(w, key, env);
  }

  /**
   * The persisted status after a pass: the run history is the loaded one, and
   * a completed run status is the loaded one.
   */
  lemma StatusAfterPass(w: World, key: Key, env: Env)
    requires key in w.repos && Indexable(w.repos[key].spec, env)
    ensures key in ReconcileSpec(w, key, env).world.repos
    ensures var st := ReconcileSpec(w, key, env).world.repos[key].status;
      && st.runs == w.repos[key].status.runs
      && (st.pipeline.Some? && st.pipeline.value.completed ==> st.pipeline == w.repos[key].status.pipeline)
  {
    var obj := w.repos[key];
    if !env.faults.repoGet {
      var prepared := Prepare(w, key, obj, env);
      if prepared.Success? {
        var r := prepared.value;
        CommitStageKeepsHistory(r.world, r.status, key, obj.spec.url, r.sha, env.faults);
        CommitStageKeepsPipelines(r.world, r.status, key, obj.spec.url, r.sha, env.faults);
      }
    }
  }

  /** The commit and polling stages keep the run history and never set `completed`. */
  lemma CommitStageKeepsHistory(w: World, st: RepoStatus, key: Key, url: string, sha: string, f: Faults)
    ensures var end := CommitStage(w, st, key, url, sha, f);
      && end.status.runs == st.runs
      && (end.status.pipeline.Some? && end.status.pipeline.value.completed ==> end.status.pipeline == st.pipeline)
  {
    if st.commitSHA == sha {
      PollStageKeepsHistory(w, key, st, sha, f.runGetPoll);
    } else {
      var st2 := st.(commitSHA := sha);
      var patched := PatchGitResource(w, key, url, sha, f.gitPatchGet, f.gitPatch);
      if patched.Success? {
        var triggered := TriggerTaskRun(patched.value, key, sha, f.runCreate);
        if triggered.Success? {
          var polled := PollRun(triggered.value, key, sha, f.runGetAfterTrigger);
          if polled.Success? {
            PollStageKeepsHistory(triggered.value, key, st2.(pipeline := Some(polled.value)), sha, f.runGetPoll);
          }
        }
      }
    }
  }

  /** Polling keeps the run history and records only statuses that are not completed. */
  lemma PollStageKeepsHistory(w: World, key: Key, st: RepoStatus, sha: string, fail: bool)
    ensures var end := PollStage(w, key, st, sha, fail);
      && end.status.runs == st.runs
      && (end.status.pipeline.Some? && end.status.pipeline.value.completed ==> end.status.pipeline == st.pipeline)
  {
  }

  /** The requeue decision of the commit and polling stages. */
  lemma CommitStageRequeue(w: World, st: RepoStatus, key: Key, url: string, sha: string, f: Faults)
    ensures var end := CommitStage(w, st, key, url, sha, f);
      (end.result == Done || end.result == RequeueSoon)
      && (end.result == RequeueSoon ==>
            && end.err.None?
            && RunKey(key, sha) in end.world.runs
            && end.status.pipeline == Some(RunStatus(end.world.runs[RunKey(key, sha)]))
            && !RunStatus(end.world.runs[RunKey(key, sha)]).succeeded)
  {
    if st.commitSHA != sha {
      var st2 := st.(commitSHA := sha);
      var patched := PatchGitResource(w, key, url, sha, f.gitPatchGet, f.gitPatch);
      if patched.Success? {
        var triggered := TriggerTaskRun(patched.value, key, sha, f.runCreate);
        if triggered.Success? {
          var polled := PollRun(triggered.value, key, sha, f.runGetAfterTrigger);
          if polled.Success? {
            PollStageRequeue(triggered.value, key, st2.(pipeline := Some(polled.value)), sha, f.runGetPoll);
          }
        }
      }
    } else {
      PollStageRequeue(w, key, st, sha, f.runGetPoll);
    }
  }

  lemma PollStageRequeue(w: World, key: Key, st: RepoStatus, sha: string, fail: bool)
    ensures var end := PollStage(w, key, st, sha, fail);
      (end.result == Done || end.result == RequeueSoon)
      && (end.result == RequeueSoon ==>
            && end.err.None?
            && end.world == w
            && RunKey(key, sha) in w.runs
            && end.status.pipeline == Some(RunStatus(w.runs[RunKey(key, sha)]))
            && !RunStatus(w.runs[RunKey(key, sha)]).succeeded)
  {
  }

  /**
   * A run that has already been seen to succeed is not polled again: the pass
   * ends without requeue, whatever the store now holds for the run.
   */
  lemma SucceededRunNotPolledAgain(w: World, key: Key, env: Env)
    requires key in w.repos && !env.faults.repoGet && Indexable(w.repos[key].spec, env)
    requires Prepare(w, key, w.repos[key], env).Success?
    requires w.repos[key].status.commitSHA == Resolve(w.repos[key].spec, env).value.sha
    requires w.repos[key].status.pipeline.Some? && w.repos[key].status.pipeline.value.succeeded
    ensures ReconcileSpec(w, key, env).result == Done
    ensures ReconcileSpec(w, key, env).err == None
    ensures !env.faults.statusPatch ==>
      key in ReconcileSpec(w, key, env).world.repos
      && ReconcileSpec(w, key, env).world.repos[key].status.pipeline == w.repos[key].status.pipeline
  {
  }

  /**
   * A failed run is requeued forever: when the recorded commit is current and
   * no Succeeded condition of its run is true, every pass that can read the run
   * asks to come back in three seconds.
   */
  lemma FailedRunKeepsRequeuing(w: World, key: Key, env: Env)
    requires key in w.repos && !env.faults.repoGet && Indexable(w.repos[key].spec, env)
    requires Prepare(w, key, w.repos[key], env).Success?
    requires w.repos[key].status.commitSHA == Resolve(w.repos[key].spec, env).value.sha
    requires w.repos[key].status.pipeline.None? || !w.repos[key].status.pipeline.value.succeeded
    requires !env.faults.runGetPoll
    requires RunKey(key, Resolve(w.repos[key].spec, env).value.sha) in w.runs
    requires var conds := w.runs[RunKey(key, Resolve(w.repos[key].spec, env).value.sha)].conditions;
      forall i :: 0 <= i < |conds| && conds[i].ctype == ConditionSucceeded ==> !IsTrue(conds[i])
    ensures ReconcileSpec(w, key, env).result == RequeueSoon
  {
    var sha := Resolve(w.repos[key].spec, env).value.sha;
    var run := w.runs[RunKey(key, sha)];
    NotTrueRunHasNotSucceeded(run);
  }

  /** A run none of whose Succeeded conditions is true has not succeeded. */
  lemma NotTrueRunHasNotSucceeded(run: PipelineRun)
    requires forall i :: 0 <= i < |run.conditions| && run.conditions[i].ctype == ConditionSucceeded ==> !IsTrue(run.conditions[i])
    ensures !RunStatus(run).succeeded
  {
    var last := LastSucceeded(run.conditions);
    if last.Some? {
      var i :| IsLastSucceeded(run.conditions, i) && run.conditions[i] == last.value;
    }
  }

  /**
   * The run the controller starts binds only the repository, although the
   * pipeline it refers to declares both the repository and the cluster.
   */
  lemma ControllerRunLacksClusterBinding(key: Key, sha: string, cfg: LegacyConfig.Config)
    ensures |RunFor(key, sha).resources| == 1 && RunFor(key, sha).resources[0].name == "repo"
    ensures LegacyConfig.Plan(cfg).resources[1].name == "cluster"
    ensures forall b :: b in RunFor(key, sha).resources ==> b.name != "cluster"
  {
  }

  /** Ensuring the git binding twice is the same as once. */
  lemma EnsureGitResourceIdempotent(w: World, key: Key, spec: RepoSpec, failCreate: bool, failCreate': bool)
    requires EnsureGitResource(w, key, spec, false, failCreate).Success?
    ensures var w1 := EnsureGitResource(w, key, spec, false, failCreate).value;
      EnsureGitResource(w1, key, spec, false, failCreate') == Success(w1)
  {
  }

  /** Ensuring the pipeline definition twice is the same as once. */
  lemma EnsurePipelineIdempotent(w: World, key: Key, cfg: LegacyConfig.Config)
    ensures var w1 := EnsurePipeline(w, key, cfg, false, false).value;
      EnsurePipeline(w1, key, cfg, false, false) == Success(w1)
  {
    var w1 := EnsurePipeline(w, key, cfg, false, false).value;
    assert w1.pipelines[key := LegacyConfig.Plan(cfg)] == w1.pipelines;
  }

  /** Repointing the git binding at the same revision twice is the same as once. */
  lemma PatchGitResourceIdempotent(w: World, key: Key, url: string, sha: string)
    requires key in w.gitResources
    ensures var w1 := PatchGitResource(w, key, url, sha, false, false).value;
      PatchGitResource(w1, key, url, sha, false, false) == Success(w1)
  {
    var w1 := PatchGitResource(w, key, url, sha, false, false).value;
    assert w1.gitResources[key := w1.gitResources[key].(params := BindingParams(url, sha))] == w1.gitResources;
  }
}
