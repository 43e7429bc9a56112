/**
 * The older manifest-to-pipeline translator (pkg/alaska/config.go): a plain
 * list of paths, one fixed kubectl executor and no strategy. The controller
 * parses its configuration file into this form.
 */
module LegacyConfig {
  import opened Text
  import opened Tekton
  import ApiConfig

  /** The one cluster task every legacy task runs. */
  const ExecutorDefault := "alaska-kubectl-executor"

  datatype Config = Config(paths: seq<string>)

  const DeclaredResources := [DeclaredResource("repo", Git), DeclaredResource("cluster", ClusterTarget)]

  const TaskInputs := [TaskInput("repo", "repo"), TaskInput("cluster", "cluster")]

  /** The task generated for the i-th path. */
  function TaskFor(i: nat, path: string): PipelineTask {
    PipelineTask(ApiConfig.TaskName(i), [Param("path", path)], TaskInputs, TaskRef(ExecutorDefault, ClusterTask), [])
  }

  /**
   * The pipeline spec a legacy configuration translates to: the repository and
   * cluster resources, then one independent kubectl task per path, in order.
   */
  function Plan(c: Config): (p: PipelineSpec)
    ensures p.resources == DeclaredResources
    ensures |p.tasks| == |c.paths|
    ensures forall i :: 0 <= i < |c.paths| ==>
      && p.tasks[i].name == ApiConfig.TaskName(i)
      && p.tasks[i].params == [Param("path", c.paths[i])]
      && p.tasks[i].inputs == TaskInputs
      && p.tasks[i].taskRef == TaskRef(ExecutorDefault, ClusterTask)
      && p.tasks[i].runAfter == []
  {
    PipelineSpec(DeclaredResources, seq(|c.paths|, i requires 0 <= i < |c.paths| => TaskFor(i, c.paths[i])))
  }

  /** `Config.ToPipelineSpec`: appends one task per path, in order. */
  method ToPipelineSpec(c: Config) returns (pipeline: PipelineSpec)
    ensures pipeline == Plan(c)
  {
    pipeline := PipelineSpec(DeclaredResources, []);
    for i := 0 to |c.paths|
      invariant pipeline.resources == DeclaredResources
      invariant |pipeline.tasks| == i
      invariant forall j :: 0 <= j < i ==> pipeline.tasks[j] == TaskFor(j, c.paths[j])
    {
      var path := c.paths[i];
      pipeline := pipeline.(tasks := pipeline.tasks + [
        PipelineTask(ApiConfig.TaskName(i), [Param("path", path)], TaskInputs,
                     TaskRef(ExecutorDefault, ClusterTask), [])]);
    }
    assert pipeline.tasks == Plan(c).tasks;
  }

  /** The manifests a legacy path list stands for: each path with an empty type. */
  function AsManifests(paths: seq<string>): (ms: seq<ApiConfig.ManifestOptions>)
    ensures |ms| == |paths|
    ensures forall i :: 0 <= i < |paths| ==> ms[i] == ApiConfig.ManifestOptions(paths[i], "")
  {
    seq(|paths|, i requires 0 <= i < |paths| => ApiConfig.ManifestOptions(paths[i], ""))
  }

  /**
   * The legacy translator agrees with the current one on manifests of empty
   * type under any strategy other than "sequential" (in particular the default).
   */
  lemma AgreesWithCurrentTranslator(c: Config, strategy: ApiConfig.Strategy)
    requires strategy != ApiConfig.StrategySequential
    ensures Plan(c) == ApiConfig.Plan(ApiConfig.Config(AsManifests(c.paths), strategy))
  {
    var api := ApiConfig.Config(AsManifests(c.paths), strategy);
    ApiConfig.KnownNames();
    forall i | 0 <= i < |c.paths|
      ensures Plan(c).tasks[i] == ApiConfig.Plan(api).tasks[i]
    {
      assert ApiConfig.Plan(api).tasks[i] == ApiConfig.TaskFor(api, i);
      assert ApiConfig.ToParams(api.manifests[i]) == [Param("path", c.paths[i])];
    }
    assert Plan(c).tasks == ApiConfig.Plan(api).tasks;
  }

  /** The scenario of pkg/alaska/config_test.go. */
  lemma SinglePathScenario()
    ensures Plan(Config(["test.yaml"])) == PipelineSpec(
      [DeclaredResource("repo", Git), DeclaredResource("cluster", ClusterTarget)],
      [PipelineTask("task-0", [Param("path", "test.yaml")],
                    [TaskInput("repo", "repo"), TaskInput("cluster", "cluster")],
                    TaskRef("alaska-kubectl-executor", ClusterTask), [])])
  {
    ApiConfig.KnownNames();
    var task := PipelineTask("task-0", [Param("path", "test.yaml")], TaskInputs, TaskRef(ExecutorDefault, ClusterTask), []);
    assert TaskFor(0, "test.yaml") == task;
    assert Plan(Config(["test.yaml"])).tasks == [task];
  }
}
