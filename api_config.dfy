/**
 * The manifest model and the current manifest-to-pipeline translator
 * (api/v1/config.go): a list of manifests, each a path and an executor type,
 * plus an execution strategy, becomes a pipeline spec with one task per
 * manifest.
 */
module ApiConfig {
  import opened Wrappers
  import opened Text
  import opened Tekton

  /** The executor type is kept as the raw string: unrecognised values pass through. */
  type Executor = string

  const ExecutorDefault: Executor := "kubectl"
  const ExecutorHelm: Executor := "helm"

  /** The two halves of the format string "alaska-%s-executor". */
  const TaskNamePrefix := "alaska-"
  const TaskNameSuffix := "-executor"

  /** The strategy is kept as the raw string too; only "sequential" changes the plan. */
  type Strategy = string

  const StrategyDefault: Strategy := "parallel"
  const StrategySequential: Strategy := "sequential"

  datatype ManifestOptions = ManifestOptions(path: string, etype: Executor)

  datatype Config = Config(manifests: seq<ManifestOptions>, strategy: Strategy)

  /** The two resources every generated pipeline declares: the repository and the target cluster. */
  const DeclaredResources := [DeclaredResource("repo", Git), DeclaredResource("cluster", ClusterTarget)]

  /** Every task consumes both declared resources under their own names. */
  const TaskInputs := [TaskInput("repo", "repo"), TaskInput("cluster", "cluster")]

  /** `fmt.Sprintf("task-%d", i)`. */
  function TaskName(i: nat): string {
    "task-" + NatToString(i)
  }

  /** Positional task names never collide. */
  lemma TaskNameInjective(i: nat, j: nat)
    ensures TaskName(i) == TaskName(j) <==> i == j
  {
    if TaskName(i) == TaskName(j) {
      assert NatToString(i) == TaskName(i)[5..];
      assert NatToString(j) == TaskName(j)[5..];
      NatToStringInjective(i, j);
    }
  }

  /** Recovers the executor from a task-template name (the inverse of ToTaskName). */
  function ExecutorOfTaskName(name: string): Option<Executor> {
    if |name| >= |TaskNamePrefix| + |TaskNameSuffix|
       && name[..|TaskNamePrefix|] == TaskNamePrefix
       && name[|name| - |TaskNameSuffix|..] == TaskNameSuffix
    then Some(name[|TaskNamePrefix|..|name| - |TaskNameSuffix|])
    else None
  }

  /** `Executor.toTaskName`: the cluster-task template name for an executor. */
  function ToTaskName(e: Executor): (r: string)
    ensures ExecutorOfTaskName(r) == Some(e)
  {
    var r := TaskNamePrefix + e + TaskNameSuffix;
    assert r[..|TaskNamePrefix|] == TaskNamePrefix;
    assert r[|r| - |TaskNameSuffix|..] == TaskNameSuffix;
    assert r[|TaskNamePrefix|..|r| - |TaskNameSuffix|] == e;
    r
  }

  /** The concrete names the scenario lemmas below compare against. */
  lemma KnownNames()
    ensures TaskName(0) == "task-0" && TaskName(1) == "task-1"
    ensures ToTaskName(ExecutorDefault) == "alaska-kubectl-executor"
    ensures ToTaskName(ExecutorHelm) == "alaska-helm-executor"
  {
    assert NatToString(0) == "0" && NatToString(1) == "1";
  }

  /** Distinct executors select distinct task templates. */
  lemma ToTaskNameInjective(e1: Executor, e2: Executor)
    ensures ToTaskName(e1) == ToTaskName(e2) <==> e1 == e2
  {
  }

  /** The executor a manifest runs with: its type, or kubectl when the type is empty. */
  function EffectiveExecutor(m: ManifestOptions): (e: Executor)
    ensures e != ""
    ensures m.etype == "" ==> e == ExecutorDefault
    ensures m.etype != "" ==> e == m.etype
  {
    if m.etype == "" then ExecutorDefault else m.etype
  }

  /**
   * `ManifestOptions.ToParams`: a `path` parameter, followed by a `release`
   * parameter (the path's last element) exactly when the raw type is "helm".
   */
  function ToParams(m: ManifestOptions): (params: seq<Param>)
    ensures 1 <= |params| <= 2
    ensures params[0] == Param("path", m.path)
    ensures |params| == 2 <==> m.etype == ExecutorHelm
    ensures |params| == 2 ==> params[1] == Param("release", Base(m.path))
  {
    var params := [Param("path", m.path)];
    if m.etype == ExecutorHelm then params + [Param("release", Base(m.path))] else params
  }

  /** The task generated for the i-th manifest. */
  function TaskFor(c: Config, i: nat): PipelineTask
    requires i < |c.manifests|
  {
    PipelineTask(
      TaskName(i),
      ToParams(c.manifests[i]),
      TaskInputs,
      TaskRef(ToTaskName(EffectiveExecutor(c.manifests[i])), ClusterTask),
      if c.strategy == StrategySequential && i > 0 then [TaskName(i - 1)] else [])
  }

  /** The pipeline spec a configuration translates to. */
  function Plan(c: Config): (p: PipelineSpec)
    ensures p.resources == DeclaredResources
    ensures |p.tasks| == |c.manifests|
    ensures forall i :: 0 <= i < |c.manifests| ==>
      && p.tasks[i].name == TaskName(i)
      && p.tasks[i].params == ToParams(c.manifests[i])
      && p.tasks[i].inputs == TaskInputs
      && p.tasks[i].taskRef == TaskRef(ToTaskName(EffectiveExecutor(c.manifests[i])), ClusterTask)
      && p.tasks[i].runAfter == (if c.strategy == StrategySequential && i > 0 then [TaskName(i - 1)] else [])
  {
    PipelineSpec(DeclaredResources, seq(|c.manifests|, i requires 0 <= i < |c.manifests| => TaskFor(c, i)))
  }

  /** `Config.ToPipelineSpec`: appends one task per manifest, in order. */
  method ToPipelineSpec(c: Config) returns (pipeline: PipelineSpec)
    ensures pipeline == Plan(c)
  {
    pipeline := PipelineSpec(DeclaredResources, []);
    for i := 0 to |c.manifests|
      invariant pipeline.resources == DeclaredResources
      invariant |pipeline.tasks| == i
      invariant forall j :: 0 <= j < i ==> pipeline.tasks[j] == TaskFor(c, j)
    {
      var manifest := c.manifests[i];
      var executor: Executor;
      if manifest.etype == "" {
        executor := ExecutorDefault;
      } else {
        executor := manifest.etype;
      }
      var task := PipelineTask(TaskName(i), ToParams(manifest), TaskInputs, TaskRef(ToTaskName(executor), ClusterTask), []);
      if c.strategy == StrategySequential && i > 0 {
        task := task.(runAfter := [TaskName(i - 1)]);
      }
      pipeline := pipeline.(tasks := pipeline.tasks + [task]);
    }
    assert pipeline.tasks == Plan(c).tasks;
  }

  // ---------------------------------------------------------------------------
  // Properties of the translation
  // ---------------------------------------------------------------------------

  /** The task template is `alaska-<type>-executor`, `alaska-kubectl-executor` for an empty type. */
  lemma TaskRefNamesExecutor(c: Config, i: nat)
    requires i < |c.manifests|
    ensures Plan(c).tasks[i].taskRef.kind == ClusterTask
    ensures ExecutorOfTaskName(Plan(c).tasks[i].taskRef.name)
         == Some(if c.manifests[i].etype == "" then ExecutorDefault else c.manifests[i].etype)
  {
  }

  /** Task names within one plan are pairwise distinct. */
  lemma TaskNamesDistinct(c: Config, i: nat, j: nat)
    requires i < |c.manifests| && j < |c.manifests| && i != j
    ensures Plan(c).tasks[i].name != Plan(c).tasks[j].name
  {
    TaskNameInjective(i, j);
  }

  /**
   * Under the sequential strategy the tasks form one chain in declaration
   * order: task 0 waits for nothing, task i > 0 waits for exactly the task
   * before it, and that name denotes no other task.
   */
  lemma SequentialChain(c: Config, i: nat)
    requires c.strategy == StrategySequential
    requires i < |c.manifests|
    ensures i == 0 ==> Plan(c).tasks[i].runAfter == []
    ensures i > 0 ==> Plan(c).tasks[i].runAfter == [Plan(c).tasks[i - 1].name]
    ensures i > 0 ==> forall j :: 0 <= j < |c.manifests| ==>
      (Plan(c).tasks[j].name == Plan(c).tasks[i].runAfter[0] <==> j == i - 1)
  {
    if i > 0 {
      forall j | 0 <= j < |c.manifests|
        ensures Plan(c).tasks[j].name == Plan(c).tasks[i].runAfter[0] <==> j == i - 1
      {
        TaskNameInjective(j, i - 1);
      }
    }
  }

  /** Any strategy other than "sequential" (empty, "parallel", unknown) adds no ordering edge. */
  lemma NonSequentialIsUnordered(c: Config)
    requires c.strategy != StrategySequential
    ensures forall i :: 0 <= i < |Plan(c).tasks| ==> Plan(c).tasks[i].runAfter == []
  {
  }

  /**
   * Every ordering edge points to an earlier task of the same plan, so the
   * task graph is acyclic whatever the strategy.
   */
  lemma RunAfterPointsBackward(c: Config, i: nat, n: string)
    requires i < |c.manifests|
    requires n in Plan(c).tasks[i].runAfter
    ensures exists j :: 0 <= j < i && Plan(c).tasks[j].name == n
  {
    assert Plan(c).tasks[i - 1].name == n;
  }

  // ---------------------------------------------------------------------------
  // The scenarios of api/v1/config_test.go
  // ---------------------------------------------------------------------------

  lemma KubectlManifestScenario()
    ensures Plan(Config([ManifestOptions("test.yaml", "")], "")) == PipelineSpec(
      [DeclaredResource("repo", Git), DeclaredResource("cluster", ClusterTarget)],
      [PipelineTask("task-0", [Param("path", "test.yaml")],
                    [TaskInput("repo", "repo"), TaskInput("cluster", "cluster")],
                    TaskRef("alaska-kubectl-executor", ClusterTask), [])])
  {
    var c := Config([ManifestOptions("test.yaml", "")], "");
    KnownNames();
    var task := PipelineTask("task-0", [Param("path", "test.yaml")], TaskInputs,
                             TaskRef("alaska-kubectl-executor", ClusterTask), []);
    assert TaskFor(c, 0) == task;
    SingleManifestPlan(c);
  }

  lemma HelmChartScenario()
    ensures Plan(Config([ManifestOptions("path/to/chart", "helm")], "")) == PipelineSpec(
      [DeclaredResource("repo", Git), DeclaredResource("cluster", ClusterTarget)],
      [PipelineTask("task-0", [Param("path", "path/to/chart"), Param("release", "chart")],
                    [TaskInput("repo", "repo"), TaskInput("cluster", "cluster")],
                    TaskRef("alaska-helm-executor", ClusterTask), [])])
  {
    var m := ManifestOptions("path/to/chart", "helm");
    var c := Config([m], "");
    ChartRelease();
    KnownNames();
    assert EffectiveExecutor(m) == ExecutorHelm;
    var task := PipelineTask("task-0", [Param("path", "path/to/chart"), Param("release", "chart")],
                             TaskInputs, TaskRef("alaska-helm-executor", ClusterTask), []);
    assert TaskFor(c, 0) == task;
    SingleManifestPlan(c);
  }

  /** A one-manifest configuration plans exactly that manifest's task. */
  lemma SingleManifestPlan(c: Config)
    requires |c.manifests| == 1
    ensures Plan(c) == PipelineSpec(DeclaredResources, [TaskFor(c, 0)])
  {
    assert Plan(c).tasks == [TaskFor(c, 0)];
  }

  /** The `helm` entry `path/to/chart` gets the release name `chart`. */
  lemma ChartRelease()
    ensures ToParams(ManifestOptions("path/to/chart", "helm")) == [Param("path", "path/to/chart"), Param("release", "chart")]
  {
    assert "path/to/chart" == "path/to" + "/" + "chart";
    BaseOfChild("path/to", "chart");
  }

  lemma SequentialScenario()
    ensures Plan(Config([ManifestOptions("test-0.yaml", ""), ManifestOptions("test-1.yaml", "")], "sequential"))
              .tasks[1].runAfter == ["task-0"]
  {
    var c := Config([ManifestOptions("test-0.yaml", ""), ManifestOptions("test-1.yaml", "")], "sequential");
    KnownNames();
    assert Plan(c).tasks[1] == TaskFor(c, 1);
  }
}
