/**
 * The subset of the pipeline engine's (Tekton v1alpha1) record types that the
 * core builds and reads. Only the fields the core sets are kept.
 */
module Tekton {

  /** PipelineResourceTypeGit ("git") and PipelineResourceTypeCluster ("cluster"). */
  datatype ResourceType = Git | ClusterTarget

  /** A resource a pipeline declares it needs. */
  datatype DeclaredResource = DeclaredResource(name: string, rtype: ResourceType)

  /** A task parameter; the core only ever uses the string form of ArrayOrString. */
  datatype Param = Param(name: string, value: string)

  /** An input of a pipeline task, bound to one of the pipeline's declared resources. */
  datatype TaskInput = TaskInput(name: string, resource: string)

  datatype TaskKind = ClusterTask | NamespacedTask

  datatype TaskRef = TaskRef(name: string, kind: TaskKind)

  datatype PipelineTask = PipelineTask(
    name: string,
    params: seq<Param>,
    inputs: seq<TaskInput>,
    taskRef: TaskRef,
    runAfter: seq<string>)

  datatype PipelineSpec = PipelineSpec(resources: seq<DeclaredResource>, tasks: seq<PipelineTask>)

  /** A parameter of a PipelineResource (the "git resource" binding). */
  datatype ResourceParam = ResourceParam(name: string, value: string)

  datatype PipelineResource = PipelineResource(rtype: ResourceType, params: seq<ResourceParam>)

  /** Binds a resource a pipeline declares to a PipelineResource by name. */
  datatype ResourceBinding = ResourceBinding(name: string, resourceRef: string)

  /** One entry of a run's status condition list (knative `apis.Condition`). */
  datatype Condition = Condition(ctype: string, status: string, reason: string)

  const ConditionSucceeded := "Succeeded"

  /** `Condition.IsTrue()`: the condition's status is "True". */
  predicate IsTrue(c: Condition) {
    c.status == "True"
  }

  datatype PipelineRun = PipelineRun(
    name: string,
    generateName: string,
    namespace: string,
    resources: seq<ResourceBinding>,
    pipelineRef: string,
    conditions: seq<Condition>)


}
