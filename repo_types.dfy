/**
 * The Repo resource (api/v1/repo_types.go): what the user declares (spec) and
 * what the controller observes and records (status).
 */
module RepoTypes {
  import opened Wrappers
  import ApiConfig

  datatype RepoSpec = RepoSpec(url: string, branch: string, cluster: string)

  /**
   * A reference to another object. Only name and namespace are kept; kind,
   * API version and UID are server-assigned metadata this model leaves out.
   */
  datatype ObjectRef = ObjectRef(name: string, namespace: string)

  /** The observed outcome of one pipeline run. */
  datatype PipelineStatus = PipelineStatus(completed: bool, ref: Option<ObjectRef>, status: string, succeeded: bool)

  /**
   * The observed state. `pipeline` is the controller's current-run field: the
   * controller reads and writes `Status.Pipeline`, which the Go RepoStatus
   * struct does not declare; it is kept here beside `runs`.
   */
  datatype RepoStatus = RepoStatus(
    commitSHA: string,
    config: Option<ApiConfig.Config>,
    tektonRef: Option<ObjectRef>,
    runs: seq<PipelineStatus>,
    pipeline: Option<PipelineStatus>)

  /** A Repo as the resource store holds it (its name and namespace are its key). */
  datatype RepoObject = RepoObject(spec: RepoSpec, status: RepoStatus)

  /** A Repo loaded into memory; its status is updated in place. */
  class Repo {
    const name: string
    const namespace: string
    const spec: RepoSpec
    var status: RepoStatus

    constructor (name: string, namespace: string, spec: RepoSpec, status: RepoStatus)
      ensures this.name == name && this.namespace == namespace
      ensures this.spec == spec && this.status == status
    {
      this.name := name;
      this.namespace := namespace;
      this.spec := spec;
      this.status := status;
    }
  }
}
