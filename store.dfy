/**
 * The declarative resource store the core talks to, as a value. Each kind of
 * object lives in a map keyed by namespace and name. "Not found" and "already
 * exists" follow from the maps; any other failure of a call (network, server,
 * permissions) is an input: the `fail` flag of the call.
 */
module Store {
  import opened Wrappers
  import opened Tekton
  import opened RepoTypes

  datatype Key = Key(namespace: string, name: string)

  datatype ApiError = NotFound | AlreadyExists | Unavailable

  datatype World = World(
    repos: map<Key, RepoObject>,
    gitResources: map<Key, PipelineResource>,
    pipelines: map<Key, PipelineSpec>,
    runs: map<Key, PipelineRun>)

  /** `client.Get`. */
  function Get<T>(m: map<Key, T>, k: Key, fail: bool): Result<T, ApiError> {
    if fail then Failure(Unavailable)
    else if k in m then Success(m[k])
    else Failure(NotFound)
  }

  /** `client.Create`: refuses a name that is already taken. */
  function Create<T>(m: map<Key, T>, k: Key, v: T, fail: bool): Result<map<Key, T>, ApiError> {
    if fail then Failure(Unavailable)
    else if k in m then Failure(AlreadyExists)
    else Success(m[k := v])
  }

  /** `client.Update` and `client.Patch`: replace an existing object. */
  function Update<T>(m: map<Key, T>, k: Key, v: T, fail: bool): Result<map<Key, T>, ApiError> {
    if fail then Failure(Unavailable)
    else if k !in m then Failure(NotFound)
    else Success(m[k := v])
  }
}
