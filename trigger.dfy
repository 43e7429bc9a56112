/**
 * Starting a pipeline run by hand and recording it in the Repo's bounded,
 * newest-first run history (pkg/alaska/trigger.go).
 */
module Trigger {
  import opened Wrappers
  import opened Tekton
  import opened RepoTypes
  import opened Store
  import ApiConfig

  /**
   * The most entries the history holds after an insertion. The source's
   * comment speaks of five, but it keeps three old entries plus the new one.
   */
  const HistoryBound: nat := 4

  /** The run object sent to the store, before the server assigns its name. */
  function NewPipelineRun(name: string, namespace: string, cluster: string, sha: string): PipelineRun {
    PipelineRun(
      "",
      name + "-" + sha + "-",
      namespace,
      [ResourceBinding("repo", name), ResourceBinding("cluster", cluster)],
      name,
      [])
  }

  /**
   * The run binds exactly the resources the current translator's pipelines
   * declare, in the same order: the Repo's git binding and the target cluster.
   */
  lemma RunBindsDeclaredResources(name: string, namespace: string, cluster: string, sha: string, c: ApiConfig.Config)
    ensures |NewPipelineRun(name, namespace, cluster, sha).resources| == |ApiConfig.Plan(c).resources| == 2
    ensures forall i :: 0 <= i < 2 ==>
      NewPipelineRun(name, namespace, cluster, sha).resources[i].name == ApiConfig.Plan(c).resources[i].name
    ensures NewPipelineRun(name, namespace, cluster, sha).resources[0].resourceRef == name
    ensures NewPipelineRun(name, namespace, cluster, sha).resources[1].resourceRef == cluster
  {
  }

  /** The history entry recorded for a freshly created run: not finished, no outcome yet. */
  function NewRunStatus(run: PipelineRun): PipelineStatus {
    PipelineStatus(false, Some(ObjectRef(run.name, run.namespace)), "", false)
  }

  /**
   * The history after recording `entry`: the new entry first, then the newest
   * old entries, at most three of them, in their original order.
   */
  function Push(history: seq<PipelineStatus>, entry: PipelineStatus): (r: seq<PipelineStatus>)
    ensures |r| == if |history| < HistoryBound then |history| + 1 else HistoryBound
    ensures r[0] == entry
    ensures r[1..] == history[..if |history| < HistoryBound - 1 then |history| else HistoryBound - 1]
  {
    if |history| >= 4 then [entry] + history[..3] else [entry] + history
  }

  /**
   * `TriggerPipeline`: create a run named `<repo>-<sha>-<suffix>` (the server
   * picks the suffix). On success record it at the front of `Status.Runs`; on
   * failure return the error and leave everything as it was. The `config`
   * argument is unused, as in the source.
   */
  method TriggerPipeline(w: World, repo: Repo, config: Option<ApiConfig.Config>, sha: string, suffix: string, fail: bool)
    returns (w': World, err: Option<ApiError>)
    modifies repo`status
    ensures var run := NewPipelineRun(repo.name, repo.namespace, repo.spec.cluster, sha);
            var created := run.(name := run.generateName + suffix);
            match Create(w.runs, Key(repo.namespace, created.name), created, fail)
            case Failure(e) => err == Some(e) && w' == w && repo.status == old(repo.status)
            case Success(runs) =>
              && err == None
              && w' == w.(runs := runs)
              && repo.status == old(repo.status).(runs := Push(old(repo.status.runs), NewRunStatus(created)))
  {
    var pipelineRun := NewPipelineRun(repo.name, repo.namespace, repo.spec.cluster, sha);
    pipelineRun := pipelineRun.(name := pipelineRun.generateName + suffix);
    var created := Create(w.runs, Key(pipelineRun.namespace, pipelineRun.name), pipelineRun, fail);
    if created.Failure? {
      return w, Some(created.error);
    }
    w' := w.(runs := created.value);

    var status := PipelineStatus(false, Some(ObjectRef(pipelineRun.name, pipelineRun.namespace)), "", false);
    if |repo.status.runs| >= 4 {
      repo.status := repo.status.(runs := [status] + repo.status.runs[..3]);
    } else {
      repo.status := repo.status.(runs := [status] + repo.status.runs);
    }
    err := None;
  }

  // ---------------------------------------------------------------------------
  // The history over many insertions
  // ---------------------------------------------------------------------------

  /** The first HistoryBound entries of s (all of s when it is shorter). */
  function Window(s: seq<PipelineStatus>): (r: seq<PipelineStatus>)
    ensures |r| == if |s| < HistoryBound then |s| else HistoryBound
    ensures |r| <= HistoryBound && |r| <= |s| && r == s[..|r|]
    ensures |s| <= HistoryBound ==> r == s
  {
    if |s| <= HistoryBound then s else s[..HistoryBound]
  }

  function Reverse(s: seq<PipelineStatus>): (r: seq<PipelineStatus>)
    ensures |r| == |s|
    decreases |s|
  {
    if |s| == 0 then [] else Reverse(s[1..]) + [s[0]]
  }

  /** Records each of `entries` in turn, oldest first. */
  function PushAll(history: seq<PipelineStatus>, entries: seq<PipelineStatus>): seq<PipelineStatus>
    decreases |entries|
  {
    if |entries| == 0 then history else PushAll(Push(history, entries[0]), entries[1..])
  }

  lemma PushIsWindow(history: seq<PipelineStatus>, entry: PipelineStatus)
    ensures Push(history, entry) == Window([entry] + history)
  {
  }

  lemma WindowOfWindow(a: seq<PipelineStatus>, b: seq<PipelineStatus>)
    ensures Window(a + Window(b)) == Window(a + b)
  {
    if |a| >= HistoryBound {
      assert (a + Window(b))[..HistoryBound] == a[..HistoryBound] == (a + b)[..HistoryBound];
    } else if |b| > HistoryBound {
      var k := HistoryBound - |a|;
      if |a + Window(b)| > HistoryBound {
        assert (a + Window(b))[..HistoryBound] == a + b[..k] == (a + b)[..HistoryBound];
      } else {
        assert a + Window(b) == (a + b)[..HistoryBound];
      }
    }
  }

  /**
   * After any sequence of insertions the history is the newest entries first,
   * followed by what was there before, cut to the bound: in particular, starting
   * empty, it holds exactly the last (at most four) runs, newest first.
   */
  lemma {:induction false} PushAllKeepsNewest(history: seq<PipelineStatus>, entries: seq<PipelineStatus>)
    ensures |entries| > 0 ==> PushAll(history, entries) == Window(Reverse(entries) + history)
    decreases |entries|
  {
    if |entries| > 0 {
      var x, rest := entries[0], entries[1..];
      PushIsWindow(history, x);
      if |rest| > 0 {
        PushAllKeepsNewest(Push(history, x), rest);
        WindowOfWindow(Reverse(rest), [x] + history);
        assert Reverse(rest) + ([x] + history) == Reverse(entries) + history;
      } else {
        assert Reverse(entries) == [x];
      }
    }
  }

  /**
   * Recording a run into a full history of distinct runs keeps the new run and
   * evicts the oldest one.
   */
  lemma FullHistoryEvictsOldest(history: seq<PipelineStatus>, entry: PipelineStatus)
    requires |history| == HistoryBound
    requires forall i, j :: 0 <= i < j < |history| ==> history[i] != history[j]
    requires entry != history[HistoryBound - 1]
    ensures entry in Push(history, entry)
    ensures history[HistoryBound - 1] !in Push(history, entry)
    ensures |Push(history, entry)| == HistoryBound
  {
  }
}
