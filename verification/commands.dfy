/** The two chat commands, `!deploy` and `!pods`, as pure functions from the
    outcomes of the external calls they make (the GitHub commit listing and
    the `kubectl` runs) to what they do: the progress messages sent through
    the printer, in order, the external calls issued, in order, and the error
    returned to the command framework. */
module Commands {
  import opened Outcomes
  import opened Text
  import opened Kube

  /** The deployment settings read from the environment at startup (the two
      API tokens are not part of the model). */
  datatype Config = Config(
    githubOrg: string,
    githubRepo: string,
    imagePrefix: string,
    namespace: string,
    deployment: string)

  /** An external call a command makes. */
  datatype Call = ListCommits(org: string, repo: string) | Kubectl(args: seq<string>)

  /** The commit listing: an API error, or the commits in the order GitHub
      returns them, each with its SHA or with none (nil). */
  type Commits = Result<seq<Option<string>>>

  /** The outcome `kubectl` gives for each argument vector. */
  type Cluster = seq<string> -> CallOutcome

  /** The answers the outside world gives a command. */
  datatype Backends = Backends(commits: Commits, cluster: Cluster)

  /** What one command run does. */
  datatype Run = Run(emitted: seq<string>, calls: seq<Call>, err: Option<string>)

  /** A command parsed by the command framework, with its flag values. */
  datatype Command = Pods(namespace: string) | Deploy

  const RevisionLength: nat := 12
  const AboutToDeploy: string := "about to deploy"
  const NoShaFound: string := "no sha found"
  const FinishedDeployment: string := "finished deployment"
  const AboutToListPods: string := "about to list pods"
  const ErrorPrefix: string := "ERROR: "

  // ---------------------------------------------------------------------
  // Revision resolution

  /** `i` is the position of the first commit that has a SHA. */
  ghost predicate FirstPresentAt(commits: seq<Option<string>>, i: int) {
    && 0 <= i < |commits|
    && commits[i].Some?
    && forall j :: 0 <= j < i ==> commits[j].None?
  }

  predicate NoSha(commits: seq<Option<string>>) {
    forall i :: 0 <= i < |commits| ==> commits[i].None?
  }

  /** The slice `s[0:12]` is taken only of the first SHA present, and it must
      have at least 12 characters (the source panics otherwise). */
  predicate ShaSliceable(commits: seq<Option<string>>) {
    |commits| == 0 ||
    match commits[0]
    case None => ShaSliceable(commits[1..])
    case Some(s) => |s| >= RevisionLength
  }

  /** `ShaSliceable` says exactly that the first SHA present is long enough. */
  lemma {:induction false} ShaSliceableMeans(commits: seq<Option<string>>)
    ensures ShaSliceable(commits) <==>
      forall i :: FirstPresentAt(commits, i) ==> |commits[i].value| >= RevisionLength
  {
    if |commits| > 0 {
      var tail := commits[1..];
      ShaSliceableMeans(tail);
      if commits[0].None? {
        forall i | FirstPresentAt(tail, i) ensures FirstPresentAt(commits, i + 1) {
          assert commits[i + 1] == tail[i];
        }
        forall i | FirstPresentAt(commits, i) ensures i > 0 && FirstPresentAt(tail, i - 1) { }
      } else {
        assert FirstPresentAt(commits, 0);
      }
    }
  }

  /** The short revision: the first 12 characters of the first SHA present,
      or "" when no commit has one. A present SHA counts even if empty. */
  function ShortRevision(commits: seq<Option<string>>): (r: string)
    requires ShaSliceable(commits)
    ensures r == "" <==> NoSha(commits)
    ensures r != "" ==> |r| == RevisionLength
    ensures forall i :: FirstPresentAt(commits, i) ==>
      |commits[i].value| >= RevisionLength && r == commits[i].value[..RevisionLength]
  {
    if |commits| == 0 then ""
    else
      match commits[0]
      case Some(s) => s[..RevisionLength]
      case None =>
        var tail := commits[1..];
        var r := ShortRevision(tail);
        assert forall i :: 0 < i < |commits| ==> commits[i] == tail[i - 1];
        assert forall i :: FirstPresentAt(commits, i) ==> FirstPresentAt(tail, i - 1);
        r
  }

  // ---------------------------------------------------------------------
  // The deploy command

  function CommitsLine(n: nat): string {
    Decimal(n) + " commits"
  }

  function DeployingLine(image: string): string {
    "deploying image " + image
  }

  function ErrorLine(output: string): string {
    ErrorPrefix + output
  }

  /** The messages of a deployment that goes through. */
  function SuccessTrace(cfg: Config, list: seq<Option<string>>, setOut: string, rolloutOut: string): seq<string>
    requires ShaSliceable(list)
  {
    var image := ImageRef(cfg.imagePrefix, ShortRevision(list));
    [AboutToDeploy, CommitsLine(|list|), DeployingLine(image), setOut, rolloutOut, FinishedDeployment]
  }

  /** The calls of a deployment that goes through. */
  function FullCalls(cfg: Config, list: seq<Option<string>>): seq<Call>
    requires ShaSliceable(list)
  {
    var image := ImageRef(cfg.imagePrefix, ShortRevision(list));
    [ListCommits(cfg.githubOrg, cfg.githubRepo),
     Kubectl(SetImageArgs(cfg.namespace, cfg.deployment, image)),
     Kubectl(RolloutArgs(cfg.namespace, cfg.deployment))]
  }

  /** The deploy command: announce, list commits, resolve the revision,
      announce the image, set it on the deployment, wait for the rollout.
      Each kubectl failure is reported as `ERROR: <output>` and ends the run
      without an error; a failed listing or a missing SHA ends it with one. */
  function DeployCmd(cfg: Config, commits: Commits, cluster: Cluster): (r: Run)
    requires commits.Ok? ==> ShaSliceable(commits.value)
    ensures |r.emitted| >= 1 && r.emitted[0] == AboutToDeploy
    ensures |r.calls| >= 1 && r.calls[0] == ListCommits(cfg.githubOrg, cfg.githubRepo)
    // a failed listing or a missing revision: nothing but the announcement
    ensures r.err.Some? <==> commits.Err? || NoSha(commits.value)
    ensures r.err.Some? ==> r.emitted == [AboutToDeploy] && |r.calls| == 1
    ensures commits.Err? ==> r.err == Some(commits.error)
    ensures commits.Ok? && NoSha(commits.value) ==> r.err == Some(NoShaFound)
    // otherwise: the image and the set-image call are fixed by the revision
    ensures commits.Ok? && !NoSha(commits.value) ==>
      var list := commits.value;
      var image := ImageRef(cfg.imagePrefix, ShortRevision(list));
      var setArgs := SetImageArgs(cfg.namespace, cfg.deployment, image);
      && |r.emitted| >= 4 && r.emitted[..3] == SuccessTrace(cfg, list, "", "")[..3]
      && |r.calls| >= 2 && r.calls[..2] == FullCalls(cfg, list)[..2]
      && (!cluster(setArgs).ok ==>
            r.emitted == r.emitted[..3] + [ErrorLine(cluster(setArgs).output)] && |r.calls| == 2)
      && (cluster(setArgs).ok ==>
            var rollout := cluster(RolloutArgs(cfg.namespace, cfg.deployment));
            && r.calls == FullCalls(cfg, list)
            && (rollout.ok ==> r.emitted == SuccessTrace(cfg, list, cluster(setArgs).output, rollout.output))
            && (!rollout.ok ==>
                  r.emitted == r.emitted[..3] + [cluster(setArgs).output, ErrorLine(rollout.output)]))
  {
    var announce := [AboutToDeploy];
    var listCall := [ListCommits(cfg.githubOrg, cfg.githubRepo)];
    match commits
    case Err(e) => Run(announce, listCall, Some(e))
    case Ok(list) =>
      var sha := ShortRevision(list);
      if sha == "" then Run(announce, listCall, Some(NoShaFound))
      else
        var image := ImageRef(cfg.imagePrefix, sha);
        var progress := announce + [CommitsLine(|list|), DeployingLine(image)];
        var setArgs := SetImageArgs(cfg.namespace, cfg.deployment, image);
        var setImage := cluster(setArgs);
        if !setImage.ok then Run(progress + [ErrorLine(setImage.output)], listCall + [Kubectl(setArgs)], None)
        else
          var rolloutArgs := RolloutArgs(cfg.namespace, cfg.deployment);
          var rollout := cluster(rolloutArgs);
          var calls := listCall + [Kubectl(setArgs), Kubectl(rolloutArgs)];
          if !rollout.ok then Run(progress + [setImage.output, ErrorLine(rollout.output)], calls, None)
          else Run(progress + [setImage.output, rollout.output, FinishedDeployment], calls, None)
  }

  /** The deployment reached the cluster with the resolved image, and the
      set-image call reported success. */
  predicate SetImageSucceeded(cfg: Config, commits: Commits, cluster: Cluster)
    requires commits.Ok? ==> ShaSliceable(commits.value)
  {
    && commits.Ok?
    && !NoSha(commits.value)
    && cluster(SetImageArgs(cfg.namespace, cfg.deployment,
                            ImageRef(cfg.imagePrefix, ShortRevision(commits.value)))).ok
  }

  /** Short-circuiting: the rollout is awaited exactly when setting the image
      succeeded, and the run ends with "finished deployment" exactly when the
      rollout succeeded too. A failing step is the last one reported. */
  lemma DeployShortCircuits(cfg: Config, commits: Commits, cluster: Cluster)
    requires commits.Ok? ==> ShaSliceable(commits.value)
    ensures var r := DeployCmd(cfg, commits, cluster);
      Kubectl(RolloutArgs(cfg.namespace, cfg.deployment)) in r.calls <==>
        SetImageSucceeded(cfg, commits, cluster)
    ensures var r := DeployCmd(cfg, commits, cluster);
      r.emitted[|r.emitted| - 1] == FinishedDeployment <==>
        SetImageSucceeded(cfg, commits, cluster) &&
        cluster(RolloutArgs(cfg.namespace, cfg.deployment)).ok
    ensures var r := DeployCmd(cfg, commits, cluster);
      r.err.None? && !cluster(r.calls[|r.calls| - 1].args).ok ==>
        r.emitted[|r.emitted| - 1] == ErrorLine(cluster(r.calls[|r.calls| - 1].args).output)
  {
    var r := DeployCmd(cfg, commits, cluster);
    if commits.Ok? && !NoSha(commits.value) {
      var list := commits.value;
      var rolloutArgs := RolloutArgs(cfg.namespace, cfg.deployment);
      var image := ImageRef(cfg.imagePrefix, ShortRevision(list));
      assert SetImageArgs(cfg.namespace, cfg.deployment, image)[2] != rolloutArgs[2];
      assert ErrorLine(cluster(rolloutArgs).output)[0] == 'E';
      assert ErrorLine(cluster(SetImageArgs(cfg.namespace, cfg.deployment, image)).output)[0] == 'E';
      assert r.calls[0] != Kubectl(rolloutArgs);
    }
  }

  /** The messages a deployment would send if every kubectl call succeeded
      with the output `cluster` gives it. */
  function PlannedTrace(cfg: Config, list: seq<Option<string>>, cluster: Cluster): seq<string>
    requires ShaSliceable(list)
  {
    var image := ImageRef(cfg.imagePrefix, ShortRevision(list));
    SuccessTrace(cfg, list, cluster(SetImageArgs(cfg.namespace, cfg.deployment, image)).output,
                 cluster(RolloutArgs(cfg.namespace, cfg.deployment)).output)
  }

  /** The run's messages are the first `k` messages of `trace`, possibly
      followed by the error report of its last kubectl call. */
  ghost predicate ReportsUpTo(r: Run, trace: seq<string>, cluster: Cluster, k: int) {
    && 1 <= k <= |trace|
    && (|| r.emitted == trace[..k]
        || (|r.calls| > 0 && r.calls[|r.calls| - 1].Kubectl? &&
            r.emitted == trace[..k] + [ErrorLine(cluster(r.calls[|r.calls| - 1].args).output)]))
  }

  /** Whatever happens, the calls made are a prefix of the full plan, and the
      messages a prefix of the success trace, possibly followed by one error
      report. */
  lemma DeployFollowsPlan(cfg: Config, commits: Commits, cluster: Cluster)
    requires commits.Ok? && ShaSliceable(commits.value)
    ensures var r := DeployCmd(cfg, commits, cluster);
      var plan := FullCalls(cfg, commits.value);
      && |r.calls| <= |plan| && r.calls == plan[..|r.calls|]
      && exists k :: ReportsUpTo(r, PlannedTrace(cfg, commits.value, cluster), cluster, k)
  {
    var r := DeployCmd(cfg, commits, cluster);
    var list := commits.value;
    var trace := PlannedTrace(cfg, list, cluster);
    var plan := FullCalls(cfg, list);
    if NoSha(list) {
      assert r.calls == plan[..1];
      assert ReportsUpTo(r, trace, cluster, 1);
    } else if !SetImageSucceeded(cfg, commits, cluster) {
      assert ReportsUpTo(r, trace, cluster, 3);
    } else if !cluster(RolloutArgs(cfg.namespace, cfg.deployment)).ok {
      assert ReportsUpTo(r, trace, cluster, 4);
    } else {
      assert ReportsUpTo(r, trace, cluster, 6);
    }
  }

  // ---------------------------------------------------------------------
  // The pods command

  /** The pods command: announce, run `kubectl get pods`, and post its output
      fenced on success. A failure is only logged locally, so nothing more
      reaches the chat, and no error is returned. */
  function PodsCmd(namespace: string, cluster: Cluster): (r: Run)
    ensures r.calls == [Kubectl(PodsArgs(namespace))] && r.err.None?
    ensures |r.emitted| >= 1 && r.emitted[0] == AboutToListPods
    ensures cluster(PodsArgs(namespace)).ok ==>
      r.emitted == [AboutToListPods, Fence(cluster(PodsArgs(namespace)).output)]
    ensures !cluster(PodsArgs(namespace)).ok ==> r.emitted == [AboutToListPods]
  {
    var args := PodsArgs(namespace);
    var out := cluster(args);
    if out.ok then Run([AboutToListPods, Fence(out.output)], [Kubectl(args)], None)
    else Run([AboutToListPods], [Kubectl(args)], None)
  }

  // ---------------------------------------------------------------------
  // The command table

  /** The well-formedness the deploy command needs of its backends. */
  predicate Runnable(cmd: Command, b: Backends) {
    cmd.Deploy? && b.commits.Ok? ==> ShaSliceable(b.commits.value)
  }

  /** Runs the action the command table binds to `cmd`. Each handler's first
      message announces it and its first call identifies it. */
  function Invoke(cmd: Command, cfg: Config, b: Backends): (r: Run)
    requires Runnable(cmd, b)
    ensures |r.emitted| >= 1 && |r.calls| >= 1
    ensures cmd.Pods? <==> r.emitted[0] == AboutToListPods
    ensures cmd.Pods? <==> r.calls[0].Kubectl?
    ensures cmd.Pods? ==> r.calls[0].args == PodsArgs(cmd.namespace) && r.err.None?
    ensures cmd.Deploy? ==> r.calls[0] == ListCommits(cfg.githubOrg, cfg.githubRepo)
  {
    match cmd
    case Pods(namespace) => PodsCmd(namespace, b.cluster)
    case Deploy => DeployCmd(cfg, b.commits, b.cluster)
  }
}
