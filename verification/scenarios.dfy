/** Concrete runs of the model: an absent SHA, an empty SHA, an empty commit
    listing, and a deployment where every call succeeds. */
module Scenarios {
  import opened Outcomes
  import opened Kube
  import opened Commands

  const Cfg: Config := Config("org", "repo", "myimage", "prod", "web")

  /** An absent SHA is skipped and the next one is shortened to 12
      characters. */
  lemma SkipsAbsentSha()
    ensures ShortRevision([None, Some("abcdef1234567890")]) == "abcdef123456"
  {
    assert FirstPresentAt([None, Some("abcdef1234567890")], 1);
  }

  /** A present but empty SHA is not skipped: it is the one sliced, which is
      out of range, so such a listing falls outside the model's domain. */
  lemma EmptyShaIsNotSkipped()
    ensures !ShaSliceable([Some(""), Some("abcdef1234567890")])
  {
  }

  /** An empty listing ends the deploy with "no sha found" before any kubectl
      command. */
  lemma EmptyListingStopsDeploy(cluster: Cluster)
    ensures DeployCmd(Cfg, Ok([]), cluster) ==
      Run([AboutToDeploy], [ListCommits("org", "repo")], Some(NoShaFound))
  {
  }

  /** With every call succeeding, the image deployed is `myimage:<revision>`
      and the last message is "finished deployment". */
  lemma SuccessfulDeploy(cluster: Cluster)
    requires forall args :: cluster(args).ok
    ensures var r := DeployCmd(Cfg, Ok([Some("1234567890ab")]), cluster);
      && r.calls[1] == Kubectl(SetImageArgs("prod", "web", "myimage:1234567890ab"))
      && r.emitted[|r.emitted| - 1] == FinishedDeployment
  {
    assert ShortRevision([Some("1234567890ab")]) == "1234567890ab";
    assert ImageRef("myimage", "1234567890ab") == "myimage:1234567890ab";
  }
}
