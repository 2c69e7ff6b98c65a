/** The `kubectl` invocations the bot issues, as argument vectors (the
    program name `kubectl` itself is left implicit), and the image reference
    it deploys. A subprocess run is not modelled: its outcome is an input. */
module Kube {
  import opened Outcomes

  /** What `exec.Command(...).CombinedOutput()` reports: whether the process
      succeeded, and its combined stdout and stderr. */
  datatype CallOutcome = CallOutcome(ok: bool, output: string)

  const NamespaceFlag: string := "-n"

  /** Argument vector of the pods listing: `get pods`, scoped with `-n` only
      when a namespace was given. */
  function PodsArgs(namespace: string): (args: seq<string>)
    ensures |args| >= 2 && args[..2] == ["get", "pods"]
    ensures namespace == "" ==> |args| == 2
    ensures namespace != "" ==> args[2..] == [NamespaceFlag, namespace]
  {
    var base := ["get", "pods"];
    if namespace != "" then base + [NamespaceFlag, namespace] else base
  }

  /** The image reference deployed: the configured prefix, a colon and the
      short revision. */
  function ImageRef(prefix: string, revision: string): (image: string)
    ensures |image| == |prefix| + 1 + |revision|
    ensures image[..|prefix|] == prefix && image[|prefix|] == ':'
    ensures image[|prefix| + 1..] == revision
  {
    prefix + ":" + revision
  }

  /** `-n <namespace> set image deployments/<deployment> *=<image>`: every
      container of the deployment's pod template gets the new image. */
  function SetImageArgs(namespace: string, deployment: string, image: string): (args: seq<string>)
    ensures |args| == 6
    ensures args[..2] == [NamespaceFlag, namespace]
    ensures args[2..4] == ["set", "image"]
    ensures args[4] == "deployments/" + deployment && args[5] == "*=" + image
  {
    [NamespaceFlag, namespace, "set", "image", "deployments/" + deployment, "*=" + image]
  }

  /** `-n <namespace> rollout status deployments/<deployment>`. */
  function RolloutArgs(namespace: string, deployment: string): (args: seq<string>)
    ensures |args| == 5
    ensures args[..2] == [NamespaceFlag, namespace]
    ensures args[2..4] == ["rollout", "status"]
    ensures args[4] == "deployments/" + deployment
  {
    [NamespaceFlag, namespace, "rollout", "status", "deployments/" + deployment]
  }

  /** How the command line is read: the value following the first `-n`, if
      any. */
  function FlagValue(args: seq<string>, flag: string): (v: Option<string>)
    ensures v.Some? ==> exists i :: 0 <= i < |args| - 1 && args[i] == flag && args[i + 1] == v.value
    ensures v.None? ==> forall i :: 0 <= i < |args| - 1 ==> args[i] != flag
  {
    if |args| < 2 then None
    else if args[0] == flag then Some(args[1])
    else
      var v := FlagValue(args[1..], flag);
      assert forall i :: 0 < i < |args| ==> args[i] == args[1..][i - 1];
      v
  }

  /** The pods listing is scoped to exactly the requested namespace, and left
      unscoped exactly when none was requested. */
  lemma PodsNamespaceScoped(namespace: string)
    ensures FlagValue(PodsArgs(namespace), NamespaceFlag) ==
      (if namespace == "" then None else Some(namespace))
  {
    var args := PodsArgs(namespace);
    if namespace != "" {
      assert args[1..][1..] == [NamespaceFlag, namespace];
    } else {
      assert args[1..] == ["pods"];
    }
  }

  /** The namespace kubectl acts in, as far as the command line decides it:
      the `-n` value, except that an empty override counts as unset, so both
      `None` and `Some("")` leave kubectl on its configured default. */
  function EffectiveNamespace(args: seq<string>): (ns: Option<string>)
    ensures ns.Some? ==> ns.value != "" && FlagValue(args, NamespaceFlag) == ns
    ensures ns.None? ==> FlagValue(args, NamespaceFlag) in {None, Some("")}
  {
    match FlagValue(args, NamespaceFlag)
    case Some(v) => if v == "" then None else Some(v)
    case None => None
  }

  /** The deployment commands act in the configured namespace when it is
      non-empty and in kubectl's default one when it is empty, the same
      namespace the pods listing would use for that value. */
  lemma DeploymentCommandsScoped(namespace: string, deployment: string, image: string)
    ensures EffectiveNamespace(SetImageArgs(namespace, deployment, image)) ==
      (if namespace == "" then None else Some(namespace))
    ensures EffectiveNamespace(RolloutArgs(namespace, deployment)) ==
      (if namespace == "" then None else Some(namespace))
    ensures EffectiveNamespace(SetImageArgs(namespace, deployment, image)) ==
      EffectiveNamespace(PodsArgs(namespace))
  {
    PodsNamespaceScoped(namespace);
  }

  /** Splits an image reference at its last colon into name and tag, as a
      registry reads `name:tag`; `None` when there is no colon. */
  function SplitTag(image: string): (r: Option<(string, string)>)
    ensures r.Some? ==> r.value.0 + ":" + r.value.1 == image && ':' !in r.value.1
    ensures r.None? <==> ':' !in image
  {
    if |image| == 0 then None
    else
      var last := image[|image| - 1];
      var init := image[..|image| - 1];
      assert image == init + [last];
      if last == ':' then Some((init, ""))
      else match SplitTag(init)
        case None => None
        case Some((name, tag)) => Some((name, tag + [last]))
  }

  /** The deployed reference names the configured image with the short
      revision as its tag, provided the revision has no colon (a hexadecimal
      commit hash never does). */
  lemma {:induction false} ImageRefSplits(prefix: string, revision: string)
    requires ':' !in revision
    ensures SplitTag(ImageRef(prefix, revision)) == Some((prefix, revision))
    decreases |revision|
  {
    var image := ImageRef(prefix, revision);
    if |revision| == 0 {
      assert image == prefix + [':'];
      assert image[..|image| - 1] == prefix;
    } else {
      var last := revision[|revision| - 1];
      var init := revision[..|revision| - 1];
      assert revision == init + [last];
      assert image == ImageRef(prefix, init) + [last];
      assert image[..|image| - 1] == ImageRef(prefix, init);
      assert image[|image| - 1] == last && last != ':';
      ImageRefSplits(prefix, init);
    }
  }
}
