/** k3d.go: the first version of the tool, which always enters the
    container of the pod's first container status and always runs `sh`.

    Its client calls (getNodes, getPodByName, getNodeOfPod) are served by the
    same snapshot as the helpers: GetNodes, GetPodByNameInCurrentNamespace and
    GetNodeOfPod. */
module RootK3d {
  import opened GoStrings
  import opened Kube
  import H = HelpersK3d

  /** isK3d: a failed node listing gives (false, err); otherwise the answer
      is whether some node name starts with "k3d". */
  method IsK3d(k: Client) returns (isK3d: bool, err: Option<Error>)
    ensures GetNodes(k).Err? ==> !isK3d && err == Some(GetNodes(k).error)
    ensures GetNodes(k).Ok? ==> err == None && (isK3d <==> H.HasK3dNode(GetNodes(k).value))
  {
    var nodes := GetNodes(k);
    if nodes.Err? {
      return false, Some(nodes.error);
    }
    for i := 0 to |nodes.value|
      invariant forall j :: 0 <= j < i ==> !H.IsK3dNode(nodes.value[j])
    {
      if HasPrefix(nodes.value[i].name, "k3d") {
        assert H.IsK3dNode(nodes.value[i]);
        return true, None;
      }
    }
    return false, None;
  }

  /** The runc line of rootIntoPod: the command is always `sh`. */
  function RootRuncCommand(containerID: string): string {
    H.RuncExec + containerID + " sh"
  }

  /** rootIntoPod indexes the first container status without a check, so a
      pod that is found on a node must report at least one status. */
  predicate CanRootIntoPod(k: Client, podName: string) {
    && HasCurrentContext(k)
    && var pod := GetPodByNameInCurrentNamespace(k, podName);
       (pod.Ok? && GetNodeOfPod(k, pod.value).Ok? ==> |pod.value.containerStatuses| > 0)
  }

  /** What rootIntoPod does. */
  function RootOutcome(k: Client, podName: string): Result<H.Invocation>
    requires CanRootIntoPod(k, podName)
  {
    match GetPodByNameInCurrentNamespace(k, podName)
    case Err(e) => Err(e)
    case Ok(pod) =>
      match GetNodeOfPod(k, pod)
      case Err(e) => Err(e)
      case Ok(node) =>
        var containerID := TrimPrefix(pod.containerStatuses[0].containerID, H.ContainerdScheme);
        Ok(H.DockerExec(node.name, ["sh", "-c", RootRuncCommand(containerID)]))
  }

  /** rootIntoPod: lookup errors are returned before anything runs; otherwise
      docker enters the pod's node and runc the container of the pod's
      first status. */
  method RootIntoPod(k: Client, podName: string) returns (r: Result<H.Invocation>)
    requires CanRootIntoPod(k, podName)
    ensures var pod := GetPodByNameInCurrentNamespace(k, podName);
            && (pod.Err? ==> r == Err(pod.error))
            && (pod.Ok? && GetNodeOfPod(k, pod.value).Err? ==> r == Err(GetNodeOfPod(k, pod.value).error))
            && (pod.Ok? && GetNodeOfPod(k, pod.value).Ok? ==>
                  r == Ok(H.Invocation("docker", ["exec", "-ti", pod.value.nodeName, "sh", "-c",
                    H.RuncExec + TrimPrefix(pod.value.containerStatuses[0].containerID, H.ContainerdScheme) + " sh"])))
    ensures r == RootOutcome(k, podName)
  {
    var pod := GetPodByNameInCurrentNamespace(k, podName);
    if pod.Err? {
      return Err(pod.error);
    }
    var nodeOfPod := GetNodeOfPod(k, pod.value);
    if nodeOfPod.Err? {
      return Err(nodeOfPod.error);
    }
    var containerID := pod.value.containerStatuses[0].containerID;
    containerID := TrimPrefix(containerID, H.ContainerdScheme);
    var runCCmd := H.RuncExec + containerID + " sh";
    var cmd := ["sh", "-c", runCCmd];
    r := ExecIntoDockerContainer(nodeOfPod.value.name, cmd);
    assert nodeOfPod.value.name == pod.value.nodeName;
    assert r.value.args == ["exec", "-ti", pod.value.nodeName, "sh", "-c", runCCmd];
  }

  /** execIntoDockerContainer: runs `docker exec -ti <containerName> <cmds…>`
      and only ever returns nil. */
  method ExecIntoDockerContainer(containerName: string, cmds: seq<string>) returns (r: Result<H.Invocation>)
    ensures r.Ok? && r.value.program == "docker"
    ensures r.value.args == ["exec", "-ti", containerName] + cmds
  {
    var prg := "docker";
    var arg1 := "exec";
    var arg2 := "-ti";
    var arg3 := containerName;
    var args := [arg1, arg2, arg3];
    args := args + cmds;
    return Ok(H.Invocation(prg, args));
  }

  /** The fixed `sh` of rootIntoPod is the helpers' command line for ["sh"]. */
  lemma RootRuncIsHelpersRunc(containerID: string)
    ensures RootRuncCommand(containerID) == H.RuncCommand(containerID, ["sh"])
  {
    JoinSingleton("sh", " ");
  }

  /** When the first status has an id, rootIntoPod does exactly what the
      helpers do for a root `sh` in the container named by that status. */
  lemma RootAgreesWithHelpers(k: Client, podName: string)
    requires CanRootIntoPod(k, podName)
    requires GetPodByNameInCurrentNamespace(k, podName).Ok?
    requires var pod := GetPodByNameInCurrentNamespace(k, podName).value;
             GetNodeOfPod(k, pod).Ok? && pod.containerStatuses[0].containerID != ""
    ensures var first := GetPodByNameInCurrentNamespace(k, podName).value.containerStatuses[0];
            RootOutcome(k, podName) == H.ExecOutcome(k, GetNamespace(k), podName, first.name, ["sh"])
  {
    var pod := GetPodByNameInCurrentNamespace(k, podName).value;
    var first := pod.containerStatuses[0];
    H.ContainerIDOfFirstMatch(pod.containerStatuses, first.name, 0);
    RootRuncIsHelpersRunc(TrimPrefix(first.containerID, H.ContainerdScheme));
  }

  /** Entering a pod by its bare name, and entering it through the entry
      "pod: c" where c names the container of its first status, reach the
      same target. */
  lemma RootAgreesWithPickerEntry(k: Client, podName: string)
    requires CanRootIntoPod(k, podName)
    requires GetPodByNameInCurrentNamespace(k, podName).Ok?
    requires var pod := GetPodByNameInCurrentNamespace(k, podName).value;
             && GetNodeOfPod(k, pod).Ok? && pod.containerStatuses[0].containerID != ""
             && !Contains(podName, H.Separator) && !Contains(pod.containerStatuses[0].name, H.Separator)
    ensures var entry := H.PickerItem(podName, GetPodByNameInCurrentNamespace(k, podName).value.containerStatuses[0].name);
            && Contains(entry, H.Separator)
            && RootOutcome(k, podName) ==
                 H.ExecOutcome(k, GetNamespace(k), H.SplitPodContainer(entry).0, H.SplitPodContainer(entry).1, ["sh"])
  {
    var c := GetPodByNameInCurrentNamespace(k, podName).value.containerStatuses[0].name;
    H.PickerItemRoundTrip(podName, c);
    RootAgreesWithHelpers(k, podName);
  }

  /** Where the two versions part: with an empty first id, rootIntoPod still
      runs runc (on an empty id), while the helpers report the container as
      not found and run nothing. */
  lemma RootIgnoresEmptyId(k: Client, podName: string)
    requires CanRootIntoPod(k, podName)
    requires GetPodByNameInCurrentNamespace(k, podName).Ok?
    requires var pod := GetPodByNameInCurrentNamespace(k, podName).value;
             GetNodeOfPod(k, pod).Ok? && pod.containerStatuses[0].containerID == ""
    ensures var pod := GetPodByNameInCurrentNamespace(k, podName).value;
            && RootOutcome(k, podName) ==
                 Ok(H.Invocation("docker", ["exec", "-ti", pod.nodeName, "sh", "-c", H.RuncExec + " sh"]))
            && H.ExecOutcome(k, GetNamespace(k), podName, pod.containerStatuses[0].name, ["sh"]) ==
                 Err(Failed("container " + pod.containerStatuses[0].name + " not found in pod " + podName))
  {
    var pod := GetPodByNameInCurrentNamespace(k, podName).value;
    H.ContainerIDOfFirstMatch(pod.containerStatuses, pod.containerStatuses[0].name, 0);
    assert TrimPrefix("", H.ContainerdScheme) == "";
    assert RootRuncCommand("") == H.RuncExec + " sh";
    assert ["exec", "-ti", pod.nodeName] + ["sh", "-c", H.RuncExec + " sh"] ==
           ["exec", "-ti", pod.nodeName, "sh", "-c", H.RuncExec + " sh"];
  }
}
